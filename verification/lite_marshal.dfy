/** ReadLiteList's marshalling stage: every record of the set becomes a
    "lite" record holding a rendered `Value` and the identifying fields,
    chosen once by peeking at the first record. */
module LiteMarshal {
  import opened MeadowValues
  import opened Collaborators

  /** What the stage decides before its loop: the default identifier, the
      GUID field (`false` when the DAL's GUID identifier is empty), whether
      the first record has an own `UpdateDate`, the `ID…`/`GUID…` keys of the
      first record, and the fallback template for `Value`. */
  datatype LiteShape = LiteShape(
    defaultIdentifier: string,
    guid: Option<string>,
    hasUpdateDate: bool,
    idFields: set<string>,
    fallback: string)

  /** A key that starts with 'ID' or 'GUID'. */
  predicate IsIdField(key: string) {
    StartsWith(key, "ID") || StartsWith(key, "GUID")
  }

  /** The `ID…` and `GUID…` keys of a record. */
  function IdFieldsOf(first: Record): set<string> {
    set k | k in first && IsIdField(k)
  }

  function ShapeOf(records: seq<Record>, dal: Dal): LiteShape {
    LiteShape(
      dal.defaultIdentifier,
      if |dal.defaultGUIdentifier| > 0 then Some(dal.defaultGUIdentifier) else None,
      |records| > 0 && "UpdateDate" in records[0],
      if |records| > 0 then IdFieldsOf(records[0]) else {},
      dal.scope + " #<%= Record." + dal.defaultIdentifier + "%>")
  }

  /** The default identifier, the GUID field and `UpdateDate`, as chosen. */
  function FixedFields(shape: LiteShape): set<string> {
    {shape.defaultIdentifier}
      + (if shape.guid.Some? then {shape.guid.value} else {})
      + (if shape.hasUpdateDate then {"UpdateDate"} else {})
  }

  /** The keys a lite record copies from its record. */
  function CopiedFields(shape: LiteShape): set<string> {
    FixedFields(shape) + shape.idFields
  }

  /** The 'SelectList' template rendered with `{Record: record}`. */
  function RenderedValue(rec: Record, shape: LiteShape, render: (string, Record, string) -> string): Value {
    Str(render("SelectList", map["Record" := Obj(rec)], shape.fallback))
  }

  /** `Value` set to `rendered`, then the `copied` keys copied from `rec`. */
  function WithCopies(rec: Record, rendered: Value, copied: set<string>): Record {
    map k | k in {"Value"} + copied :: if k in copied then Get(rec, k) else rendered
  }

  /** Copying one more key. */
  lemma CopyOne(rec: Record, rendered: Value, copied: set<string>, k: string)
    ensures WithCopies(rec, rendered, copied)[k := Get(rec, k)] == WithCopies(rec, rendered, copied + {k})
  {
  }

  /** One lite record. Every copied key is assigned after `Value`, so a
      copied key named 'Value' overwrites the rendered value. */
  function LiteRecord(rec: Record, shape: LiteShape, render: (string, Record, string) -> string): (lite: Record)
    ensures lite.Keys == {"Value"} + CopiedFields(shape)
    ensures forall k :: k in CopiedFields(shape) ==> lite[k] == Get(rec, k)
    ensures "Value" !in CopiedFields(shape) ==> lite["Value"] == RenderedValue(rec, shape, render)
  {
    WithCopies(rec, RenderedValue(rec, shape, render), CopiedFields(shape))
  }

  /** The list the stage hands to the final handler. */
  function LiteListOf(records: seq<Record>, dal: Dal, render: (string, Record, string) -> string): (lite: seq<Record>)
    ensures |lite| == |records|
  {
    var shape := ShapeOf(records, dal);
    seq(|records|, i requires 0 <= i < |records| => LiteRecord(records[i], shape, render))
  }

  /** The `forEach` over `Object.keys` of the first record. */
  method IdFields(first: Record) returns (fields: set<string>)
    ensures forall k :: k in fields <==> k in first && IsIdField(k)
  {
    var pending := first.Keys;
    fields := {};
    while pending != {}
      invariant pending <= first.Keys
      invariant forall k :: k in fields <==> k in first && k !in pending && IsIdField(k)
      decreases pending
    {
      var k :| k in pending;
      if IsIdField(k) {
        fields := fields + {k};
      }
      pending := pending - {k};
    }
  }

  /** The body of the `for` loop for one record: `Value` first, then the
      default identifier, the GUID, `UpdateDate` and the `ID…`/`GUID…` keys. */
  method MarshalLiteRecord(rec: Record, shape: LiteShape, render: (string, Record, string) -> string)
    returns (lite: Record)
    ensures lite == LiteRecord(rec, shape, render)
  {
    ghost var rendered := RenderedValue(rec, shape, render);
    ghost var copied: set<string> := {};
    lite := map["Value" := RenderedValue(rec, shape, render)];
    assert lite == WithCopies(rec, rendered, copied);
    CopyOne(rec, rendered, copied, shape.defaultIdentifier);
    lite, copied := lite[shape.defaultIdentifier := Get(rec, shape.defaultIdentifier)], copied + {shape.defaultIdentifier};
    if shape.guid.Some? {
      CopyOne(rec, rendered, copied, shape.guid.value);
      lite, copied := lite[shape.guid.value := Get(rec, shape.guid.value)], copied + {shape.guid.value};
    }
    if shape.hasUpdateDate {
      CopyOne(rec, rendered, copied, "UpdateDate");
      lite, copied := lite["UpdateDate" := Get(rec, "UpdateDate")], copied + {"UpdateDate"};
    }
    assert copied == FixedFields(shape);
    var pending := shape.idFields;
    while pending != {}
      invariant pending <= shape.idFields
      invariant lite == WithCopies(rec, rendered, FixedFields(shape) + (shape.idFields - pending))
      decreases pending
    {
      var k :| k in pending;
      CopyOne(rec, rendered, FixedFields(shape) + (shape.idFields - pending), k);
      lite := lite[k := Get(rec, k)];
      assert FixedFields(shape) + (shape.idFields - pending) + {k} == FixedFields(shape) + (shape.idFields - (pending - {k}));
      pending := pending - {k};
    }
    assert shape.idFields - pending == shape.idFields;
  }

  /** The marshalling loop: one lite record per record, in order. */
  method LiteList(records: seq<Record>, dal: Dal, render: (string, Record, string) -> string)
    returns (lite: seq<Record>)
    ensures lite == LiteListOf(records, dal, render)
  {
    var hasUpdateDate := |records| > 0 && "UpdateDate" in records[0];
    var guid := if |dal.defaultGUIdentifier| > 0 then Some(dal.defaultGUIdentifier) else None;
    var fields: set<string> := {};
    if |records| > 0 {
      fields := IdFields(records[0]);
    }
    var shape := LiteShape(dal.defaultIdentifier, guid, hasUpdateDate, fields,
                           dal.scope + " #<%= Record." + dal.defaultIdentifier + "%>");
    assert shape == ShapeOf(records, dal);
    lite := [];
    var i := 0;
    while i < |records|
      invariant 0 <= i <= |records|
      invariant |lite| == i
      invariant forall j :: 0 <= j < i ==> lite[j] == LiteRecord(records[j], shape, render)
    {
      var one := MarshalLiteRecord(records[i], shape, render);
      lite := lite + [one];
      i := i + 1;
    }
  }

  /** A prefix starts with the first character of the string. */
  lemma PrefixHead(prefix: string, s: string)
    requires |prefix| > 0
    ensures StartsWith(s, prefix) ==> |s| > 0 && s[0] == prefix[0]
  {
    if StartsWith(s, prefix) {
      assert s[..|prefix|] == prefix;
    }
  }

  /** The list has the length and order of the record set; each entry has
      `Value` and the default identifier, the GUID field when the DAL names
      one, `UpdateDate` when the first record has it, every `ID…`/`GUID…` key
      of the first record, and nothing else, each copied from its own record
      (a key missing there is copied as undefined). */
  lemma LiteListFields(records: seq<Record>, dal: Dal, render: (string, Record, string) -> string, i: int)
    requires 0 <= i < |records|
    ensures var lite := LiteListOf(records, dal, render);
            var rec := records[i];
            && |lite| == |records|
            && "Value" in lite[i]
            && (dal.defaultIdentifier != "Value" && dal.defaultGUIdentifier != "Value" ==>
                  lite[i]["Value"] == Str(render("SelectList", map["Record" := Obj(rec)],
                                                 dal.scope + " #<%= Record." + dal.defaultIdentifier + "%>")))
            && dal.defaultIdentifier in lite[i] && lite[i][dal.defaultIdentifier] == Get(rec, dal.defaultIdentifier)
            && (dal.defaultGUIdentifier != "" ==>
                  dal.defaultGUIdentifier in lite[i] && lite[i][dal.defaultGUIdentifier] == Get(rec, dal.defaultGUIdentifier))
            && ("UpdateDate" in records[0] ==> "UpdateDate" in lite[i] && lite[i]["UpdateDate"] == Get(rec, "UpdateDate"))
            && (forall k :: k in records[0] && IsIdField(k) ==> k in lite[i] && lite[i][k] == Get(rec, k))
            && (forall k :: k in lite[i] ==>
                  k == "Value" || k == dal.defaultIdentifier || k == dal.defaultGUIdentifier ||
                  (k == "UpdateDate" && "UpdateDate" in records[0]) || (k in records[0] && IsIdField(k)))
  {
    var shape := ShapeOf(records, dal);
    assert !IsIdField("Value") by {
      PrefixHead("ID", "Value");
      PrefixHead("GUID", "Value");
    }
    assert LiteListOf(records, dal, render)[i] == LiteRecord(records[i], shape, render);
  }
}

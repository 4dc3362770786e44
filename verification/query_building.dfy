/** The first stage of each read endpoint: paging (`Begin`/`Cap`), the
    filter string or object, the by-field filters of ReadsBy and the distinct
    columns of ReadDistinctList, applied to a fresh query from the DAL. */
module QueryBuilding {
  import opened MeadowValues
  import opened Requests

  // ---------------------------------------------------------------------
  // Paging

  /** `Begin` in ReadLiteList, ReadsBy and ReadDistinctList: parsed when it
      is a string or a number, otherwise `false`. */
  function BeginOf(p: PagingParam): (begin: Option<int>)
    ensures begin.Some? <==> p.Text? || p.Number?
    ensures begin.Some? ==> begin.value == p.value
  {
    match p
    case Text(v) => Some(v)
    case Number(v) => Some(v)
    case _ => None
  }

  /** `Cap` in the same three endpoints: parsed when it is a string or a
      number, otherwise `DEFAULT_MAX_CAP`. */
  function CapOf(p: PagingParam, defaultCap: int): (cap: int)
    ensures (p.Text? || p.Number?) ==> cap == p.value
    ensures !(p.Text? || p.Number?) ==> cap == defaultCap
  {
    match p
    case Text(v) => v
    case Number(v) => v
    case _ => defaultCap
  }

  /** `Begin` and `Cap` in ReadSelectList: parsed only from a string,
      otherwise `false`; there is no default cap. */
  function StringOnly(p: PagingParam): (r: Option<int>)
    ensures r.Some? <==> p.Text?
    ensures r.Some? ==> r.value == p.value
  {
    if p.Text? then Some(p.value) else None
  }

  /** `query.setCap(cap).setBegin(begin)` with the shared derivation. */
  function Paged(q: Query, p: Params, defaultCap: int): Query {
    q.(cap := Some(CapOf(p.cap, defaultCap)), begin := BeginOf(p.begin))
  }

  /** The two paging policies agree on string parameters; on a numeric or
      absent parameter ReadSelectList passes `false` where the others parse
      the number or fall back to `DEFAULT_MAX_CAP`. */
  lemma PagingPolicies(p: PagingParam, defaultCap: int)
    ensures p.Text? ==> StringOnly(p) == BeginOf(p) == Some(CapOf(p, defaultCap))
    ensures p.Number? ==> StringOnly(p) == None && BeginOf(p) == Some(p.value)
    ensures !p.Text? && !p.Number? ==> StringOnly(p) == BeginOf(p) == None && CapOf(p, defaultCap) == defaultCap
  {
  }

  // ---------------------------------------------------------------------
  // ReadLiteList stage 1a and ReadsBy stage 1

  /** ReadLiteList: paging, then a string `Filter` handed to the filter parser. */
  function LiteQueryOf(base: Query, p: Params, defaultCap: int, parse: (string, Query) -> Query): Query {
    var paged := Paged(base, p, defaultCap);
    if p.filter.Str? then parse(p.filter.s, paged) else paged
  }

  // ---------------------------------------------------------------------
  // ReadsBy stage 2: the by-field filters

  /** `addField(field, value)`: an array value is matched with 'IN', any
      other with '='; the join is 'AND' and the tag 'RequestByField'. An
      undefined or null value has no `constructor`, so the check throws. */
  function FilterFor(column: Value, value: Value): (f: Option<Filter>)
    ensures f.Some? <==> !value.Undefined? && !value.Null?
    ensures f.Some? ==> f.value.column == column && f.value.value == value
    ensures f.Some? ==> f.value.operator == (if value.Arr? then "IN" else "=")
    ensures f.Some? ==> f.value.join == "AND" && f.value.tag == "RequestByField"
  {
    if value.Undefined? || value.Null? then None
    else Some(Filter(column, value, if value.Arr? then "IN" else "=", "AND", "RequestByField"))
  }

  /** One element of a `Filters` array: its `ByField` and `ByValue`. Any
      element that is not an object reads `ByValue` as undefined (or throws
      already reading it), so only objects yield a filter. */
  function ItemFilter(item: Value): (f: Option<Filter>)
    ensures f.Some? ==> item.Obj?
    ensures item.Obj? ==> f == FilterFor(Get(item.fields, "ByField"), Get(item.fields, "ByValue"))
  {
    if item.Obj? then FilterFor(Get(item.fields, "ByField"), Get(item.fields, "ByValue")) else None
  }

  /** The filters the `forEach` over a `Filters` array adds, one per element
      in order, up to the first element that throws; and whether one threw. */
  function ItemFilters(items: seq<Value>): (r: (seq<Filter>, bool))
    ensures |r.0| <= |items|
    ensures forall i :: 0 <= i < |r.0| ==> ItemFilter(items[i]) == Some(r.0[i])
    ensures r.1 <==> |r.0| < |items|
    ensures r.1 ==> ItemFilter(items[|r.0|]).None?
    decreases |items|
  {
    if items == [] then ([], false)
    else
      match ItemFilter(items[0])
      case None => ([], true)
      case Some(f) =>
        var rest := ItemFilters(items[1..]);
        ([f] + rest.0, rest.1)
  }

  /** The query after ReadsBy's stage 2 and whether it threw. */
  function ByFieldFiltersOf(q: Query, p: Params): (Query, bool) {
    if p.filters.Arr? then
      var r := ItemFilters(p.filters.items);
      (q.(filters := q.filters + r.0), r.1)
    else
      match FilterFor(p.byField, p.byValue)
      case None => (q, true)
      case Some(f) => (q.(filters := q.filters + [f]), false)
  }

  /** ReadsBy stage 2: a `Filters` array adds one filter per element in
      order; anything else adds the single `ByField`/`ByValue` filter.
      `threw` is the TypeError of an element or value without `constructor`;
      the filters added before it stay on the query. */
  method AddByFieldFilters(q: Query, p: Params) returns (r: Query, threw: bool)
    ensures p.filters.Arr? ==>
              r == q.(filters := q.filters + ItemFilters(p.filters.items).0) &&
              threw == ItemFilters(p.filters.items).1
    ensures !p.filters.Arr? ==>
              var f := FilterFor(p.byField, p.byValue);
              threw == f.None? && r == if f.Some? then q.(filters := q.filters + [f.value]) else q
    ensures (r, threw) == ByFieldFiltersOf(q, p)
  {
    if p.filters.Arr? {
      var items := p.filters.items;
      ghost var added: seq<Filter> := [];
      r, threw := q, false;
      var i := 0;
      while i < |items|
        invariant 0 <= i <= |items|
        invariant |added| == i
        invariant forall j :: 0 <= j < i ==> ItemFilter(items[j]) == Some(added[j])
        invariant r == q.(filters := q.filters + added)
      {
        var f := ItemFilter(items[i]);
        if f.None? {
          threw := true;
          ItemFiltersPrefix(items, added);
          return;
        }
        r := r.(filters := r.filters + [f.value]);
        added := added + [f.value];
        i := i + 1;
      }
      ItemFiltersPrefix(items, added);
    } else {
      var f := FilterFor(p.byField, p.byValue);
      if f.None? {
        return q, true;
      }
      r, threw := q.(filters := q.filters + [f.value]), false;
    }
  }

  /** The filters added so far are exactly those `ItemFilters` reports once
      the walk ends, at the end of the array or at an element that throws. */
  lemma ItemFiltersPrefix(items: seq<Value>, added: seq<Filter>)
    requires |added| <= |items|
    requires forall j :: 0 <= j < |added| ==> ItemFilter(items[j]) == Some(added[j])
    requires |added| < |items| ==> ItemFilter(items[|added|]).None?
    ensures ItemFilters(items).0 == added
    ensures ItemFilters(items).1 <==> |added| < |items|
  {
  }

  // ---------------------------------------------------------------------
  // ReadDistinctList stage 1a

  /** `s.split(sep)`: the pieces between separators, at least one. */
  function Split(s: string, sep: char): (parts: seq<string>)
    ensures |parts| >= 1
    ensures forall i :: 0 <= i < |parts| ==> sep !in parts[i]
    decreases |s|
  {
    if s == [] then [""]
    else
      var rest := Split(s[1..], sep);
      if s[0] == sep then [""] + rest
      else [[s[0]] + rest[0]] + rest[1..]
  }

  /** `parts.join(sep)` */
  function Join(parts: seq<string>, sep: char): string
    decreases |parts|
  {
    if parts == [] then ""
    else if |parts| == 1 then parts[0]
    else parts[0] + [sep] + Join(parts[1..], sep)
  }

  /** Splitting loses nothing: joining the pieces gives the string back. */
  lemma {:induction false} SplitJoin(s: string, sep: char)
    ensures Join(Split(s, sep), sep) == s
    decreases |s|
  {
    if s != [] {
      var rest := Split(s[1..], sep);
      SplitJoin(s[1..], sep);
      if s[0] == sep {
        assert ([""] + rest)[1..] == rest;
        assert Join([""] + rest, sep) == "" + [sep] + Join(rest, sep);
      } else {
        var parts := [[s[0]] + rest[0]] + rest[1..];
        assert parts[1..] == rest[1..];
        if |rest| > 1 {
          assert Join(rest, sep) == rest[0] + [sep] + Join(rest[1..], sep);
        }
      }
    }
  }

  /** The query and the distinct columns after ReadDistinctList's stage 1a. */
  datatype DistinctQuery = DistinctQuery(query: Query, columns: Option<seq<string>>)

  /** `setDistinct(true)`, paging, then a string `Filter` parsed or another
      truthy `Filter` installed, then a string `Columns` split on ','. */
  function DistinctQueryOf(base: Query, p: Params, defaultCap: int, parse: (string, Query) -> Query): DistinctQuery {
    var paged := Paged(base.(distinct := true), p, defaultCap);
    var filtered :=
      if p.filter.Str? then parse(p.filter.s, paged)
      else if Truthy(p.filter) then paged.(filterObject := Some(p.filter))
      else paged;
    if p.columns.Str? then
      var columns := Split(p.columns.s, ',');
      DistinctQuery(filtered.(dataElements := Some(columns)), Some(columns))
    else
      DistinctQuery(filtered, None)
  }

  /** The query is marked distinct and paged before any filter is applied; a
      string `Filter` goes to the parser and only a non-string truthy one is
      installed as is; a string `Columns` becomes a non-empty column list
      that joins back to it, so the "Columns to distinct on must be
      provided." check never fires; without a string `Columns` no columns
      are set. */
  lemma DistinctQueryProperties(base: Query, p: Params, defaultCap: int, parse: (string, Query) -> Query)
    ensures var d := DistinctQueryOf(base, p, defaultCap, parse);
            var paged := Paged(base.(distinct := true), p, defaultCap);
            && (!p.filter.Str? ==> d.query.distinct && d.query.cap == Some(CapOf(p.cap, defaultCap))
                                   && d.query.begin == BeginOf(p.begin))
            && (p.filter.Str? ==>
                  var parsed := parse(p.filter.s, base.(distinct := true, cap := Some(CapOf(p.cap, defaultCap)),
                                                        begin := BeginOf(p.begin)));
                  d.query.(dataElements := parsed.dataElements) == parsed)
            && (!p.filter.Str? && Truthy(p.filter) ==> d.query.(dataElements := None) == paged.(filterObject := Some(p.filter), dataElements := None))
            && (!p.filter.Str? && !Truthy(p.filter) ==>
                  && d.query.(dataElements := None) == paged.(dataElements := None)
                  && d.query.filterObject == base.filterObject && d.query.filters == base.filters)
            && (p.columns.Str? ==> d.columns.Some? && |d.columns.value| >= 1 && Join(d.columns.value, ',') == p.columns.s
                                   && d.query.dataElements == d.columns)
            && (!p.columns.Str? ==> d.columns.None?)
  {
    if p.columns.Str? {
      SplitJoin(p.columns.s, ',');
    }
  }

  // ---------------------------------------------------------------------
  // ReadSelectList stage 1

  /** The local query of ReadSelectList: string-only paging, nothing else. */
  function SelectListQuery(base: Query, p: Params): Query {
    base.(cap := StringOnly(p.cap), begin := StringOnly(p.begin))
  }
}

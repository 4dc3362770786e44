/** The authorizer registry: a table of named authorization predicates,
    pre-filled according to the authorization mode, and the two operations
    that run them against a request, `authorize` (one named predicate, on the
    request's single record or in series over its record set) and
    `authorizeRequest` (the predicates the caller's role names for an
    endpoint hash). */
module Authorizers {
  import opened MeadowValues
  import opened Collaborators
  import opened Requests

  /** What an authorizer predicate sees of the request. `authorized` is the
      truthiness of `MeadowAuthorization`, which is always present when a
      predicate runs. */
  datatype AuthView = AuthView(
    record: Option<Record>,
    records: Option<seq<Record>>,
    authorized: bool,
    endpointHash: Option<string>,
    roleIndex: int)

  /** A predicate's completion value and the `MeadowAuthorization` it leaves. */
  datatype Verdict = Verdict(err: Option<Error>, authorized: bool)

  type AuthorizerFn = AuthView -> Verdict

  /** The four authorizers `SimpleOwnership` mode registers; their code is
      not part of this model. */
  datatype Builtins = Builtins(allow: AuthorizerFn, deny: AuthorizerFn, mine: AuthorizerFn, myCustomer: AuthorizerFn)

  /** The registry's mode and table, as the specification functions see them. */
  datatype AuthConfig = AuthConfig(mode: Value, table: map<string, AuthorizerFn>)

  /** One invocation of a predicate: its name and what it saw. */
  datatype Call = Call(authorizer: string, view: AuthView)

  /** The request after a run, the error reported to the completion, and the
      predicate invocations in the order they happened. */
  datatype AuthRun = AuthRun(state: ReqState, err: Option<Error>, calls: seq<Call>)

  const Disabled := Str("Disabled")
  const SimpleOwnership := Str("SimpleOwnership")
  const DefaultRole := "__DefaultAPISecurity"

  /** `settings.MeadowAuthorizationMode || 'Disabled'` */
  function ModeOf(setting: Value): Value {
    if Truthy(setting) then setting else Disabled
  }

  function InitialTable(mode: Value, b: Builtins): map<string, AuthorizerFn> {
    if mode == SimpleOwnership then
      map["Allow" := b.allow, "Deny" := b.deny, "Mine" := b.mine, "MyCustomer" := b.myCustomer]
    else
      map[]
  }

  function Lookup(table: map<string, AuthorizerFn>, name: string): Option<AuthorizerFn> {
    if name in table then Some(table[name]) else None
  }

  /** `MeadowAuthorization` is set to true only when the property is absent. */
  function WithFlag(s: ReqState): ReqState {
    if s.authorized.None? then s.(authorized := Some(true)) else s
  }

  function ViewOf(s: ReqState): AuthView {
    AuthView(s.record, s.records, s.authorized == Some(true), s.endpointHash, s.roleIndex)
  }

  /** A verdict that ends the record-set series: an error, or a false flag. */
  predicate Stops(v: Verdict) {
    v.err.Some? || !v.authorized
  }

  /** The record-set series: `Record` is set to each record in turn and the
      predicate runs; the series ends at the first error or at the first
      record after which `MeadowAuthorization` is false. */
  function RecordSeriesRun(name: string, f: AuthorizerFn, rs: seq<Record>, s: ReqState): AuthRun
    decreases |rs|
  {
    if rs == [] then AuthRun(s, None, [])
    else
      var current := s.(record := Some(rs[0]));
      var v := f(ViewOf(current));
      var after := current.(authorized := Some(v.authorized));
      var call := Call(name, ViewOf(current));
      if Stops(v) then AuthRun(after, v.err, [call])
      else
        var rest := RecordSeriesRun(name, f, rs[1..], after);
        AuthRun(rest.state, rest.err, [call] + rest.calls)
  }

  /** `authorize(name, request, complete)` */
  function AuthorizeRun(cfg: AuthConfig, name: string, s0: ReqState): AuthRun {
    var s := WithFlag(s0);
    if cfg.mode == Disabled then AuthRun(s, None, [])
    else if s.authorizeOverride then AuthRun(s, None, [])
    else if name !in cfg.table then AuthRun(s, None, [])
    else if s.record.None? && s.records.Some? then
      var r := RecordSeriesRun(name, cfg.table[name], s.records.value, s);
      AuthRun(r.state.(record := None), r.err, r.calls)
    else
      var v := cfg.table[name](ViewOf(s));
      AuthRun(s.(authorized := Some(v.authorized)), v.err, [Call(name, ViewOf(s))])
  }

  /** An array of authorizer names run in series, ending at the first error. */
  function AuthorizeAllRun(cfg: AuthConfig, names: seq<string>, s: ReqState): AuthRun
    decreases |names|
  {
    if names == [] then AuthRun(s, None, [])
    else
      var first := AuthorizeRun(cfg, names[0], s);
      if first.err.Some? then first
      else
        var rest := AuthorizeAllRun(cfg, names[1..], first.state);
        AuthRun(rest.state, rest.err, first.calls + rest.calls)
  }

  /** The role's authorizer table, or the `__DefaultAPISecurity` one when the
      role has none. */
  function RoleAuthorizersFor(roles: map<string, RoleAuthorizers>, role: string): Option<RoleAuthorizers> {
    if role in roles then Some(roles[role])
    else if DefaultRole in roles then Some(roles[DefaultRole])
    else None
  }

  /** `authorizeRequest(hash, request, complete)` for a caller whose role
      name is `role`. */
  function AuthorizeRequestRun(cfg: AuthConfig, roles: map<string, RoleAuthorizers>, role: string,
                               hash: string, s0: ReqState): AuthRun
  {
    var s := WithFlag(s0);
    if cfg.mode == Disabled then AuthRun(s, None, [])
    else
      var s1 := s.(endpointHash := Some(hash));
      match RoleAuthorizersFor(roles, role)
      case None => AuthRun(s1, None, [])
      case Some(entries) =>
        if hash !in entries then AuthRun(s1, None, [])
        else
          match entries[hash]
          case Single(n) => AuthorizeRun(cfg, n, s1)
          case Series(ns) => AuthorizeAllRun(cfg, ns, s1)
  }

  /** What a run leaves behind, without the record of invocations. */
  function Settled(r: AuthRun): (ReqState, Option<Error>) {
    (r.state, r.err)
  }

  class Registry {
    const mode: Value
    var table: map<string, AuthorizerFn>

    function Config(): AuthConfig
      reads this
    {
      AuthConfig(mode, table)
    }

    /** `createNew` with a valid Meadow object whose authorization-mode
        setting is `setting`. */
    constructor (setting: Value, builtins: Builtins)
      ensures mode == ModeOf(setting)
      ensures table == InitialTable(mode, builtins)
    {
      mode := ModeOf(setting);
      table := map[];
      new;
      if mode == SimpleOwnership {
        SetAuthorizer("Allow", builtins.allow);
        SetAuthorizer("Deny", builtins.deny);
        SetAuthorizer("Mine", builtins.mine);
        SetAuthorizer("MyCustomer", builtins.myCustomer);
      }
    }

    method SetAuthorizer(name: string, f: AuthorizerFn)
      modifies this
      ensures table == old(table)[name := f]
    {
      table := table[name := f];
    }

    function GetAuthorizer(name: string): (r: Option<AuthorizerFn>)
      reads this
      ensures r.Some? <==> name in table
      ensures r.Some? ==> r.value == table[name]
    {
      Lookup(table, name)
    }

    method Authorize(name: string, req: Request) returns (err: Option<Error>)
      modifies req
      ensures var r := AuthorizeRun(Config(), name, old(req.State()));
              req.State() == r.state && err == r.err
    {
      if req.authorized.None? {
        req.authorized := Some(true);
      }
      if mode == Disabled {
        return None;
      }
      if req.authorizeOverride {
        return None;
      }
      if name in table {
        if req.record.None? && req.records.Some? {
          err := AuthorizeRecords(name, req);
        } else {
          var v := table[name](ViewOf(req.State()));
          req.authorized := Some(v.authorized);
          err := v.err;
        }
      } else {
        err := None;
      }
    }

    /** The `eachSeries` over `Records` and its completion, which deletes `Record`. */
    method AuthorizeRecords(name: string, req: Request) returns (err: Option<Error>)
      requires name in table && req.records.Some?
      modifies req
      ensures var r := RecordSeriesRun(name, table[name], old(req.records.value), old(req.State()));
              req.State() == r.state.(record := None) && err == r.err
    {
      var f := table[name];
      var rs := req.records.value;
      ghost var s0 := req.State();
      var i := 0;
      while i < |rs|
        invariant 0 <= i <= |rs|
        invariant Settled(RecordSeriesRun(name, f, rs, s0)) == Settled(RecordSeriesRun(name, f, rs[i..], req.State()))
      {
        req.record := Some(rs[i]);
        var v := f(ViewOf(req.State()));
        req.authorized := Some(v.authorized);
        if Stops(v) {
          req.record := None;
          return v.err;
        }
        i := i + 1;
      }
      req.record := None;
      err := None;
    }

    method AuthorizeRequest(hash: string, req: Request, dal: Dal) returns (err: Option<Error>)
      modifies req
      ensures var r := AuthorizeRequestRun(Config(), dal.authorizers, dal.roleName(req.roleIndex), hash, old(req.State()));
              req.State() == r.state && err == r.err
    {
      if req.authorized.None? {
        req.authorized := Some(true);
      }
      if mode == Disabled {
        return None;
      }
      req.endpointHash := Some(hash);
      var entries := RoleAuthorizersFor(dal.authorizers, dal.roleName(req.roleIndex));
      if entries.None? || hash !in entries.value {
        return None;
      }
      match entries.value[hash]
      case Single(n) =>
        err := Authorize(n, req);
      case Series(names) =>
        ghost var s1 := req.State();
        var i := 0;
        while i < |names|
          invariant 0 <= i <= |names|
          invariant Settled(AuthorizeAllRun(Config(), names, s1)) == Settled(AuthorizeAllRun(Config(), names[i..], req.State()))
        {
          var e := Authorize(names[i], req);
          if e.Some? {
            return e;
          }
          i := i + 1;
        }
        err := None;
    }
  }

  // ---------------------------------------------------------------------
  // Properties of the registry and of the two operations

  /** The mode defaults to 'Disabled' when the setting is falsy; only
      'SimpleOwnership' pre-registers the four built-in authorizers. */
  lemma ModeAndInitialTable(setting: Value, b: Builtins)
    ensures !Truthy(setting) ==> ModeOf(setting) == Disabled
    ensures Truthy(setting) ==> ModeOf(setting) == setting
    ensures InitialTable(ModeOf(setting), b).Keys ==
            if setting == SimpleOwnership then {"Allow", "Deny", "Mine", "MyCustomer"} else {}
  {
  }

  /** Registration is last-write-wins and leaves every other name alone. */
  lemma SetThenGet(table: map<string, AuthorizerFn>, name: string, f: AuthorizerFn, other: string)
    ensures Lookup(table[name := f], name) == Some(f)
    ensures other != name ==> Lookup(table[name := f], other) == Lookup(table, other)
  {
  }

  /** The record-set series visits the records in order with `Record` set to
      the current one; every record but the last one visited passed (no error,
      flag left true), so no record runs after one that left the flag false;
      the series stops early only on an error or a false flag; and what it
      reports is what the last invocation left. */
  lemma {:induction false} RecordSeriesOrder(name: string, f: AuthorizerFn, rs: seq<Record>, s: ReqState)
    ensures var r := RecordSeriesRun(name, f, rs, s);
      && |r.calls| <= |rs|
      && (rs != [] <==> r.calls != [])
      && (forall i :: 0 <= i < |r.calls| ==>
            r.calls[i] == Call(name, AuthView(Some(rs[i]), s.records,
                                              if i == 0 then s.authorized == Some(true) else true,
                                              s.endpointHash, s.roleIndex)))
      && (forall i :: 0 <= i < |r.calls| - 1 ==> f(r.calls[i].view) == Verdict(None, true))
      && (0 < |r.calls| < |rs| ==> Stops(f(r.calls[|r.calls| - 1].view)))
      && (r.calls == [] ==> r.state == s && r.err == None)
      && (r.calls != [] ==>
            var last := f(r.calls[|r.calls| - 1].view);
            r.err == last.err &&
            r.state == s.(record := Some(rs[|r.calls| - 1]), authorized := Some(last.authorized)))
    decreases |rs|
  {
    if rs != [] {
      var current := s.(record := Some(rs[0]));
      var v := f(ViewOf(current));
      var after := current.(authorized := Some(v.authorized));
      if !Stops(v) {
        RecordSeriesOrder(name, f, rs[1..], after);
        var rest := RecordSeriesRun(name, f, rs[1..], after);
        var r := RecordSeriesRun(name, f, rs, s);
        assert r.calls == [Call(name, ViewOf(current))] + rest.calls;
        forall i | 0 < i < |r.calls|
          ensures r.calls[i] == Call(name, AuthView(Some(rs[i]), s.records, true, s.endpointHash, s.roleIndex))
        {
          assert r.calls[i] == rest.calls[i - 1];
        }
        forall i | 0 <= i < |r.calls| - 1
          ensures f(r.calls[i].view) == Verdict(None, true)
        {
          if i > 0 {
            assert r.calls[i] == rest.calls[i - 1];
          }
        }
      }
    }
  }

  /** In 'Disabled' mode `authorize` completes with no error and runs nothing. */
  lemma AuthorizeDisabled(cfg: AuthConfig, name: string, s: ReqState)
    requires cfg.mode == Disabled
    ensures AuthorizeRun(cfg, name, s) == AuthRun(WithFlag(s), None, [])
  {
  }

  /** The override bypass and an unregistered name both complete with no
      error without running anything. */
  lemma AuthorizeBypassed(cfg: AuthConfig, name: string, s: ReqState)
    requires cfg.mode != Disabled
    requires s.authorizeOverride || name !in cfg.table
    ensures AuthorizeRun(cfg, name, s) == AuthRun(WithFlag(s), None, [])
  {
  }

  /** With a `Record` present (or no `Records`), the predicate runs exactly
      once, on the whole request, and its completion value is reported as is. */
  lemma AuthorizeSingleRecord(cfg: AuthConfig, name: string, s: ReqState)
    requires cfg.mode != Disabled && !s.authorizeOverride && name in cfg.table
    requires s.record.Some? || s.records.None?
    ensures var r := AuthorizeRun(cfg, name, s);
            var v := cfg.table[name](ViewOf(WithFlag(s)));
            r.calls == [Call(name, ViewOf(WithFlag(s)))] && r.err == v.err &&
            r.state == WithFlag(s).(authorized := Some(v.authorized))
  {
  }

  /** The record-set path is taken only when `Record` is absent and `Records`
      present; it runs the predicate on the records in order, every call but
      the last passing, stops early only on an error or a false flag, reports
      the last call's error and flag, and deletes `Record` afterwards,
      whatever the outcome. */
  lemma AuthorizeRecordSet(cfg: AuthConfig, name: string, s: ReqState)
    requires cfg.mode != Disabled && !s.authorizeOverride && name in cfg.table
    requires s.record.None? && s.records.Some?
    ensures var r := AuthorizeRun(cfg, name, s);
            var rs := s.records.value;
            && r.state.record == None
            && |r.calls| <= |rs|
            && (forall i :: 0 <= i < |r.calls| ==> r.calls[i].authorizer == name && r.calls[i].view.record == Some(rs[i]))
            && (forall i :: 0 < i < |r.calls| ==> r.calls[i].view.authorized)
            && (forall i :: 0 <= i < |r.calls| - 1 ==> cfg.table[name](r.calls[i].view) == Verdict(None, true))
            && (r.calls == [] ==> r.err == None && r.state == WithFlag(s))
            && (r.calls != [] ==>
                  var last := cfg.table[name](r.calls[|r.calls| - 1].view);
                  && r.err == last.err
                  && r.state.authorized == Some(last.authorized)
                  && (|r.calls| < |rs| ==> Stops(last)))
  {
    RecordSeriesOrder(name, cfg.table[name], s.records.value, WithFlag(s));
  }

  /** `authorize` changes nothing but `MeadowAuthorization`: `Record` ends as
      it started (the record-set path sets and then deletes it), and an
      existing flag is kept whenever no predicate runs. */
  lemma AuthorizeFrame(cfg: AuthConfig, name: string, s: ReqState)
    ensures var r := AuthorizeRun(cfg, name, s);
            && r.state == WithFlag(s).(authorized := r.state.authorized)
            && (r.calls == [] ==> r.state == WithFlag(s))
            && (s.authorized.Some? && r.calls == [] ==> r.state.authorized == s.authorized)
  {
    var w := WithFlag(s);
    if cfg.mode != Disabled && !w.authorizeOverride && name in cfg.table && w.record.None? && w.records.Some? {
      RecordSeriesOrder(name, cfg.table[name], w.records.value, w);
    }
  }

  /** An authorizer that never turns a false flag true. */
  ghost predicate NeverGrants(f: AuthorizerFn) {
    forall v: AuthView :: f(v).authorized ==> v.authorized
  }

  ghost predicate AllNeverGrant(cfg: AuthConfig) {
    forall n :: n in cfg.table ==> NeverGrants(cfg.table[n])
  }

  /** When every registered predicate follows the documented convention of
      only ever lowering the flag, `authorize` keeps a false flag false. */
  lemma AuthorizeKeepsDenial(cfg: AuthConfig, name: string, s: ReqState)
    requires AllNeverGrant(cfg)
    requires s.authorized == Some(false)
    ensures AuthorizeRun(cfg, name, s).state.authorized == Some(false)
  {
    if cfg.mode != Disabled && !s.authorizeOverride && name in cfg.table {
      assert NeverGrants(cfg.table[name]);
    }
  }

  /** Running an array of names in series: the names after the first one
      whose `authorize` reports an error never run. */
  lemma {:induction false} AuthorizeAllSplit(cfg: AuthConfig, a: seq<string>, b: seq<string>, s: ReqState)
    ensures var ra := AuthorizeAllRun(cfg, a, s);
            AuthorizeAllRun(cfg, a + b, s) ==
              if ra.err.Some? then ra
              else var rb := AuthorizeAllRun(cfg, b, ra.state); AuthRun(rb.state, rb.err, ra.calls + rb.calls)
    decreases |a|
  {
    if a == [] {
      assert a + b == b;
    } else {
      assert (a + b)[0] == a[0] && (a + b)[1..] == a[1..] + b;
      var first := AuthorizeRun(cfg, a[0], s);
      if first.err.None? {
        AuthorizeAllSplit(cfg, a[1..], b, first.state);
        var r1 := AuthorizeAllRun(cfg, a[1..], first.state);
        if r1.err.None? {
          var rb := AuthorizeAllRun(cfg, b, r1.state);
          assert first.calls + (r1.calls + rb.calls) == (first.calls + r1.calls) + rb.calls;
        }
      }
    }
  }

  /** Once the `authorize` of name `k` reports an error, the series is over. */
  lemma LaterNamesSkipped(cfg: AuthConfig, names: seq<string>, k: nat, s: ReqState)
    requires k < |names|
    requires AuthorizeAllRun(cfg, names[..k + 1], s).err.Some?
    ensures AuthorizeAllRun(cfg, names, s) == AuthorizeAllRun(cfg, names[..k + 1], s)
  {
    AuthorizeAllSplit(cfg, names[..k + 1], names[k + 1..], s);
    assert names[..k + 1] + names[k + 1..] == names;
  }

  /** Running a series of names changes nothing but the flag, and keeps a
      false flag false when every predicate only lowers it. */
  lemma {:induction false} AuthorizeAllFrame(cfg: AuthConfig, names: seq<string>, s: ReqState)
    ensures var r := AuthorizeAllRun(cfg, names, s);
            && r.state == WithFlag(s).(authorized := r.state.authorized)
            && (AllNeverGrant(cfg) && s.authorized == Some(false) ==> r.state.authorized == Some(false))
    decreases |names|
  {
    if names != [] {
      var first := AuthorizeRun(cfg, names[0], s);
      AuthorizeFrame(cfg, names[0], s);
      if AllNeverGrant(cfg) && s.authorized == Some(false) {
        AuthorizeKeepsDenial(cfg, names[0], s);
      }
      if first.err.None? {
        AuthorizeAllFrame(cfg, names[1..], first.state);
      }
    }
  }

  /** `authorizeRequest` in 'Disabled' mode completes with no error, runs no
      predicate and does not set `EndpointHash`. */
  lemma AuthorizeRequestDisabled(cfg: AuthConfig, roles: map<string, RoleAuthorizers>, role: string, hash: string, s: ReqState)
    requires cfg.mode == Disabled
    ensures AuthorizeRequestRun(cfg, roles, role, hash, s) == AuthRun(WithFlag(s), None, [])
  {
  }

  /** Otherwise it sets `EndpointHash` to the hash and resolves the entry:
      a string runs `authorize` once, an array runs the names in series, and
      no entry for the hash succeeds without running anything. */
  lemma AuthorizeRequestEntry(cfg: AuthConfig, roles: map<string, RoleAuthorizers>, role: string, hash: string, s: ReqState)
    requires cfg.mode != Disabled
    ensures var r := AuthorizeRequestRun(cfg, roles, role, hash, s);
            var s1 := WithFlag(s).(endpointHash := Some(hash));
            var entries := RoleAuthorizersFor(roles, role);
            && r.state.endpointHash == Some(hash)
            && (entries.None? || hash !in entries.value ==> r == AuthRun(s1, None, []))
            && (entries.Some? && hash in entries.value && entries.value[hash].Single? ==>
                  r == AuthorizeRun(cfg, entries.value[hash].name, s1))
            && (entries.Some? && hash in entries.value && entries.value[hash].Series? ==>
                  r == AuthorizeAllRun(cfg, entries.value[hash].names, s1))
  {
    var s1 := WithFlag(s).(endpointHash := Some(hash));
    var entries := RoleAuthorizersFor(roles, role);
    if entries.Some? && hash in entries.value {
      match entries.value[hash]
      case Single(n) => AuthorizeFrame(cfg, n, s1);
      case Series(ns) => AuthorizeAllFrame(cfg, ns, s1);
    }
  }

  /** The role's own table wins: the default entry is consulted only when the
      role has none, and then the caller is treated as the default role. */
  lemma RoleFallback(cfg: AuthConfig, roles: map<string, RoleAuthorizers>, role: string, hash: string,
                     s: ReqState, other: RoleAuthorizers)
    ensures role in roles && role != DefaultRole ==>
              AuthorizeRequestRun(cfg, roles, role, hash, s) ==
              AuthorizeRequestRun(cfg, roles[DefaultRole := other], role, hash, s)
    ensures role !in roles ==>
              AuthorizeRequestRun(cfg, roles, role, hash, s) ==
              AuthorizeRequestRun(cfg, roles, DefaultRole, hash, s)
  {
  }

  /** `authorizeRequest` changes only `MeadowAuthorization` and
      `EndpointHash`, and, when the predicates only lower the flag, a false
      flag stays false: the aggregate flag is the conjunction of the results. */
  lemma AuthorizeRequestFrame(cfg: AuthConfig, roles: map<string, RoleAuthorizers>, role: string, hash: string, s: ReqState)
    ensures var r := AuthorizeRequestRun(cfg, roles, role, hash, s);
            && r.state == WithFlag(s).(authorized := r.state.authorized, endpointHash := r.state.endpointHash)
            && (AllNeverGrant(cfg) && s.authorized == Some(false) ==> r.state.authorized == Some(false))
  {
    if cfg.mode != Disabled {
      var s1 := WithFlag(s).(endpointHash := Some(hash));
      var entries := RoleAuthorizersFor(roles, role);
      if entries.Some? && hash in entries.value {
        match entries.value[hash]
        case Single(n) =>
          AuthorizeFrame(cfg, n, s1);
          if AllNeverGrant(cfg) && s.authorized == Some(false) {
            AuthorizeKeepsDenial(cfg, n, s1);
          }
        case Series(ns) => AuthorizeAllFrame(cfg, ns, s1);
      }
    }
  }
}

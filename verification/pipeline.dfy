/** The stages the read endpoints chain with `async.waterfall`, what each
    does to the request, and the waterfall itself: stages run in order, each
    either calls its completion without an error (the next stage runs), with
    an error (the remaining stages are skipped and the final handler gets the
    error), or never calls it (the response was already sent, the stage does
    nothing, or it threw). */
module Pipeline {
  import opened MeadowValues
  import opened Collaborators
  import opened Requests
  import opened Authorizers
  import opened QueryBuilding
  import opened LiteMarshal

  datatype Stage =
    | LiteQuery                         // ReadLiteList 1a
    | PagedQuery                        // ReadsBy 1
    | ByFieldFilters                    // ReadsBy 2
    | DistinctQueryStage                // ReadDistinctList 1a
    | Hook(name: string)                // a `runBehavior` stage
    | DoReads                           // `DAL.doReads(pRequest.Query, …)`
    | AttachRecords                     // ReadLiteList 2, ReadDistinctList 2
    | AttachOrSendEmpty                 // ReadsBy 5
    | AuthorizeRequestStage(hash: string)
    | CheckAuthorization                // the `MeadowAuthorization` check
    | MarshalLite                       // ReadLiteList 3
    | MarshalDistinct                   // ReadDistinctList 3
    | SelectListRead                    // ReadSelectList 1
    | SelectListCheck                   // ReadSelectList 2
    | SelectListMarshal                 // ReadSelectList 3, as written
    | SelectListForward                 // ReadSelectList 3, forwarding its records

  /** The values a stage hands to the next one and the endpoint's local
      variables: the records `doReads` delivered (`None` when falsy), the
      marshalled list, and ReadDistinctList's `tmpDistinctColumns`. */
  datatype Locals = Locals(rows: Option<seq<Record>>, output: seq<Record>, columns: Option<seq<string>>)

  const NoLocals := Locals(None, [], None)

  /** Why a stage never called its completion. */
  datatype Halt =
    | SentEmpty        // it sent `[]` itself
    | NeverCompletes   // its body does nothing
    | Threw            // a TypeError escaped it

  /** How a stage or a whole waterfall ended. */
  datatype End = Completed | Aborted(err: Error) | Halted(halt: Halt)

  datatype Env = Env(dal: Dal, services: Services, auth: AuthConfig)

  const QueryConfiguration := "Reads-QueryConfiguration"
  const PreAuth := "Reads-PreAuth"
  const PostOperation := "Reads-PostOperation"

  /** Every endpoint first sets `EndpointAuthorizationRequirement` to the
      reads level ... */
  function Required(s0: ReqState): ReqState {
    s0.(requirement := Some(s0.readsLevel))
  }

  /** ... and goes on only when `authorizeEndpoint` does not return false. */
  predicate Admits(s0: ReqState, env: Env) {
    env.services.authorizeEndpoint(s0.readsLevel, s0.roleIndex)
  }

  datatype StepResult = StepResult(state: ReqState, locals: Locals, end: End)

  /** Runs one behavior hook on the request. */
  function HookStep(name: string, s: ReqState, l: Locals, env: Env): StepResult {
    var h := env.services.runBehavior(name, HookView(s.query, s.records, s.authorized));
    var after := s.(query := h.after.query, records := h.after.records, authorized := h.after.authorized);
    StepResult(after, l, if h.err.Some? then Aborted(h.err.value) else Completed)
  }

  /** The outcome of a `doReads` completion: an error aborts, otherwise the
      records go to the next stage. */
  function ReadStep(read: ReadResult, s: ReqState, l: Locals): StepResult {
    match read
    case ReadFailed(e) => StepResult(s, l, Aborted(e))
    case ReadDone(rows) => StepResult(s, l.(rows := rows), Completed)
  }

  /** One stage. */
  function Step(stage: Stage, s: ReqState, l: Locals, env: Env): StepResult {
    match stage
    case LiteQuery =>
      StepResult(s.(query := Some(LiteQueryOf(env.dal.query, s.params, s.defaultMaxCap, env.services.parseLiteFilter))), l, Completed)
    case PagedQuery =>
      StepResult(s.(query := Some(Paged(env.dal.query, s.params, s.defaultMaxCap))), l, Completed)
    case ByFieldFilters =>
      if s.query.None? then StepResult(s, l, Halted(Threw))
      else
        var (q, threw) := ByFieldFiltersOf(s.query.value, s.params);
        StepResult(s.(query := Some(q)), l, if threw then Halted(Threw) else Completed)
    case DistinctQueryStage =>
      var d := DistinctQueryOf(env.dal.query, s.params, s.defaultMaxCap, env.services.parseDistinctFilter);
      StepResult(s.(query := Some(d.query)), l.(columns := d.columns), Completed)
    case Hook(name) => HookStep(name, s, l, env)
    case DoReads => ReadStep(env.dal.doReads(s.query), s, l)
    case AttachRecords =>
      // `pRecords.length` on a falsy record set throws
      if l.rows.None? then StepResult(s, l, Halted(Threw))
      else StepResult(s.(records := l.rows), l, Completed)
    case AttachOrSendEmpty =>
      if l.rows.None? then StepResult(s, l, Halted(SentEmpty))
      else StepResult(s.(records := l.rows), l, Completed)
    case AuthorizeRequestStage(hash) =>
      var r := AuthorizeRequestRun(env.auth, env.dal.authorizers, env.dal.roleName(s.roleIndex), hash, s);
      StepResult(r.state, l, if r.err.Some? then Aborted(r.err.value) else Completed)
    case CheckAuthorization =>
      StepResult(s, l, if s.authorized == Some(true) then Completed else Aborted(UnauthorizedError))
    case MarshalLite =>
      if s.records.None? then StepResult(s, l, Halted(Threw))
      else StepResult(s, l.(output := LiteListOf(s.records.value, env.dal, env.services.processTemplate)), Completed)
    case MarshalDistinct =>
      StepResult(s, l.(output := env.services.marshalDistinct(s.records, l.columns)), Completed)
    case SelectListRead =>
      ReadStep(env.dal.doReads(Some(SelectListQuery(env.dal.query, s.params))), s, l)
    case SelectListCheck =>
      if l.rows.None? then StepResult(s, l, Halted(Threw))
      else if |l.rows.value| == 0 then StepResult(s, l, Halted(SentEmpty))
      else StepResult(s, l, Completed)
    case SelectListMarshal => StepResult(s, l, Halted(NeverCompletes))
    case SelectListForward => StepResult(s, l, Completed)
  }

  /** A waterfall's result: the request and locals it leaves, how it ended,
      and how many stages ran (the last of them is the one that ended it). */
  datatype Outcome = Outcome(state: ReqState, locals: Locals, end: End, ran: nat)

  function Waterfall(stages: seq<Stage>, s: ReqState, l: Locals, env: Env): (r: Outcome)
    ensures r.ran <= |stages|
    ensures r.end.Completed? ==> r.ran == |stages|
    ensures !r.end.Completed? ==> r.ran >= 1
    decreases |stages|
  {
    if stages == [] then Outcome(s, l, Completed, 0)
    else
      var st := Step(stages[0], s, l, env);
      if !st.end.Completed? then Outcome(st.state, st.locals, st.end, 1)
      else
        var rest := Waterfall(stages[1..], st.state, st.locals, env);
        rest.(ran := rest.ran + 1)
  }

  /** A waterfall runs its first stage, then the others only if that one
      completed without an error. */
  lemma WaterfallCons(stage: Stage, rest: seq<Stage>, s: ReqState, l: Locals, env: Env)
    ensures var st := Step(stage, s, l, env);
            Waterfall([stage] + rest, s, l, env) ==
              if !st.end.Completed? then Outcome(st.state, st.locals, st.end, 1)
              else var w := Waterfall(rest, st.state, st.locals, env); w.(ran := w.ran + 1)
  {
    assert ([stage] + rest)[1..] == rest;
  }

  /** A waterfall over `a + b` is the waterfall over `a` followed, only if
      every stage of `a` completed without an error, by the one over `b`. */
  lemma {:induction false} WaterfallSplit(a: seq<Stage>, b: seq<Stage>, s: ReqState, l: Locals, env: Env)
    ensures var ra := Waterfall(a, s, l, env);
            Waterfall(a + b, s, l, env) ==
              if !ra.end.Completed? then ra
              else var rb := Waterfall(b, ra.state, ra.locals, env); rb.(ran := rb.ran + |a|)
    decreases |a|
  {
    if a == [] {
      assert a + b == b;
    } else {
      assert (a + b)[0] == a[0] && (a + b)[1..] == a[1..] + b;
      var st := Step(a[0], s, l, env);
      if st.end.Completed? {
        WaterfallSplit(a[1..], b, st.state, st.locals, env);
      }
    }
  }

  /** A stage that aborts or halts ends the waterfall: the stages after it
      never run, and the result is the one of the prefix up to it. */
  lemma StopSkipsRest(stages: seq<Stage>, k: nat, s: ReqState, l: Locals, env: Env)
    requires k <= |stages|
    requires !Waterfall(stages[..k], s, l, env).end.Completed?
    ensures Waterfall(stages, s, l, env) == Waterfall(stages[..k], s, l, env)
  {
    WaterfallSplit(stages[..k], stages[k..], s, l, env);
    assert stages[..k] + stages[k..] == stages;
  }

  /** The stage that ended a waterfall early is stage `ran - 1`: every stage
      before it completed, and it did not. */
  lemma {:induction false} LastStageRan(stages: seq<Stage>, s: ReqState, l: Locals, env: Env)
    ensures var r := Waterfall(stages, s, l, env);
            !r.end.Completed? ==>
              var before := Waterfall(stages[..r.ran - 1], s, l, env);
              var last := Step(stages[r.ran - 1], before.state, before.locals, env);
              && before.end.Completed?
              && last == StepResult(r.state, r.locals, r.end)
    decreases |stages|
  {
    var r := Waterfall(stages, s, l, env);
    if stages != [] && !r.end.Completed? {
      var st := Step(stages[0], s, l, env);
      if st.end.Completed? {
        LastStageRan(stages[1..], st.state, st.locals, env);
        var rest := Waterfall(stages[1..], st.state, st.locals, env);
        assert stages[..r.ran - 1] == [stages[0]] + stages[1..][..rest.ran - 1];
        WaterfallSplit([stages[0]], stages[1..][..rest.ran - 1], s, l, env);
        assert Waterfall([stages[0]], s, l, env) == Outcome(st.state, st.locals, Completed, 1) by {
          assert [stages[0]][1..] == [];
        }
      } else {
        assert stages[..0] == [];
      }
    }
  }

  /** No stage changes the parameters, the session's role, the limits, the
      endpoint requirement or `Record` (the record-set authorizer sets it and
      deletes it again). */
  lemma StepKeepsFixed(stage: Stage, s: ReqState, l: Locals, env: Env)
    ensures var r := Step(stage, s, l, env).state;
            && r.params == s.params && r.roleIndex == s.roleIndex && r.authorizeOverride == s.authorizeOverride
            && r.defaultMaxCap == s.defaultMaxCap && r.readsLevel == s.readsLevel && r.requirement == s.requirement
            && r.record == s.record
  {
    if stage.AuthorizeRequestStage? {
      AuthorizeRequestFrame(env.auth, env.dal.authorizers, env.dal.roleName(s.roleIndex), stage.hash, s);
    }
  }

  lemma {:induction false} WaterfallKeepsFixed(stages: seq<Stage>, s: ReqState, l: Locals, env: Env)
    ensures var r := Waterfall(stages, s, l, env).state;
            && r.params == s.params && r.roleIndex == s.roleIndex && r.authorizeOverride == s.authorizeOverride
            && r.defaultMaxCap == s.defaultMaxCap && r.readsLevel == s.readsLevel && r.requirement == s.requirement
            && r.record == s.record
    decreases |stages|
  {
    if stages != [] {
      StepKeepsFixed(stages[0], s, l, env);
      var st := Step(stages[0], s, l, env);
      if st.end.Completed? {
        WaterfallKeepsFixed(stages[1..], st.state, st.locals, env);
      }
    }
  }

  /** Only ReadDistinctList's first stage sets the distinct columns; every
      later stage hands them on unchanged. */
  lemma {:induction false} ColumnsKept(stages: seq<Stage>, s: ReqState, l: Locals, env: Env)
    requires forall i :: 0 <= i < |stages| ==> !stages[i].DistinctQueryStage?
    ensures Waterfall(stages, s, l, env).locals.columns == l.columns
    decreases |stages|
  {
    if stages != [] {
      var st := Step(stages[0], s, l, env);
      if st.end.Completed? {
        ColumnsKept(stages[1..], st.state, st.locals, env);
      }
    }
  }

  /** The replies an endpoint can produce. */
  datatype Reply =
    | Refused                                   // `authorizeEndpoint` returned false and answered itself
    | Sent(body: seq<Record>, thenNext: bool)   // `pResponse.send(body)`, then `fNext()` when `thenNext`
    | Streamed(stream: Option<seq<Record>>)     // `streamRecordsToResponse(pResponse, body, fNext)`
    | CodedError(message: string, err: Error)   // `sendCodedError(message, err, …)`
    | PlainError(message: string)               // `sendError(message, …)`
    | NoReply                                   // nothing is ever sent
    | Uncaught                                  // a TypeError escapes the endpoint

  /** The reply when a stage never called its completion. */
  function HaltReply(h: Halt): Reply {
    match h
    case SentEmpty => Sent([], false)
    case NeverCompletes => NoReply
    case Threw => Uncaught
  }

  /** An endpoint's reply, the request it leaves, and how many stages ran. */
  datatype Response = Response(reply: Reply, state: ReqState, ran: nat)

  method ExecStage(stage: Stage, req: Request, reg: Registry, dal: Dal, services: Services, l: Locals)
    returns (l': Locals, end: End)
    modifies req
    ensures var r := Step(stage, old(req.State()), l, Env(dal, services, reg.Config()));
            req.State() == r.state && l' == r.locals && end == r.end
  {
    l', end := l, Completed;
    match stage
    case LiteQuery =>
      req.query := Some(LiteQueryOf(dal.query, req.params, req.defaultMaxCap, services.parseLiteFilter));
    case PagedQuery =>
      req.query := Some(Paged(dal.query, req.params, req.defaultMaxCap));
    case ByFieldFilters =>
      if req.query.None? {
        end := Halted(Threw);
      } else {
        var q, threw := AddByFieldFilters(req.query.value, req.params);
        req.query := Some(q);
        if threw {
          end := Halted(Threw);
        }
      }
    case DistinctQueryStage =>
      var d := DistinctQueryOf(dal.query, req.params, req.defaultMaxCap, services.parseDistinctFilter);
      req.query := Some(d.query);
      l' := l.(columns := d.columns);
    case Hook(name) =>
      var h := services.runBehavior(name, HookView(req.query, req.records, req.authorized));
      req.query, req.records, req.authorized := h.after.query, h.after.records, h.after.authorized;
      if h.err.Some? {
        end := Aborted(h.err.value);
      }
    case DoReads =>
      match dal.doReads(req.query) {
        case ReadFailed(e) => end := Aborted(e);
        case ReadDone(rows) => l' := l.(rows := rows);
      }
    case AttachRecords =>
      if l.rows.None? {
        end := Halted(Threw);
      } else {
        req.records := l.rows;
      }
    case AttachOrSendEmpty =>
      if l.rows.None? {
        end := Halted(SentEmpty);
      } else {
        req.records := l.rows;
      }
    case AuthorizeRequestStage(hash) =>
      var e := reg.AuthorizeRequest(hash, req, dal);
      if e.Some? {
        end := Aborted(e.value);
      }
    case CheckAuthorization =>
      if req.authorized != Some(true) {
        end := Aborted(UnauthorizedError);
      }
    case MarshalLite =>
      if req.records.None? {
        end := Halted(Threw);
      } else {
        var lite := LiteList(req.records.value, dal, services.processTemplate);
        l' := l.(output := lite);
      }
    case MarshalDistinct =>
      l' := l.(output := services.marshalDistinct(req.records, l.columns));
    case SelectListRead =>
      var query := SelectListQuery(dal.query, req.params);
      match dal.doReads(Some(query)) {
        case ReadFailed(e) => end := Aborted(e);
        case ReadDone(rows) => l' := l.(rows := rows);
      }
    case SelectListCheck =>
      if l.rows.None? {
        end := Halted(Threw);
      } else if |l.rows.value| == 0 {
        end := Halted(SentEmpty);
      }
    case SelectListMarshal =>
      end := Halted(NeverCompletes);
    case SelectListForward =>
  }

  /** `async.waterfall(stages, …)` up to the call of the final handler. */
  method Run(stages: seq<Stage>, req: Request, reg: Registry, dal: Dal, services: Services, l0: Locals)
    returns (end: End, l: Locals, ran: nat)
    modifies req
    ensures var w := Waterfall(stages, old(req.State()), l0, Env(dal, services, reg.Config()));
            req.State() == w.state && l == w.locals && end == w.end && ran == w.ran
  {
    ghost var s0 := req.State();
    ghost var env := Env(dal, services, reg.Config());
    end, l, ran := Completed, l0, 0;
    while ran < |stages|
      invariant 0 <= ran <= |stages|
      invariant var t := Waterfall(stages[ran..], req.State(), l, env);
                Waterfall(stages, s0, l0, env) == t.(ran := t.ran + ran)
    {
      var e;
      l, e := ExecStage(stages[ran], req, reg, dal, services, l);
      ran := ran + 1;
      if !e.Completed? {
        end := e;
        return;
      }
    }
  }
}

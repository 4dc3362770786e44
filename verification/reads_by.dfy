/** The read-by-field endpoint: the records whose field (or fields) match
    the requested values, streamed as read. */
module ReadsBy {
  import opened MeadowValues
  import opened Collaborators
  import opened Requests
  import opened Authorizers
  import opened QueryBuilding
  import opened Pipeline

  const Stages: seq<Stage> := [
    PagedQuery,                         // 1. query and paging
    ByFieldFilters,                     // 2. the by-field filters
    Hook(QueryConfiguration),           // 3.
    Hook(PreAuth),                      // 3b.
    DoReads,                            // 4.
    AttachOrSendEmpty,                  // 5.
    AuthorizeRequestStage("ReadsBy"),   // 5.5
    Hook(PostOperation),                // 6.
    CheckAuthorization                  // 6.5
  ]

  const ErrorMessage := "Error retreiving records by value."

  /** The endpoint, from the request it receives to its reply. `Records` is
      left on the request. */
  function Spec(s0: ReqState, env: Env): Response {
    if !Admits(s0, env) then Response(Refused, Required(s0), 0)
    else
      var w := Waterfall(Stages, Required(s0), NoLocals, env);
      match w.end
      case Completed => Response(Streamed(w.state.records), w.state, w.ran)
      case Aborted(e) => Response(CodedError(ErrorMessage, e), w.state, w.ran)
      case Halted(h) => Response(HaltReply(h), w.state, w.ran)
  }

  method ReadsBy(req: Request, reg: Registry, dal: Dal, services: Services) returns (reply: Reply)
    modifies req
    ensures var r := Spec(old(req.State()), Env(dal, services, reg.Config()));
            req.State() == r.state && reply == r.reply
  {
    req.requirement := Some(req.readsLevel);
    if !services.authorizeEndpoint(req.readsLevel, req.roleIndex) {
      return Refused;
    }
    var end, l, ran := Run(Stages, req, reg, dal, services, NoLocals);
    match end {
      case Completed => reply := Streamed(req.records);
      case Aborted(e) => reply := CodedError(ErrorMessage, e);
      case Halted(h) => reply := HaltReply(h);
    }
  }

  /** When `authorizeEndpoint` refuses, no stage runs. */
  lemma Refusal(s0: ReqState, env: Env)
    requires !Admits(s0, env)
    ensures Spec(s0, env) == Response(Refused, Required(s0), 0)
  {
  }

  /** The query the hooks first see: paged as in the other read endpoints,
      with the by-field filters appended; a filter value that is undefined or
      null throws in stage 2 and nothing is sent. */
  lemma ByFieldQuery(s0: ReqState, env: Env)
    requires Admits(s0, env)
    ensures var q := Paged(env.dal.query, s0.params, s0.defaultMaxCap);
            var (filtered, threw) := ByFieldFiltersOf(q, s0.params);
            var p := Waterfall(Stages[..2], Required(s0), NoLocals, env);
            && p.state.query == Some(filtered)
            && (threw ==> Spec(s0, env).reply == Uncaught && Spec(s0, env).ran == 2)
            && (!threw ==> p.end.Completed?)
  {
    var q := Paged(env.dal.query, s0.params, s0.defaultMaxCap);
    var s1 := Required(s0).(query := Some(q));
    assert Step(PagedQuery, Required(s0), NoLocals, env) == StepResult(s1, NoLocals, Completed);
    WaterfallCons(ByFieldFilters, [], s1, NoLocals, env);
    WaterfallCons(PagedQuery, [ByFieldFilters], Required(s0), NoLocals, env);
    assert Stages[..2] == [PagedQuery] + [ByFieldFilters];
    if ByFieldFiltersOf(q, s0.params).1 {
      StopSkipsRest(Stages, 2, Required(s0), NoLocals, env);
    }
  }

  /** A falsy read result sends `[]` from stage 5 itself: neither the
      authorizers nor the final handler run, and `fNext` is not called. */
  lemma FalsyReadSendsEmpty(s0: ReqState, env: Env)
    requires Admits(s0, env)
    requires var p := Waterfall(Stages[..5], Required(s0), NoLocals, env);
             p.end.Completed? && p.locals.rows.None?
    ensures var p := Waterfall(Stages[..5], Required(s0), NoLocals, env);
            Spec(s0, env) == Response(Sent([], false), p.state, 6)
  {
    var p := Waterfall(Stages[..5], Required(s0), NoLocals, env);
    WaterfallSplit(Stages[..5], Stages[5..], Required(s0), NoLocals, env);
    assert Stages[..5] + Stages[5..] == Stages;
    assert Stages[5..] == [AttachOrSendEmpty] + Stages[6..];
    WaterfallCons(AttachOrSendEmpty, Stages[6..], p.state, p.locals, env);
  }

  /** The post-operation hook runs after the authorizers and before the
      check, so the flag it leaves decides: true streams `Records` as they
      then are, anything else is the 405 error. */
  lemma PostOperationDecides(s0: ReqState, env: Env)
    requires Admits(s0, env)
    requires Waterfall(Stages[..8], Required(s0), NoLocals, env).end.Completed?
    ensures var p := Waterfall(Stages[..8], Required(s0), NoLocals, env);
            Spec(s0, env) ==
              if p.state.authorized == Some(true) then Response(Streamed(p.state.records), p.state, 9)
              else Response(CodedError(ErrorMessage, UnauthorizedError), p.state, 9)
  {
    var p := Waterfall(Stages[..8], Required(s0), NoLocals, env);
    WaterfallSplit(Stages[..8], Stages[8..], Required(s0), NoLocals, env);
    assert Stages[..8] + Stages[8..] == Stages;
    assert Stages[8..] == [CheckAuthorization] + [];
    WaterfallCons(CheckAuthorization, [], p.state, p.locals, env);
  }

  /** Every error a stage reports, from a hook, the DAL, the authorizers or
      the check, reaches `sendCodedError` with the same message. */
  lemma ErrorsReported(s0: ReqState, env: Env)
    requires Admits(s0, env)
    ensures var w := Waterfall(Stages, Required(s0), NoLocals, env);
            w.end.Aborted? ==> Spec(s0, env).reply == CodedError(ErrorMessage, w.end.err)
  {
  }
}

/** The lite-list read endpoint: records for drop-downs, each reduced to a
    rendered `Value` and its identifying fields. */
module ReadLiteList {
  import opened MeadowValues
  import opened Collaborators
  import opened Requests
  import opened Authorizers
  import opened LiteMarshal
  import opened Pipeline

  const Stages: seq<Stage> := [
    LiteQuery,                          // 1a. query, paging and filter
    Hook(QueryConfiguration),           // 1b.
    DoReads,                            // 1c.
    AttachRecords,                      // 2.
    AuthorizeRequestStage("ReadLite"),  // 2.5
    CheckAuthorization,                 // 2.6
    MarshalLite                         // 3.
  ]

  const ErrorMessage := "Error retreiving a recordset."

  /** The endpoint, from the request it receives to its reply. The final
      handler deletes `Records` before it looks at the error. */
  function Spec(s0: ReqState, env: Env): Response {
    if !Admits(s0, env) then Response(Refused, Required(s0), 0)
    else
      var w := Waterfall(Stages, Required(s0), NoLocals, env);
      match w.end
      case Completed => Response(Sent(w.locals.output, true), w.state.(records := None), w.ran)
      case Aborted(e) => Response(CodedError(ErrorMessage, e), w.state.(records := None), w.ran)
      case Halted(h) => Response(HaltReply(h), w.state, w.ran)
  }

  method ReadLite(req: Request, reg: Registry, dal: Dal, services: Services) returns (reply: Reply)
    modifies req
    ensures var r := Spec(old(req.State()), Env(dal, services, reg.Config()));
            req.State() == r.state && reply == r.reply
  {
    req.requirement := Some(req.readsLevel);
    if !services.authorizeEndpoint(req.readsLevel, req.roleIndex) {
      return Refused;
    }
    var end, l, ran := Run(Stages, req, reg, dal, services, NoLocals);
    match end {
      case Completed =>
        req.records := None;
        reply := Sent(l.output, true);
      case Aborted(e) =>
        req.records := None;
        reply := CodedError(ErrorMessage, e);
      case Halted(h) =>
        reply := HaltReply(h);
    }
  }

  /** When `authorizeEndpoint` refuses, no stage runs. */
  lemma Refusal(s0: ReqState, env: Env)
    requires !Admits(s0, env)
    ensures Spec(s0, env) == Response(Refused, Required(s0), 0)
  {
  }

  /** Records read, attached and authorized with the flag left true are sent
      as the lite list of exactly those records, and `Records` is deleted. */
  lemma SendsLiteList(s0: ReqState, env: Env, rs: seq<Record>)
    requires Admits(s0, env)
    requires var p := Waterfall(Stages[..3], Required(s0), NoLocals, env);
             p.end.Completed? && p.locals.rows == Some(rs)
    ensures var p := Waterfall(Stages[..3], Required(s0), NoLocals, env);
            var a := AuthorizeRequestRun(env.auth, env.dal.authorizers, env.dal.roleName(s0.roleIndex), "ReadLite",
                                         p.state.(records := Some(rs)));
            a.err.None? && a.state.authorized == Some(true) ==>
              Spec(s0, env) == Response(Sent(LiteListOf(rs, env.dal, env.services.processTemplate), true),
                                        a.state.(records := None), 7)
  {
    var p := Waterfall(Stages[..3], Required(s0), NoLocals, env);
    WaterfallSplit(Stages[..3], Stages[3..], Required(s0), NoLocals, env);
    assert Stages[..3] + Stages[3..] == Stages;
    WaterfallKeepsFixed(Stages[..3], Required(s0), NoLocals, env);
    AuthorizedTail(p.state, p.locals, env, rs);
  }

  /** Stages 2 to 3 on records `rs`. */
  lemma AuthorizedTail(s: ReqState, l: Locals, env: Env, rs: seq<Record>)
    requires l.rows == Some(rs)
    ensures var s3 := s.(records := Some(rs));
            var a := AuthorizeRequestRun(env.auth, env.dal.authorizers, env.dal.roleName(s.roleIndex), "ReadLite", s3);
            a.err.None? && a.state.authorized == Some(true) ==>
              Waterfall(Stages[3..], s, l, env) ==
                Outcome(a.state, l.(output := LiteListOf(rs, env.dal, env.services.processTemplate)), Completed, 4)
  {
    var s3 := s.(records := Some(rs));
    var a := AuthorizeRequestRun(env.auth, env.dal.authorizers, env.dal.roleName(s.roleIndex), "ReadLite", s3);
    if a.err.None? && a.state.authorized == Some(true) {
      AuthorizeRequestFrame(env.auth, env.dal.authorizers, env.dal.roleName(s.roleIndex), "ReadLite", s3);
      var out := l.(output := LiteListOf(rs, env.dal, env.services.processTemplate));
      assert Step(AttachRecords, s, l, env) == StepResult(s3, l, Completed);
      assert Step(AuthorizeRequestStage("ReadLite"), s3, l, env) == StepResult(a.state, l, Completed);
      assert Step(CheckAuthorization, a.state, l, env) == StepResult(a.state, l, Completed);
      assert Step(MarshalLite, a.state, l, env) == StepResult(a.state, out, Completed);
      WaterfallCons(MarshalLite, [], a.state, l, env);
      WaterfallCons(CheckAuthorization, [MarshalLite], a.state, l, env);
      WaterfallCons(AuthorizeRequestStage("ReadLite"), [CheckAuthorization, MarshalLite], s3, l, env);
      WaterfallCons(AttachRecords, [AuthorizeRequestStage("ReadLite"), CheckAuthorization, MarshalLite], s, l, env);
      assert Stages[3..] == [AttachRecords, AuthorizeRequestStage("ReadLite"), CheckAuthorization, MarshalLite];
    }
  }

  /** A flag left false by the authorizers (or absent) fails the pipeline with
      the 405 error before marshalling, and `Records` is still deleted. */
  lemma DeniedIs405(s0: ReqState, env: Env)
    requires Admits(s0, env)
    requires var p := Waterfall(Stages[..5], Required(s0), NoLocals, env);
             p.end.Completed? && p.state.authorized != Some(true)
    ensures var p := Waterfall(Stages[..5], Required(s0), NoLocals, env);
            Spec(s0, env) == Response(CodedError(ErrorMessage, UnauthorizedError), p.state.(records := None), 6)
  {
    WaterfallSplit(Stages[..5], Stages[5..], Required(s0), NoLocals, env);
    assert Stages[..5] + Stages[5..] == Stages;
  }

  /** Every error a stage reports reaches `sendCodedError` with the same
      message, no list is sent, and `Records` is deleted; the final handler
      is skipped only when a stage threw. */
  lemma ErrorsReported(s0: ReqState, env: Env)
    requires Admits(s0, env)
    ensures var w := Waterfall(Stages, Required(s0), NoLocals, env);
            var r := Spec(s0, env);
            && (w.end.Aborted? ==> r.reply == CodedError(ErrorMessage, w.end.err) && r.state.records.None?)
            && (w.end.Completed? ==> r.reply.Sent? && r.reply.thenNext && r.state.records.None?)
            && (w.end.Halted? ==> w.end.halt == Threw && r.reply == Uncaught)
  {
    var w := Waterfall(Stages, Required(s0), NoLocals, env);
    if w.end.Halted? {
      LastStageRan(Stages, Required(s0), NoLocals, env);
    }
  }

  /** A falsy record set from the DAL is not treated as empty: reading its
      `length` throws in stage 2. */
  lemma NullReadThrows(s0: ReqState, env: Env)
    requires Admits(s0, env)
    requires var p := Waterfall(Stages[..3], Required(s0), NoLocals, env);
             p.end.Completed? && p.locals.rows.None?
    ensures Spec(s0, env).reply == Uncaught && Spec(s0, env).ran == 4
  {
    WaterfallSplit(Stages[..3], Stages[3..], Required(s0), NoLocals, env);
    assert Stages[..3] + Stages[3..] == Stages;
  }
}

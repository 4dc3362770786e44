/** The distinct-list read endpoint: the distinct combinations of the
    requested columns, marshalled and streamed. */
module ReadDistinctList {
  import opened MeadowValues
  import opened Collaborators
  import opened Requests
  import opened Authorizers
  import opened QueryBuilding
  import opened Pipeline

  const Stages: seq<Stage> := [
    DistinctQueryStage,                 // 1a. distinct query, paging, filter, columns
    Hook(QueryConfiguration),           // 1b.
    Hook(PreAuth),                      // 1b2.
    DoReads,                            // 1c.
    AttachRecords,                      // 2.
    AuthorizeRequestStage("Reads"),     // 2.5, shared with the plain reads
    CheckAuthorization,                 // 2.6
    MarshalDistinct                     // 3.
  ]

  const ErrorMessage := "Error retreiving a recordset."

  /** The endpoint, from the request it receives to its reply. The final
      handler deletes `Records` before it looks at the error. */
  function Spec(s0: ReqState, env: Env): Response {
    if !Admits(s0, env) then Response(Refused, Required(s0), 0)
    else
      var w := Waterfall(Stages, Required(s0), NoLocals, env);
      match w.end
      case Completed => Response(Streamed(Some(w.locals.output)), w.state.(records := None), w.ran)
      case Aborted(e) => Response(CodedError(ErrorMessage, e), w.state.(records := None), w.ran)
      case Halted(h) => Response(HaltReply(h), w.state, w.ran)
  }

  method ReadDistinct(req: Request, reg: Registry, dal: Dal, services: Services) returns (reply: Reply)
    modifies req
    ensures var r := Spec(old(req.State()), Env(dal, services, reg.Config()));
            req.State() == r.state && reply == r.reply
  {
    req.requirement := Some(req.readsLevel);
    if !services.authorizeEndpoint(req.readsLevel, req.roleIndex) {
      return Refused;
    }
    var end, l, ran := Run(Stages, req, reg, dal, services, NoLocals);
    match end {
      case Completed =>
        req.records := None;
        reply := Streamed(Some(l.output));
      case Aborted(e) =>
        req.records := None;
        reply := CodedError(ErrorMessage, e);
      case Halted(h) =>
        reply := HaltReply(h);
    }
  }

  /** When `authorizeEndpoint` refuses, no stage runs. */
  lemma Refusal(s0: ReqState, env: Env)
    requires !Admits(s0, env)
    ensures Spec(s0, env) == Response(Refused, Required(s0), 0)
  {
  }

  /** Stage 1a always completes (its 400 error is never raised) and leaves
      the distinct query on the request and the columns in the endpoint. */
  lemma FirstStage(s0: ReqState, env: Env)
    ensures var d := DistinctQueryOf(env.dal.query, s0.params, s0.defaultMaxCap, env.services.parseDistinctFilter);
            Waterfall(Stages[..1], Required(s0), NoLocals, env) ==
              Outcome(Required(s0).(query := Some(d.query)), NoLocals.(columns := d.columns), Completed, 1)
  {
    assert Stages[..1] == [DistinctQueryStage] + [];
    WaterfallCons(DistinctQueryStage, [], Required(s0), NoLocals, env);
  }

  /** A flag left false by the authorizers (or absent) fails the pipeline with
      the 405 error, marshalling is skipped, and `Records` is deleted. */
  lemma DeniedIs405(s0: ReqState, env: Env)
    requires Admits(s0, env)
    requires var p := Waterfall(Stages[..6], Required(s0), NoLocals, env);
             p.end.Completed? && p.state.authorized != Some(true)
    ensures var p := Waterfall(Stages[..6], Required(s0), NoLocals, env);
            Spec(s0, env) == Response(CodedError(ErrorMessage, UnauthorizedError), p.state.(records := None), 7)
  {
    var p := Waterfall(Stages[..6], Required(s0), NoLocals, env);
    WaterfallSplit(Stages[..6], Stages[6..], Required(s0), NoLocals, env);
    assert Stages[..6] + Stages[6..] == Stages;
    assert Stages[6..] == [CheckAuthorization] + [MarshalDistinct];
    WaterfallCons(CheckAuthorization, [MarshalDistinct], p.state, p.locals, env);
  }

  /** Past the check, the marshaller gets `Records` and the columns stage 1a
      split from `Columns`; its list is streamed and `Records` deleted. */
  lemma SendsDistinct(s0: ReqState, env: Env)
    requires Admits(s0, env)
    requires Waterfall(Stages[..7], Required(s0), NoLocals, env).end.Completed?
    ensures var p := Waterfall(Stages[..7], Required(s0), NoLocals, env);
            var d := DistinctQueryOf(env.dal.query, s0.params, s0.defaultMaxCap, env.services.parseDistinctFilter);
            Spec(s0, env) ==
              Response(Streamed(Some(env.services.marshalDistinct(p.state.records, d.columns))), p.state.(records := None), 8)
  {
    var p := Waterfall(Stages[..7], Required(s0), NoLocals, env);
    WaterfallSplit(Stages[..7], Stages[7..], Required(s0), NoLocals, env);
    assert Stages[..7] + Stages[7..] == Stages;
    assert Stages[7..] == [MarshalDistinct] + [];
    WaterfallCons(MarshalDistinct, [], p.state, p.locals, env);
    FirstStage(s0, env);
    var first := Waterfall(Stages[..1], Required(s0), NoLocals, env);
    WaterfallSplit(Stages[..1], Stages[1..7], Required(s0), NoLocals, env);
    assert Stages[..1] + Stages[1..7] == Stages[..7];
    ColumnsKept(Stages[1..7], first.state, first.locals, env);
  }

  /** A falsy record set from the DAL is not treated as empty: reading its
      `length` throws in stage 2. */
  lemma NullReadThrows(s0: ReqState, env: Env)
    requires Admits(s0, env)
    requires var p := Waterfall(Stages[..4], Required(s0), NoLocals, env);
             p.end.Completed? && p.locals.rows.None?
    ensures Spec(s0, env).reply == Uncaught && Spec(s0, env).ran == 5
  {
    var p := Waterfall(Stages[..4], Required(s0), NoLocals, env);
    WaterfallSplit(Stages[..4], Stages[4..], Required(s0), NoLocals, env);
    assert Stages[..4] + Stages[4..] == Stages;
    assert Stages[4..] == [AttachRecords] + Stages[5..];
    WaterfallCons(AttachRecords, Stages[5..], p.state, p.locals, env);
  }
}

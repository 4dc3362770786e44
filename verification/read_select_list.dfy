/** The select-list read endpoint: a page of records for a drop-down, read
    without hooks and without authorizers. As written its marshalling stage
    never calls its completion; `IntendedStages` forwards the records to the
    final handler instead. */
module ReadSelectList {
  import opened MeadowValues
  import opened Collaborators
  import opened Requests
  import opened Authorizers
  import opened QueryBuilding
  import opened Pipeline

  /** The stages as written. */
  const Stages: seq<Stage> := [
    SelectListRead,                     // 1. string-only paging and the read
    SelectListCheck,                    // 2. an empty set is sent at once
    SelectListMarshal                   // 3. an empty body
  ]

  /** The stages with stage 3 completing with the records it received. */
  const IntendedStages: seq<Stage> := [SelectListRead, SelectListCheck, SelectListForward]

  const ErrorMessage := "Error retreiving a recordset."

  /** The endpoint over the given stages; `nextIsFunction` is whether `fNext`
      is a function, which decides whether `tmpNext` calls it. */
  function SpecOf(stages: seq<Stage>, s0: ReqState, env: Env, nextIsFunction: bool): Response {
    if !Admits(s0, env) then Response(Refused, Required(s0), 0)
    else
      var w := Waterfall(stages, Required(s0), NoLocals, env);
      match w.end
      case Completed =>
        // `pRecords.length` in the log line throws when no records arrived
        Response(if w.locals.rows.Some? then Sent(w.locals.rows.value, nextIsFunction) else Uncaught, w.state, w.ran)
      case Aborted(_) => Response(PlainError(ErrorMessage), w.state, w.ran)
      case Halted(h) => Response(HaltReply(h), w.state, w.ran)
  }

  method Endpoint(stages: seq<Stage>, req: Request, reg: Registry, dal: Dal, services: Services, nextIsFunction: bool)
    returns (reply: Reply)
    modifies req
    ensures var r := SpecOf(stages, old(req.State()), Env(dal, services, reg.Config()), nextIsFunction);
            req.State() == r.state && reply == r.reply
  {
    req.requirement := Some(req.readsLevel);
    if !services.authorizeEndpoint(req.readsLevel, req.roleIndex) {
      return Refused;
    }
    var end, l, ran := Run(stages, req, reg, dal, services, NoLocals);
    match end {
      case Completed =>
        reply := if l.rows.Some? then Sent(l.rows.value, nextIsFunction) else Uncaught;
      case Aborted(_) =>
        reply := PlainError(ErrorMessage);
      case Halted(h) =>
        reply := HaltReply(h);
    }
  }

  /** `doAPIReadSelectListEndpoint` as written. */
  method ReadSelectList(req: Request, reg: Registry, dal: Dal, services: Services, nextIsFunction: bool)
    returns (reply: Reply)
    modifies req
    ensures var r := SpecOf(Stages, old(req.State()), Env(dal, services, reg.Config()), nextIsFunction);
            req.State() == r.state && reply == r.reply
  {
    reply := Endpoint(Stages, req, reg, dal, services, nextIsFunction);
  }

  /** `doAPIReadSelectListEndpoint` with stage 3 forwarding its records. */
  method ReadSelectListIntended(req: Request, reg: Registry, dal: Dal, services: Services, nextIsFunction: bool)
    returns (reply: Reply)
    modifies req
    ensures var r := SpecOf(IntendedStages, old(req.State()), Env(dal, services, reg.Config()), nextIsFunction);
            req.State() == r.state && reply == r.reply
  {
    reply := Endpoint(IntendedStages, req, reg, dal, services, nextIsFunction);
  }

  /** The read the endpoint performs: the DAL's query with string-only paging. */
  function ReadOf(s0: ReqState, env: Env): ReadResult {
    env.dal.doReads(Some(SelectListQuery(env.dal.query, s0.params)))
  }

  /** Stages 1 and 2, shared by both versions: an error goes to `sendError`
      without the error object, a falsy result throws, an empty one is sent
      as `[]` without calling `fNext`; the request itself is never changed
      past the endpoint requirement. */
  lemma SharedOutcomes(last: Stage, s0: ReqState, env: Env, nextIsFunction: bool)
    requires last == SelectListMarshal || last == SelectListForward
    requires Admits(s0, env)
    ensures var read := ReadOf(s0, env);
            var r := SpecOf([SelectListRead, SelectListCheck, last], s0, env, nextIsFunction);
            && r.state == Required(s0)
            && (read.ReadFailed? ==> r.reply == PlainError(ErrorMessage) && r.ran == 1)
            && (read == ReadDone(None) ==> r.reply == Uncaught && r.ran == 2)
            && (read == ReadDone(Some([])) ==> r.reply == Sent([], false) && r.ran == 2)
  {
    var s := Required(s0);
    var read := ReadOf(s0, env);
    var l := if read.ReadDone? then NoLocals.(rows := read.rows) else NoLocals;
    assert Step(SelectListRead, s, NoLocals, env) ==
           StepResult(s, l, if read.ReadFailed? then Aborted(read.err) else Completed);
    WaterfallCons(SelectListRead, [SelectListCheck, last], s, NoLocals, env);
    assert [SelectListRead, SelectListCheck, last] == [SelectListRead] + [SelectListCheck, last];
    if read.ReadDone? {
      WaterfallCons(last, [], s, l, env);
      WaterfallCons(SelectListCheck, [last], s, l, env);
    }
  }

  /** As written: a non-empty record set reaches stage 3, which never calls
      its completion, so no reply is ever sent and `fNext` is never called. */
  lemma NonEmptyNeverReplies(s0: ReqState, env: Env, nextIsFunction: bool)
    requires Admits(s0, env)
    requires ReadOf(s0, env).ReadDone? && ReadOf(s0, env).rows.Some? && |ReadOf(s0, env).rows.value| > 0
    ensures SpecOf(Stages, s0, env, nextIsFunction) == Response(NoReply, Required(s0), 3)
  {
    var s := Required(s0);
    var l := NoLocals.(rows := ReadOf(s0, env).rows);
    assert Step(SelectListRead, s, NoLocals, env) == StepResult(s, l, Completed);
    WaterfallCons(SelectListMarshal, [], s, l, env);
    WaterfallCons(SelectListCheck, [SelectListMarshal], s, l, env);
    WaterfallCons(SelectListRead, [SelectListCheck, SelectListMarshal], s, NoLocals, env);
    assert Stages == [SelectListRead] + [SelectListCheck, SelectListMarshal];
  }

  /** As intended: the records are sent in the order read, then `tmpNext`
      runs, which calls `fNext` exactly when it is a function. */
  lemma IntendedSendsRecords(s0: ReqState, env: Env, nextIsFunction: bool)
    requires Admits(s0, env)
    requires ReadOf(s0, env).ReadDone? && ReadOf(s0, env).rows.Some? && |ReadOf(s0, env).rows.value| > 0
    ensures SpecOf(IntendedStages, s0, env, nextIsFunction) ==
              Response(Sent(ReadOf(s0, env).rows.value, nextIsFunction), Required(s0), 3)
  {
    var s := Required(s0);
    var l := NoLocals.(rows := ReadOf(s0, env).rows);
    assert Step(SelectListRead, s, NoLocals, env) == StepResult(s, l, Completed);
    WaterfallCons(SelectListForward, [], s, l, env);
    WaterfallCons(SelectListCheck, [SelectListForward], s, l, env);
    WaterfallCons(SelectListRead, [SelectListCheck, SelectListForward], s, NoLocals, env);
    assert IntendedStages == [SelectListRead] + [SelectListCheck, SelectListForward];
  }

  /** No stage consults `MeadowAuthorization` or runs an authorizer: the
      reply is the same whatever flag the request carries. */
  lemma FlagIgnored(stages: seq<Stage>, s0: ReqState, env: Env, nextIsFunction: bool, flag: Option<bool>)
    requires stages == Stages || stages == IntendedStages
    ensures forall i :: 0 <= i < |stages| ==> !stages[i].AuthorizeRequestStage? && !stages[i].CheckAuthorization?
    ensures SpecOf(stages, s0.(authorized := flag), env, nextIsFunction).reply == SpecOf(stages, s0, env, nextIsFunction).reply
  {
    var s1 := s0.(authorized := flag);
    assert stages == [SelectListRead, SelectListCheck, stages[2]];
    assert ReadOf(s1, env) == ReadOf(s0, env);
    if Admits(s0, env) {
      SharedOutcomes(stages[2], s0, env, nextIsFunction);
      SharedOutcomes(stages[2], s1, env, nextIsFunction);
      var read := ReadOf(s0, env);
      if read.ReadDone? && read.rows.Some? && |read.rows.value| > 0 {
        if stages == Stages {
          NonEmptyNeverReplies(s0, env, nextIsFunction);
          NonEmptyNeverReplies(s1, env, nextIsFunction);
        } else {
          IntendedSendsRecords(s0, env, nextIsFunction);
          IntendedSendsRecords(s1, env, nextIsFunction);
        }
      }
    }
  }
}

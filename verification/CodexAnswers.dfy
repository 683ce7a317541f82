/** What every answer to the thread says, over whole runs: which call sent it, for which request, in whose words. */
module CodexAnswers {
  import opened HostTypes
  import opened Wrappers
  import opened CodexTypes
  import opened CodexSpec
  import opened CodexRuns
  import opened CodexGate

  // ---------------------------------------------------------------- what an answer says

  /** The decision is the user's permission: a standing approval only where the user always allows. */
  predicate Decides(permission: Permission, decision: ReviewDecision) {
    && (decision == ApprovedForSession <==> permission == AllowAlways)
    && (decision == Approved <==> permission == AllowOnce)
    && (decision == ReviewDecision.Abort <==> permission == Cancel)
    && (decision == Denied <==> permission == DenyOnce || permission == DenyAlways)
  }

  /** The call reviews an execution or a patch. */
  predicate Reviews(call: Call, kind: AnswerKind, decision: ReviewDecision) {
    match call
    case Respond(_, permission, _, _, _) => kind == Verdict(permission) && Decides(permission, decision)
    case CancelPending(_) => kind == Cancellation && decision == ReviewDecision.Abort
    case _ => false
  }

  /** The call responds to a tool call: with the caller's output and its verdict, or with a failure of the host's own. */
  predicate Responds(cfg: Config, call: Call, tool: string, kind: AnswerKind, text: string, success: bool) {
    match call
    case CompleteTool(_, output, _, _, _) => kind == Result(tool) && text == output && success == cfg.outputOk(output)
    case Respond(_, permission, _, _, _) =>
      kind == Refusal && text == "denied by user" && !success && permission != AllowOnce && permission != AllowAlways
    case CancelPending(_) => kind == Cancellation && text == "cancelled" && !success
    case _ => false
  }

  /** The call answers that request with that operation. */
  predicate Sends(cfg: Config, request: EventMsg, call: Call, kind: AnswerKind, op: Op)
    requires request.IsRequest()
  {
    && (call.CompleteTool? || call.Respond? ==> call.callId == request.callId)
    && match request
       case ToolCall(callId, tool, _) =>
         op.DynamicToolResponse? && op.id == callId && Responds(cfg, call, tool, kind, op.text, op.success)
       case ExecApprovalRequest(callId, approvalId, turnId, _, _) =>
         && op.ExecApproval?
         && op.id == (if approvalId.Some? then approvalId.value else callId)
         && (turnId == "" ==> op.turnId == None) && (turnId != "" ==> op.turnId == Some(turnId))
         && Reviews(call, kind, op.decision)
       case PatchApprovalRequest(callId, _) => op.PatchApproval? && op.id == callId && Reviews(call, kind, op.decision)
  }

  /** The entry is what the call sends for the request, delivered or not. */
  predicate IsAnswerOf(cfg: Config, request: EventMsg, call: Call, e: Entry) {
    && request.IsRequest() && e.Answered? && (call.CompleteTool? || call.Respond? || call.CancelPending?)
    && Sends(cfg, request, call, e.kind, e.op) && e.delivered == call.delivered
  }

  /** The entry answers what is open. */
  predicate AnswersTo(cfg: Config, open: Open, call: Call, e: Entry) {
    (open.Asked? || open.Granted?) && IsAnswerOf(cfg, open.request, call, e)
  }

  // ---------------------------------------------------------------- one call

  /** All answers of a step are its first entry, and that is what the call sends for the open request. */
  predicate AnswersOpen(cfg: Config, s: Session, call: Call, after: Log) {
    forall i :: |s.log| <= i < |after| && after[i].Answered? ==>
      i == |s.log| && s.slot.pending.Some? && AnswersTo(cfg, Scan(cfg, s.log), call, after[i])
  }

  /** What a step allows is what its call allows. */
  predicate AllowsOnlyAsTold(s: Session, call: Call, after: Log) {
    forall i :: |s.log| <= i < |after| && after[i].Allowed? ==>
      call.Respond? && (call.permission == AllowOnce || call.permission == AllowAlways)
      && after[i] == Allowed(call.callId, call.permission)
  }

  lemma FirstAnswerOnly(cfg: Config, s: Session, call: Call, e: Entry, after: Log)
    requires PumpedOn(s.log + [e], after) && s.slot.pending.Some? && AnswersTo(cfg, Scan(cfg, s.log), call, e)
    ensures AnswersFirst(cfg, s, call, after)
  {
    assert after[|s.log|] == (s.log + [e])[|s.log|];
  }

  /** A call meant for the outstanding request that sends something to the thread. */
  predicate Answering(slot: Slot, call: Call) {
    && slot.pending.Some?
    && match call
       case CompleteTool(callId, _, _, _, _) => slot.pending.value.Execute? && slot.pending.value.callId == callId
       case Respond(callId, permission, _, _, _) =>
         && !slot.pending.value.Execute? && slot.pending.value.callId == callId
         && (slot.pending.value.Confirm? ==> permission != AllowOnce && permission != AllowAlways)
       case CancelPending(_) => true
       case _ => false
  }

  /** What an answering step does first. */
  predicate AnswersFirst(cfg: Config, s: Session, call: Call, after: Log) {
    && AnswersOpen(cfg, s, call, after) && s.log < after && after[|s.log|].Answered?
    && forall i :: |s.log| <= i < |after| ==> !after[i].Allowed?
  }

  lemma CompleteAnswers(cfg: Config, s: Session, call: Call)
    requires Inv(cfg, s) && call.CompleteTool? && Answering(s.slot, call)
    ensures AnswersFirst(cfg, s, call, Step(cfg, s, call).session.log)
  {
    var name := s.slot.pending.value.name;
    var ok := cfg.outputOk(call.output);
    var op := DynamicToolResponse(call.callId, call.output, ok);
    AnswerExtends(cfg, s, s.slot.sendOk || (name == "send_message" && ok), Result(name), op, call.delivered, call.now, call.feed);
    FirstAnswerOnly(cfg, s, call, Answered(Result(name), op, call.delivered), Step(cfg, s, call).session.log);
  }

  lemma RespondAnswers(cfg: Config, s: Session, call: Call)
    requires Inv(cfg, s) && call.Respond? && Answering(s.slot, call)
    ensures AnswersFirst(cfg, s, call, Step(cfg, s, call).session.log)
  {
    var kind, op := Refusal, DynamicToolResponse(call.callId, "denied by user", false);
    match s.slot.pending.value {
      case Confirm(_, _, _, _) =>
      case Exec(id, turnId, _, _, _) => kind, op := Verdict(call.permission), ExecApproval(id, turnId, Review(call.permission));
      case Patch(id, _, _, _) => kind, op := Verdict(call.permission), PatchApproval(id, Review(call.permission));
    }
    AnswerExtends(cfg, s, s.slot.sendOk, kind, op, call.delivered, call.now, call.feed);
    FirstAnswerOnly(cfg, s, call, Answered(kind, op, call.delivered), Step(cfg, s, call).session.log);
  }

  lemma CancelAnswers(cfg: Config, s: Session, call: Call)
    requires Inv(cfg, s) && call.CancelPending? && Answering(s.slot, call)
    ensures AnswersFirst(cfg, s, call, Step(cfg, s, call).session.log)
  {
    var e := Answered(Cancellation, CancelOp(s.slot.pending.value), call.delivered);
    FirstAnswerOnly(cfg, s, call, e, Step(cfg, s, call).session.log);
  }

  lemma PromptAnswersNothing(cfg: Config, s: Session, world: PromptWorld)
    ensures PumpedOn(s.log, PromptSpec(cfg, s, world).session.log)
  {
    var t := StartTurn(cfg, s.(slot := EnsureLiveSpec(s.slot, world.start).0), world.now);
    PumpPumps(cfg, t.slot.hardDeadline, Armed(cfg, t, world.now), world.feed);
  }

  /** Any other call answers nothing. */
  lemma OthersAnswerNothing(cfg: Config, s: Session, call: Call)
    requires Inv(cfg, s) && !Answering(s.slot, call)
    ensures s.log <= Step(cfg, s, call).session.log
    ensures forall i :: |s.log| <= i < |Step(cfg, s, call).session.log| ==> !Step(cfg, s, call).session.log[i].Answered?
    ensures AllowsOnlyAsTold(s, call, Step(cfg, s, call).session.log)
  {
    match call
    case Prompt(world) => PromptAnswersNothing(cfg, s, world);
    case Respond(_, _, _, _, _) => ReplyAllows(cfg, s, call);
    case _ =>
  }

  lemma ReplyAllows(cfg: Config, s: Session, call: Call)
    requires Inv(cfg, s) && call.Respond? && !Answering(s.slot, call)
    ensures var after := Step(cfg, s, call).session.log;
            after == s.log || (after == s.log + [Allowed(call.callId, call.permission)]
                               && (call.permission == AllowOnce || call.permission == AllowAlways))
  {
  }

  lemma StepAnswers(cfg: Config, s: Session, call: Call)
    requires Inv(cfg, s)
    ensures s.log <= Step(cfg, s, call).session.log && AnswersOpen(cfg, s, call, Step(cfg, s, call).session.log)
    ensures AllowsOnlyAsTold(s, call, Step(cfg, s, call).session.log)
    ensures Answering(s.slot, call) ==> AnswersFirst(cfg, s, call, Step(cfg, s, call).session.log)
  {
    if Answering(s.slot, call) {
      match call
      case CompleteTool(_, _, _, _, _) => CompleteAnswers(cfg, s, call);
      case Respond(_, _, _, _, _) => RespondAnswers(cfg, s, call);
      case CancelPending(_) => CancelAnswers(cfg, s, call);
    } else {
      OthersAnswerNothing(cfg, s, call);
    }
  }

  // ---------------------------------------------------------------- runs

  lemma {:induction false} RunGrows(cfg: Config, calls: seq<Call>, n: nat)
    requires n <= |calls|
    ensures Run(cfg, calls[..n]).log <= Run(cfg, calls).log
    decreases |calls|
  {
    if n == |calls| {
      assert calls[..n] == calls;
    } else {
      var init := calls[..|calls| - 1];
      RunKeeps(cfg, init);
      StepAnswers(cfg, Run(cfg, init), calls[|calls| - 1]);
      RunGrows(cfg, init, n);
      assert init[..n] == calls[..n];
    }
  }

  /** Which call wrote an entry. */
  lemma {:induction false} WrittenBy(cfg: Config, calls: seq<Call>, i: nat) returns (n: nat)
    requires i < |Run(cfg, calls).log|
    ensures n < |calls| && |Run(cfg, calls[..n]).log| <= i < |Run(cfg, calls[..n + 1]).log|
    decreases |calls|
  {
    var init := calls[..|calls| - 1];
    if i < |Run(cfg, init).log| {
      n := WrittenBy(cfg, init, i);
      assert init[..n] == calls[..n] && init[..n + 1] == calls[..n + 1];
    } else {
      n := |calls| - 1;
      assert calls[..n] == init && calls[..n + 1] == calls;
    }
  }

  lemma RunStep(cfg: Config, calls: seq<Call>, n: nat)
    requires n < |calls|
    ensures Run(cfg, calls[..n + 1]) == Step(cfg, Run(cfg, calls[..n]), calls[n]).session
  {
    assert calls[..n + 1][..n] == calls[..n];
  }

  /** An entry as its call wrote it. */
  lemma WrittenAs(cfg: Config, calls: seq<Call>, i: nat) returns (n: nat)
    requires i < |Run(cfg, calls).log|
    ensures n < |calls| && |Run(cfg, calls[..n]).log| <= i
    ensures var s := Run(cfg, calls[..n]);
            var after := Step(cfg, s, calls[n]).session.log;
            && Inv(cfg, s) && s.log <= Run(cfg, calls).log
            && i < |after| && after[i] == Run(cfg, calls).log[i]
  {
    n := WrittenBy(cfg, calls, i);
    RunKeeps(cfg, calls[..n]);
    RunGrows(cfg, calls, n);
    RunGrows(cfg, calls, n + 1);
    RunStep(cfg, calls, n);
  }

  /**
   * Every answer of a run is the first thing its call does, and it is the answer to the request received
   * last: a completion's carries the caller's output and that output's verdict, a review's the decision the
   * user's permission stands for, with the turn and the approval the request named, and a refusal or a
   * cancellation a failure.
   */
  lemma AnswerTells(cfg: Config, calls: seq<Call>, i: nat) returns (j: nat, n: nat)
    requires i < |Run(cfg, calls).log| && Run(cfg, calls).log[i].Answered?
    ensures var log := Run(cfg, calls).log;
            && j < i && log[j].Received? && (forall m :: j < m < i ==> !TouchesRequest(log[m]))
            && n < |calls| && |Run(cfg, calls[..n]).log| == i
            && IsAnswerOf(cfg, log[j].request, calls[n], log[i])
  {
    n := WrittenAs(cfg, calls, i);
    var s := Run(cfg, calls[..n]);
    StepAnswers(cfg, s, calls[n]);
    var k;
    j, k := OpenMeans(cfg, s.log);
    assert forall m :: 0 <= m < |s.log| ==> s.log[m] == Run(cfg, calls).log[m];
  }

  /** What the history counts as allowed is what the user allowed, by that call's id. */
  lemma AllowedIsTheUsers(cfg: Config, calls: seq<Call>, i: nat) returns (n: nat)
    requires i < |Run(cfg, calls).log| && Run(cfg, calls).log[i].Allowed?
    ensures n < |calls| && calls[n].Respond? && |Run(cfg, calls[..n]).log| <= i
    ensures calls[n].permission == AllowOnce || calls[n].permission == AllowAlways
    ensures Run(cfg, calls).log[i] == Allowed(calls[n].callId, calls[n].permission)
  {
    n := WrittenAs(cfg, calls, i);
    StepAnswers(cfg, Run(cfg, calls[..n]), calls[n]);
  }

  /** And a call that is meant for the outstanding request does send its answer. */
  lemma AnswerIsSent(cfg: Config, calls: seq<Call>, call: Call)
    requires Answering(Run(cfg, calls).slot, call)
    ensures var s, t := Run(cfg, calls), Step(cfg, Run(cfg, calls), call).session;
            s.log < t.log && t.log[|s.log|].Answered? && (call.CancelPending? ==> t.slot.pending.None?)
  {
    RunKeeps(cfg, calls);
    StepAnswers(cfg, Run(cfg, calls), call);
  }

  // ---------------------------------------------------------------- what is outstanding

  /** What the host tells of a request; a tool call is the app's to execute, or the user's to allow first. */
  predicate Describes(cfg: Config, request: EventMsg, granted: bool, view: PendingYield)
    requires request.IsRequest()
  {
    && view.callId == request.callId
    && match request
       case ToolCall(_, tool, args) =>
         && view.name == tool && view.argumentsJson == args
         && (view.kind == ToolRequestYield <==> granted || !ConfirmsInApp(cfg, tool))
         && view.prompt == (if view.kind == ActionRequiredYield then tool + " " + args else "")
       case ExecApprovalRequest(_, _, _, command, reason) =>
         && view.name == "shell" && view.argumentsJson == command && view.kind == ActionRequiredYield
         && (reason.None? ==> view.prompt == command) && (reason.Some? ==> view.prompt == reason.value)
       case PatchApprovalRequest(_, reason) =>
         && view.name == "apply_patch" && view.argumentsJson == view.prompt && view.kind == ActionRequiredYield
         && (reason.None? ==> view.prompt == "apply patch") && (reason.Some? ==> view.prompt == reason.value)
  }

  lemma HeldIsDescribed(cfg: Config, open: Open, pending: Pending)
    requires Holds(cfg, open, Some(pending)) && (open.Asked? || open.Granted?) && open.request.IsRequest()
    ensures Describes(cfg, open.request, open.Granted?, pending.View())
  {
  }

  /** What is outstanding is the request received last, as it came in; it counts as granted exactly if the user
      allowed it since. */
  lemma OutstandingIsReceived(cfg: Config, calls: seq<Call>) returns (j: nat)
    requires Run(cfg, calls).slot.pending.Some?
    ensures var s := Run(cfg, calls);
            && j < |s.log| && s.log[j].Received? && s.log[j].request.IsRequest()
            && (forall m :: j < m < |s.log| ==> !TouchesRequest(s.log[m]))
            && Describes(cfg, s.log[j].request, exists m :: j < m < |s.log| && s.log[m].Allowed?, s.slot.pending.value.View())
  {
    RunKeeps(cfg, calls);
    var k;
    var log := Run(cfg, calls).log;
    j, k := OpenMeans(cfg, log);
    HeldIsDescribed(cfg, Scan(cfg, log), Run(cfg, calls).slot.pending.value);
    if Scan(cfg, log).Asked? {
      AskedMeans(cfg, log, j);
    }
  }

  /** A request that is asked about has not been allowed. */
  lemma {:induction false} AskedMeans(cfg: Config, log: Log, j: nat)
    requires Scan(cfg, log).Asked? && j < |log| && log[j].Received? && forall m :: j < m < |log| ==> !TouchesRequest(log[m])
    ensures forall m :: j < m < |log| ==> !log[m].Allowed?
  {
    if j < |log| - 1 {
      AskedMeans(cfg, log[..|log| - 1], j);
    }
  }

  /** A call that yields says of which request: its id, its name, and whose move it is. */
  lemma YieldTells(cfg: Config, calls: seq<Call>, call: Call)
    requires call.Prompt? || call.CompleteTool? || call.Respond?
    requires IsYield(Step(cfg, Run(cfg, calls), call).reply)
    ensures var o := Step(cfg, Run(cfg, calls), call);
            && o.session == Run(cfg, calls + [call]) && o.session.slot.pending.Some?
            && var view := o.session.slot.pending.value.View();
            o.reply.outcome == Yielded(view.kind, view.callId, view.name)
  {
    assert (calls + [call])[..|calls|] == calls;
    RunKeeps(cfg, calls);
    var s := Run(cfg, calls);
    match call
    case Prompt(world) => PromptKeeps(cfg, s, world);
    case CompleteTool(callId, output, delivered, now, feed) => CompleteToolKeeps(cfg, s, callId, output, delivered, now, feed);
    case Respond(callId, permission, delivered, now, feed) => RespondKeeps(cfg, s, callId, permission, delivered, now, feed);
  }
}

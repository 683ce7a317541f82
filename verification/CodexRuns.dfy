/** What every run of driver calls keeps: who may answer a request, how often, how many turns are
    spent, which phase inputs a run spells, and what a finished turn reports. */
module CodexRuns {
  import opened HostTypes
  import opened Wrappers
  import opened CodexTypes
  import opened CodexSpec
  import opened SessionPhase

  // ---------------------------------------------------------------- reading a history

  /** What the history says is still open: nothing, a request, or a confirmed request. */
  datatype Open = Quiet | Asked(request: EventMsg) | Granted(request: EventMsg) | Broken

  predicate NeedsConfirm(cfg: Config, request: EventMsg) {
    request.ToolCall? && ConfirmsInApp(cfg, request.tool)
  }

  /** The identifier under which the thread expects the answer to a request. */
  function AnswerId(request: EventMsg): string
    requires request.IsRequest()
  {
    match request
    case ToolCall(callId, _, _) => callId
    case ExecApprovalRequest(callId, approvalId, _, _, _) => approvalId.UnwrapOr(callId)
    case PatchApprovalRequest(callId, _) => callId
  }

  /** The operation is an answer to the request, of the sort the thread expects for it. */
  predicate Addressed(request: EventMsg, op: Op)
    requires request.IsRequest()
  {
    && (request.ToolCall? <==> op.DynamicToolResponse?)
    && (request.ExecApprovalRequest? <==> op.ExecApproval?)
    && op.id == AnswerId(request)
  }

  /** Which answers the protocol permits for an open request. */
  predicate Permitted(cfg: Config, open: Open, kind: AnswerKind, op: Op)
    requires (open.Asked? || open.Granted?) && open.request.IsRequest()
  {
    && Addressed(open.request, op)
    && match kind
       case Result(tool) => open.request.ToolCall? && tool == open.request.tool
                            && (NeedsConfirm(cfg, open.request) ==> open.Granted?)
       case Refusal => open.Asked? && NeedsConfirm(cfg, open.request) && !op.Grants()
       case Verdict(permission) => open.Asked? && !open.request.ToolCall? && (op.Grants() <==> IsAllow(permission))
       case Cancellation => !op.Grants()
  }

  function Advance(cfg: Config, open: Open, e: Entry): Open {
    match e
    case Received(request) =>
      if open.Quiet? && request.IsRequest() then Asked(request) else Broken
    case Allowed(callId, permission) =>
      if open.Asked? && NeedsConfirm(cfg, open.request) && open.request.callId == callId && IsAllow(permission)
      then Granted(open.request) else Broken
    case Answered(kind, op, _) =>
      if (open.Asked? || open.Granted?) && open.request.IsRequest() && Permitted(cfg, open, kind, op) then Quiet else Broken
    case Discarded =>
      if open.Asked? || open.Granted? then Quiet else Broken
    case _ => open
  }

  function Scan(cfg: Config, log: Log): Open {
    if log == [] then Quiet else Advance(cfg, Scan(cfg, log[..|log| - 1]), log[|log| - 1])
  }

  /** The start of the turn the history is in, unless the slot was configured anew since. */
  function TurnStart(log: Log): Option<Instant> {
    if log == [] then None
    else match log[|log| - 1]
      case TurnStarted(at) => Some(at)
      case Configured => None
      case _ => TurnStart(log[..|log| - 1])
  }

  predicate OpensTurn(e: Entry) {
    e.TurnStarted? || e.Configured?
  }

  /** A `send_message` went through: the app reported it, or the thread did. */
  predicate IsSend(e: Entry) {
    || (e.Answered? && e.kind == Result("send_message") && e.op.DynamicToolResponse? && e.op.success)
    || (e.ResponseSeen? && e.tool == "send_message" && e.success)
  }

  predicate Sent(log: Log) {
    log != [] && (IsSend(log[|log| - 1]) || (!OpensTurn(log[|log| - 1]) && Sent(log[..|log| - 1])))
  }

  /** Turns started since the slot was last configured. */
  function TurnsSpent(log: Log): nat {
    if log == [] || log[|log| - 1].Configured? then 0
    else TurnsSpent(log[..|log| - 1]) + if log[|log| - 1].TurnStarted? then 1 else 0
  }

  function InputsOf(e: Entry): seq<PhaseInput> {
    match e
    case Configured => [PhaseInput.Abort]
    case TurnStarted(_) => [PhaseInput.Prompt]
    case Received(_) => [PhaseInput.Yield]
    case Answered(kind, _, _) => if kind.Cancellation? then [PhaseInput.Abort] else [PhaseInput.Continue]
    case Discarded => [PhaseInput.Abort]
    case Ended(finished) => [if finished then PhaseInput.Finish else PhaseInput.Abort]
    case _ => []
  }

  /** The word of phase inputs a history spells. */
  function Word(log: Log): seq<PhaseInput> {
    if log == [] then [] else Word(log[..|log| - 1]) + InputsOf(log[|log| - 1])
  }

  function PhaseAfter(log: Log): Option<Phase> {
    Follow(Idle, Word(log))
  }

  function Count(log: Log, p: Entry -> bool): nat {
    if log == [] then 0 else Count(log[..|log| - 1], p) + if p(log[|log| - 1]) then 1 else 0
  }

  predicate IsReceived(e: Entry) { e.Received? }
  predicate IsAnswered(e: Entry) { e.Answered? }
  predicate IsDiscarded(e: Entry) { e.Discarded? }

  lemma ScanSnoc(cfg: Config, log: Log, e: Entry)
    ensures Scan(cfg, log + [e]) == Advance(cfg, Scan(cfg, log), e)
  {
    assert (log + [e])[..|log|] == log;
  }

  lemma TurnStartSnoc(log: Log, e: Entry)
    ensures TurnStart(log + [e]) == (if e.TurnStarted? then Some(e.at) else if e.Configured? then None else TurnStart(log))
  {
    assert (log + [e])[..|log|] == log;
  }

  lemma SentSnoc(log: Log, e: Entry)
    ensures Sent(log + [e]) == (IsSend(e) || (!OpensTurn(e) && Sent(log)))
  {
    assert (log + [e])[..|log|] == log;
  }

  lemma TurnsSpentSnoc(log: Log, e: Entry)
    ensures TurnsSpent(log + [e]) == (if e.Configured? then 0 else TurnsSpent(log) + if e.TurnStarted? then 1 else 0)
  {
    assert (log + [e])[..|log|] == log;
  }

  lemma PhaseSnoc(log: Log, e: Entry)
    ensures InputsOf(e) == [] ==> PhaseAfter(log + [e]) == PhaseAfter(log)
    ensures PhaseAfter(log).Some? && InputsOf(e) != [] ==>
              PhaseAfter(log + [e]) == Transition(PhaseAfter(log).value, InputsOf(e)[0])
  {
    assert (log + [e])[..|log|] == log;
    assert Word(log + [e]) == Word(log) + InputsOf(e);
    if InputsOf(e) == [] {
      assert Word(log) + InputsOf(e) == Word(log);
    } else if PhaseAfter(log).Some? {
      assert InputsOf(e) == [InputsOf(e)[0]];
      FollowSnoc(Idle, Word(log), InputsOf(e)[0]);
    }
  }

  /** All readings of a history follow its last entry. */
  lemma Snoc(cfg: Config, log: Log, e: Entry)
    ensures Scan(cfg, log + [e]) == Advance(cfg, Scan(cfg, log), e)
    ensures TurnStart(log + [e]) == (if e.TurnStarted? then Some(e.at) else if e.Configured? then None else TurnStart(log))
    ensures Sent(log + [e]) == (IsSend(e) || (!OpensTurn(e) && Sent(log)))
    ensures TurnsSpent(log + [e]) == (if e.Configured? then 0 else TurnsSpent(log) + if e.TurnStarted? then 1 else 0)
    ensures InputsOf(e) == [] ==> PhaseAfter(log + [e]) == PhaseAfter(log)
    ensures PhaseAfter(log).Some? && InputsOf(e) != [] ==>
              PhaseAfter(log + [e]) == Transition(PhaseAfter(log).value, InputsOf(e)[0])
  {
    ScanSnoc(cfg, log, e);
    TurnStartSnoc(log, e);
    SentSnoc(log, e);
    TurnsSpentSnoc(log, e);
    PhaseSnoc(log, e);
  }

  // ---------------------------------------------------------------- invariants

  /** The slot holds exactly what the history says is open. */
  predicate Holds(cfg: Config, open: Open, pending: Option<Pending>) {
    match open
    case Quiet => pending.None?
    case Asked(request) => request.IsRequest() && pending == Some(PendingOf(cfg, request))
    case Granted(request) => NeedsConfirm(cfg, request) && pending == Some(Execute(request.callId, request.tool, request.args))
    case Broken => false
  }

  /** While the pump runs. */
  predicate Flying(cfg: Config, p: Pumping) {
    && p.pending.None?
    && Scan(cfg, p.log) == Quiet
    && TurnStart(p.log).Some?
    && p.sendOk == Sent(p.log)
    && PhaseAfter(p.log) == Some(Running)
  }

  predicate IsYield(reply: Reply) {
    reply.Done? && reply.outcome.Yielded?
  }

  predicate IsFinish(reply: Reply) {
    reply.Done? && reply.outcome.Finished?
  }

  /** When the pump has stopped. */
  predicate Landed(cfg: Config, p: Pumping, reply: Reply) {
    && Holds(cfg, Scan(cfg, p.log), p.pending)
    && p.sendOk == Sent(p.log)
    && PhaseAfter(p.log) == Some(if p.pending.Some? then Phase.Yielded else Idle)
    && (p.pending.Some? <==> IsYield(reply))
    && (p.pending.Some? ==> reply.outcome == p.pending.value.Outcome())
    && (IsFinish(reply) ==> reply.outcome.visible == (reply.outcome.replied || Sent(p.log)))
    && !(reply.Fail? && reply.error.UnknownToolCall?)
  }

  predicate SameTurn(before: Log, after: Log) {
    TurnStart(after) == TurnStart(before) && TurnsSpent(after) == TurnsSpent(before)
  }

  predicate Kept(cfg: Config, before: Log, flow: Flow) {
    && SameTurn(before, flow.p.log)
    && match flow
       case Next(p) => Flying(cfg, p)
       case Stop(p, reply) => Landed(cfg, p, reply)
  }

  lemma HaltKeeps(cfg: Config, p: Pumping, reply: Reply)
    requires Flying(cfg, p) && !IsYield(reply) && !(reply.Fail? && reply.error.UnknownToolCall?)
    requires IsFinish(reply) ==> reply.outcome.visible == (reply.outcome.replied || p.sendOk)
    ensures Kept(cfg, p.log, Halt(p, reply))
  {
    Snoc(cfg, p.log, Ended(IsFinish(reply)));
  }

  lemma EmitKeeps(cfg: Config, p: Pumping, w: Wake, event: HostEvent)
    requires Flying(cfg, p) && w.Event?
    ensures Kept(cfg, p.log, Emit(cfg, p, w, event))
  {
    HaltKeeps(cfg, p, Fail(Failed("event channel closed")));
  }

  lemma ParkKeeps(cfg: Config, p: Pumping, request: EventMsg)
    requires Flying(cfg, p) && request.IsRequest()
    ensures Kept(cfg, p.log, Park(cfg, p, request))
  {
    Snoc(cfg, p.log, Received(request));
  }

  lemma ResponseKeeps(cfg: Config, p: Pumping, w: Wake)
    requires Flying(cfg, p) && w.Event? && w.msg.ToolResponse?
    ensures Kept(cfg, p.log, HandleResponse(cfg, p, w))
  {
    var e := ResponseSeen(w.msg.tool, w.msg.success);
    Snoc(cfg, p.log, e);
    var q := p.(sendOk := p.sendOk || IsSend(e), log := p.log + [e]);
    EmitKeeps(cfg, q, w, ToolResult(w.msg.callId, w.msg.tool, w.msg.success));
  }

  lemma TextKeeps(cfg: Config, p: Pumping, w: Wake)
    requires Flying(cfg, p) && w.Event? && (w.msg.Delta? || w.msg.Message?)
    ensures Kept(cfg, p.log, HandleText(cfg, p, w))
  {
    if w.msg.Delta? {
      EmitKeeps(cfg, p.(sawDelta := true, assistant := p.assistant + w.msg.text), w, TextDelta(w.msg.text));
    } else {
      EmitKeeps(cfg, p.(assistant := w.msg.text), w, TextDelta(w.msg.text));
    }
  }

  lemma HandleKeeps(cfg: Config, p: Pumping, w: Wake)
    requires Flying(cfg, p) && w.Event?
    ensures Kept(cfg, p.log, Handle(cfg, p, w))
  {
    if w.msg.IsRequest() {
      ParkKeeps(cfg, p, w.msg);
    } else if Ending(p, w.msg).Some? {
      HaltKeeps(cfg, p, Ending(p, w.msg).value);
    } else if w.msg.Delta? || w.msg.Message? {
      TextKeeps(cfg, p, w);
    } else if w.msg.ToolResponse? {
      ResponseKeeps(cfg, p, w);
    } else if Notice(w.msg).Some? {
      EmitKeeps(cfg, p, w, Notice(w.msg).value);
    }
  }

  lemma IterateKeeps(cfg: Config, hard: Option<Instant>, before: Pumping, w: Wake)
    requires Flying(cfg, before)
    ensures Kept(cfg, before.log, Iterate(cfg, hard, before, w))
  {
    var p := before.(seen := before.seen + [w]);
    if w.Event? {
      HandleKeeps(cfg, p, w);
    } else {
      var flow := Iterate(cfg, hard, before, w);
      if flow.Stop? {
        HaltKeeps(cfg, p, flow.reply);
      }
    }
  }

  lemma {:induction false} PumpKeeps(cfg: Config, hard: Option<Instant>, p: Pumping, feed: seq<Wake>)
    requires Flying(cfg, p)
    ensures Kept(cfg, p.log, Pump(cfg, hard, p, feed))
    decreases |feed|
  {
    if feed == [] {
      HaltKeeps(cfg, p, Dropped);
    } else {
      IterateKeeps(cfg, hard, p, feed[0]);
      var flow := Iterate(cfg, hard, p, feed[0]);
      if flow.Next? {
        PumpKeeps(cfg, hard, flow.p, feed[1..]);
      }
    }
  }

  // ---------------------------------------------------------------- one call

  function PhaseOf(slot: Slot): Phase {
    if slot.pending.Some? then Phase.Yielded else Idle
  }

  /** The turn counter counts the turns of the history, and stays within the limit. */
  predicate TurnsCounted(cfg: Config, s: Session) {
    && s.slot.turns == (if TurnsSpent(s.log) <= U32_MAX then TurnsSpent(s.log) else U32_MAX)
    && (cfg.maxTurns.Some? ==> TurnsSpent(s.log) <= cfg.maxTurns.value)
  }

  /** The slot agrees with the turn its history is in. */
  predicate TurnKnown(cfg: Config, s: Session) {
    && s.slot.live.Some?
    && s.slot.sendOk == Sent(s.log)
    && TurnStart(s.log).Some?
    && s.slot.hardDeadline == Deadline(cfg.hard, TurnStart(s.log).value)
  }

  /** What holds between any two driver calls. */
  predicate Inv(cfg: Config, s: Session) {
    && Holds(cfg, Scan(cfg, s.log), s.slot.pending)
    && PhaseAfter(s.log) == Some(PhaseOf(s.slot))
    && (s.slot.pending.Some? ==> TurnKnown(cfg, s))
    && TurnsCounted(cfg, s)
  }

  /** What holds when the pump is entered. */
  predicate InTurn(cfg: Config, s: Session) {
    && s.slot.pending.None?
    && Scan(cfg, s.log) == Quiet
    && PhaseAfter(s.log) == Some(Running)
    && TurnKnown(cfg, s)
    && TurnsCounted(cfg, s)
  }

  /** The reply tells the slot's phase, and a finish tells whether the user saw anything this turn. */
  predicate Concluded(o: Outcome) {
    && (o.session.slot.pending.Some? <==> IsYield(o.reply))
    && (o.session.slot.pending.Some? ==> o.reply.outcome == o.session.slot.pending.value.Outcome())
    && (IsFinish(o.reply) ==> o.reply.outcome.visible == (o.reply.outcome.replied || Sent(o.session.log)))
    && !(o.reply.Fail? && o.reply.error.UnknownToolCall?)
  }

  lemma PumpSessionKeeps(cfg: Config, s: Session, now: Instant, feed: seq<Wake>)
    requires InTurn(cfg, s)
    ensures var o := PumpSession(cfg, s, now, feed);
            && Inv(cfg, o.session) && Concluded(o)
            && SameTurn(s.log, o.session.log)
            && o.session.slot == s.slot.(pending := o.session.slot.pending, sendOk := o.session.slot.sendOk)
  {
    PumpKeeps(cfg, s.slot.hardDeadline, Armed(cfg, s, now), feed);
  }

  /** The slot once it gave up its request for an answer. */
  function Relieved(s: Session, sendOk: bool, e: Entry): Session {
    Session(s.slot.(pending := None, sendOk := sendOk), s.log + [e])
  }

  lemma DeliveredEnters(cfg: Config, s: Session, sendOk: bool, kind: AnswerKind, op: Op, delivered: bool)
    requires Inv(cfg, s) && s.slot.pending.Some? && !kind.Cancellation?
    requires Permitted(cfg, Scan(cfg, s.log), kind, op)
    requires sendOk == (s.slot.sendOk || IsSend(Answered(kind, op, delivered)))
    ensures var t := Relieved(s, sendOk, Answered(kind, op, delivered));
            SameTurn(s.log, t.log) && InTurn(cfg, t)
  {
    Snoc(cfg, s.log, Answered(kind, op, delivered));
  }

  lemma EndedKeeps(cfg: Config, s: Session)
    requires InTurn(cfg, s)
    ensures var t := s.(log := s.log + [Ended(false)]);
            Inv(cfg, t) && SameTurn(s.log, t.log)
  {
    Snoc(cfg, s.log, Ended(false));
  }

  lemma AnswerKeeps(cfg: Config, s: Session, sendOk: bool, kind: AnswerKind, op: Op, delivered: bool, now: Instant, feed: seq<Wake>)
    requires Inv(cfg, s) && s.slot.pending.Some? && !kind.Cancellation?
    requires Permitted(cfg, Scan(cfg, s.log), kind, op)
    requires sendOk == (s.slot.sendOk || IsSend(Answered(kind, op, delivered)))
    ensures var o := AnswerAndPump(cfg, s, sendOk, kind, op, delivered, now, feed);
            && Inv(cfg, o.session) && Concluded(o)
            && SameTurn(s.log, o.session.log)
            && o.session.slot.turns == s.slot.turns && o.session.slot.hardDeadline == s.slot.hardDeadline
  {
    var t := Relieved(s, sendOk, Answered(kind, op, delivered));
    DeliveredEnters(cfg, s, sendOk, kind, op, delivered);
    if delivered {
      PumpSessionKeeps(cfg, t, now, feed);
    } else {
      EndedKeeps(cfg, t);
    }
  }

  predicate MayStart(cfg: Config, slot: Slot) {
    slot.pending.None? && (cfg.maxTurns.Some? ==> slot.turns < cfg.maxTurns.value)
  }

  lemma StartEnters(cfg: Config, s: Session, now: Instant)
    requires Inv(cfg, s) && MayStart(cfg, s.slot) && s.slot.live.Some?
    ensures InTurn(cfg, StartTurn(cfg, s, now))
  {
    Snoc(cfg, s.log, TurnStarted(now));
  }

  lemma SubmitKeeps(cfg: Config, s: Session, world: PromptWorld)
    requires Inv(cfg, s) && MayStart(cfg, s.slot) && s.slot.live.Some?
    ensures Inv(cfg, SubmitSpec(cfg, s, world).session) && Concluded(SubmitSpec(cfg, s, world))
  {
    if world.submission.Submitted? {
      StartEnters(cfg, s, world.now);
      PumpSessionKeeps(cfg, StartTurn(cfg, s, world.now), world.now, world.feed);
    }
  }

  /** Starting a thread for an idle slot keeps the invariant: only a turn's slot is tied to its thread. */
  lemma LiveKeeps(cfg: Config, s: Session, start: Start)
    requires Inv(cfg, s) && s.slot.pending.None?
    ensures var (slot, failure) := EnsureLiveSpec(s.slot, start);
            && Inv(cfg, s.(slot := slot)) && slot.pending.None? && slot.turns == s.slot.turns
            && (failure.None? ==> slot.live.Some?)
  {
  }

  lemma PromptKeeps(cfg: Config, s: Session, world: PromptWorld)
    requires Inv(cfg, s)
    ensures Inv(cfg, PromptSpec(cfg, s, world).session)
    ensures s.slot.pending.None? ==> Concluded(PromptSpec(cfg, s, world))
  {
    if MayStart(cfg, s.slot) {
      LiveKeeps(cfg, s, world.start);
      var (slot, failure) := EnsureLiveSpec(s.slot, world.start);
      if failure.None? && !world.cancelled {
        SubmitKeeps(cfg, s.(slot := slot), world);
        assert PromptSpec(cfg, s, world) == SubmitSpec(cfg, s.(slot := slot), world);
      }
    }
  }

  lemma CompleteToolKeeps(cfg: Config, s: Session, callId: string, output: string, delivered: bool, now: Instant, feed: seq<Wake>)
    requires Inv(cfg, s)
    ensures var o := CompleteToolSpec(cfg, s, callId, output, delivered, now, feed);
            && Inv(cfg, o.session) && SameTurn(s.log, o.session.log)
            && o.session.slot.turns == s.slot.turns && o.session.slot.hardDeadline == s.slot.hardDeadline
            && (o == Stay(s, Fail(UnknownToolCall(callId))) || Concluded(o))
  {
    if s.slot.pending.Some? && s.slot.pending.value.Execute? && s.slot.pending.value.callId == callId {
      var name := s.slot.pending.value.name;
      var ok := cfg.outputOk(output);
      AnswerKeeps(cfg, s, s.slot.sendOk || (name == "send_message" && ok), Result(name),
                  DynamicToolResponse(callId, output, ok), delivered, now, feed);
    }
  }

  predicate Resumed(cfg: Config, s: Session, o: Outcome) {
    && Inv(cfg, o.session) && Concluded(o) && SameTurn(s.log, o.session.log)
    && o.session.slot.turns == s.slot.turns && o.session.slot.hardDeadline == s.slot.hardDeadline
  }

  lemma ConfirmKeeps(cfg: Config, s: Session, callId: string, permission: Permission, delivered: bool, now: Instant, feed: seq<Wake>)
    requires Inv(cfg, s) && s.slot.pending.Some? && s.slot.pending.value.Confirm? && s.slot.pending.value.callId == callId
    ensures Resumed(cfg, s, RespondSpec(cfg, s, callId, permission, delivered, now, feed))
  {
    if IsAllow(permission) {
      Snoc(cfg, s.log, Allowed(callId, permission));
    } else {
      AnswerKeeps(cfg, s, s.slot.sendOk, Refusal, DynamicToolResponse(callId, "denied by user", false), delivered, now, feed);
    }
  }

  lemma RespondKeeps(cfg: Config, s: Session, callId: string, permission: Permission, delivered: bool, now: Instant, feed: seq<Wake>)
    requires Inv(cfg, s)
    ensures var o := RespondSpec(cfg, s, callId, permission, delivered, now, feed);
            && Inv(cfg, o.session) && SameTurn(s.log, o.session.log)
            && o.session.slot.turns == s.slot.turns && o.session.slot.hardDeadline == s.slot.hardDeadline
            && (o == Stay(s, Fail(UnknownToolCall(callId))) || Concluded(o))
  {
    if s.slot.pending.Some? && s.slot.pending.value.callId == callId {
      match s.slot.pending.value
      case Confirm(_, _, _, _) => ConfirmKeeps(cfg, s, callId, permission, delivered, now, feed);
      case Execute(_, _, _) =>
      case Exec(id, turnId, _, _, _) =>
        AnswerKeeps(cfg, s, s.slot.sendOk, Verdict(permission), ExecApproval(id, turnId, Review(permission)), delivered, now, feed);
      case Patch(id, _, _, _) =>
        AnswerKeeps(cfg, s, s.slot.sendOk, Verdict(permission), PatchApproval(id, Review(permission)), delivered, now, feed);
    }
  }

  lemma CancelKeeps(cfg: Config, s: Session, delivered: bool)
    requires Inv(cfg, s)
    ensures var o := CancelPendingSpec(s, delivered);
            && Inv(cfg, o.session) && o.session.slot.pending.None? && SameTurn(s.log, o.session.log)
  {
    if s.slot.pending.Some? {
      if s.slot.live.Some? {
        RelievedKeeps(cfg, s, Answered(Cancellation, CancelOp(s.slot.pending.value), delivered));
      } else {
        DropKeeps(cfg, s);
      }
    }
  }

  /** A request that is cancelled or given up leaves an idle slot. */
  lemma RelievedKeeps(cfg: Config, s: Session, e: Entry)
    requires Inv(cfg, s) && s.slot.pending.Some? && Advance(cfg, Scan(cfg, s.log), e).Quiet?
    requires e.Discarded? || (e.Answered? && e.kind.Cancellation?)
    ensures Inv(cfg, Relieved(s, s.slot.sendOk, e)) && SameTurn(s.log, s.log + [e])
  {
    Snoc(cfg, s.log, e);
  }

  lemma DropKeeps(cfg: Config, s: Session)
    requires Inv(cfg, s)
    ensures Inv(cfg, DropPending(s)) && SameTurn(s.log, DropPending(s).log)
  {
    if s.slot.pending.Some? {
      RelievedKeeps(cfg, s, Discarded);
    }
  }

  /** Configuring resets turns, thread and send flag of an idle slot. */
  lemma ConfiguredKeeps(cfg: Config, s: Session, launch: Launch)
    requires Inv(cfg, s) && s.slot.pending.None?
    ensures Inv(cfg, Session(s.slot.(launch := Some(launch), live := None, turns := 0, sendOk := false), s.log + [Configured]))
  {
    Snoc(cfg, s.log, Configured);
  }

  lemma UseCodexKeeps(cfg: Config, s: Session, launch: Launch)
    requires Inv(cfg, s)
    ensures Inv(cfg, UseCodexSpec(s, launch).session)
  {
    DropKeeps(cfg, s);
    ConfiguredKeeps(cfg, DropPending(s), launch);
  }

  /** Every driver call keeps the invariant, whatever the thread, the clock and the caller do. */
  lemma StepKeeps(cfg: Config, s: Session, call: Call)
    requires Inv(cfg, s)
    ensures Inv(cfg, Step(cfg, s, call).session)
  {
    match call
    case UseCodex(launch) => UseCodexKeeps(cfg, s, launch);
    case Prompt(world) => PromptKeeps(cfg, s, world);
    case CompleteTool(callId, output, delivered, now, feed) => CompleteToolKeeps(cfg, s, callId, output, delivered, now, feed);
    case Respond(callId, permission, delivered, now, feed) => RespondKeeps(cfg, s, callId, permission, delivered, now, feed);
    case CancelPending(delivered) => CancelKeeps(cfg, s, delivered);
    case Shutdown => DropKeeps(cfg, s);
  }

  lemma {:induction false} RunKeeps(cfg: Config, calls: seq<Call>)
    ensures Inv(cfg, Run(cfg, calls))
  {
    if calls == [] {
    } else {
      RunKeeps(cfg, calls[..|calls| - 1]);
      StepKeeps(cfg, Run(cfg, calls[..|calls| - 1]), calls[|calls| - 1]);
    }
  }
}

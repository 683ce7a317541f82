/** Turns over whole runs: how many there are, which phase inputs they spell, what their finish reports,
    when they time out, and what text they show. */
module CodexTurns {
  import opened Wrappers
  import opened CodexTypes
  import opened CodexSpec
  import opened CodexRuns
  import opened CodexGate
  import opened SessionPhase

  // ---------------------------------------------------------------- turn count

  /** Between two configurations a slot spends at most `max_turns` turns, and its counter is exact. */
  lemma TurnsBounded(cfg: Config, calls: seq<Call>)
    requires cfg.maxTurns.Some?
    ensures Run(cfg, calls).slot.turns == TurnsSpent(Run(cfg, calls).log) <= cfg.maxTurns.value
  {
    RunKeeps(cfg, calls);
  }

  /** Only a prompt can spend a turn; completions, permission replies, cancels and shutdowns never do. */
  lemma ResumesAreFree(cfg: Config, calls: seq<Call>, call: Call)
    requires !call.Prompt? && !call.UseCodex?
    ensures var s := Run(cfg, calls);
            var t := Step(cfg, s, call).session;
            SameTurn(s.log, t.log) && t.slot.turns == s.slot.turns && t.slot.hardDeadline == s.slot.hardDeadline
  {
    RunKeeps(cfg, calls);
    var s := Run(cfg, calls);
    match call
    case CompleteTool(callId, output, delivered, now, feed) => CompleteToolKeeps(cfg, s, callId, output, delivered, now, feed);
    case Respond(callId, permission, delivered, now, feed) => RespondKeeps(cfg, s, callId, permission, delivered, now, feed);
    case CancelPending(delivered) => CancelKeeps(cfg, s, delivered);
    case Shutdown => DropKeeps(cfg, s);
  }

  // ---------------------------------------------------------------- phases

  /** Every run spells a legal word of the phase machine, and the word's phase is the slot's. */
  lemma RunsAreLegalWords(cfg: Config, calls: seq<Call>)
    ensures Follow(Idle, Word(Run(cfg, calls).log)) == Some(PhaseOf(Run(cfg, calls).slot))
  {
    RunKeeps(cfg, calls);
  }

  /** The phase input with which a call would resume or start the pump. */
  function InputOf(call: Call): PhaseInput
    requires call.Prompt? || call.CompleteTool? || call.Respond?
  {
    if call.Prompt? then PhaseInput.Prompt else PhaseInput.Continue
  }

  /** A call whose phase input is illegal is refused and changes nothing. */
  lemma IllegalIsRefused(cfg: Config, calls: seq<Call>, call: Call)
    requires call.Prompt? || call.CompleteTool? || call.Respond?
    requires Transition(PhaseOf(Run(cfg, calls).slot), InputOf(call)).None?
    ensures Step(cfg, Run(cfg, calls), call).reply.Fail?
    ensures Step(cfg, Run(cfg, calls), call).session == Run(cfg, calls)
  {
  }

  /** A call meant for the slot yields exactly when it leaves a request outstanding, and then describes that
      request; any other call fails and changes nothing. */
  lemma YieldsExactly(cfg: Config, calls: seq<Call>, call: Call)
    requires call.Prompt? || call.CompleteTool? || call.Respond?
    ensures var s := Run(cfg, calls);
            var o := Step(cfg, s, call);
            if MeantFor(s.slot, call) then Concluded(o) else o.reply.Fail? && o.session == s
  {
    RunKeeps(cfg, calls);
    var s := Run(cfg, calls);
    match call
    case Prompt(world) => PromptKeeps(cfg, s, world);
    case CompleteTool(callId, output, delivered, now, feed) =>
      CompleteRefused(cfg, s, call);
      CompleteToolKeeps(cfg, s, callId, output, delivered, now, feed);
    case Respond(callId, permission, delivered, now, feed) =>
      RespondRefused(cfg, s, call);
      RespondKeeps(cfg, s, callId, permission, delivered, now, feed);
  }

  // ---------------------------------------------------------------- visibility

  /** Where the history's turn started, and whether something was sent since. */
  lemma {:induction false} TurnMeans(log: Log) returns (t: nat)
    requires TurnStart(log).Some?
    ensures t < |log| && log[t] == TurnStarted(TurnStart(log).value)
    ensures forall k :: t < k < |log| ==> !OpensTurn(log[k])
    ensures Sent(log) <==> exists i :: t < i < |log| && IsSend(log[i])
  {
    var init, e := log[..|log| - 1], log[|log| - 1];
    if e.TurnStarted? {
      t := |log| - 1;
    } else {
      t := TurnMeans(init);
      assert forall i :: 0 <= i < |init| ==> init[i] == log[i];
      if exists i :: t < i < |log| && IsSend(log[i]) {
        var i :| t < i < |log| && IsSend(log[i]);
        assert i < |init| ==> IsSend(init[i]);
      }
      if Sent(init) {
        var i :| t < i < |init| && IsSend(init[i]);
        assert IsSend(log[i]);
      }
    }
  }

  /** `stop_reason_finished` */
  function StopReason(replied: bool, visible: bool): string {
    if replied then "completed" else if visible then "side_effect" else "empty"
  }

  lemma StartedAt(cfg: Config, s: Session, now: Instant)
    ensures TurnStart(StartTurn(cfg, s, now).log) == Some(now)
  {
    TurnStartSnoc(s.log, TurnStarted(now));
  }

  lemma PumpKeepsTurn(cfg: Config, s: Session, now: Instant, feed: seq<Wake>)
    requires InTurn(cfg, s)
    ensures TurnStart(PumpSession(cfg, s, now, feed).session.log) == TurnStart(s.log)
  {
    PumpSessionKeeps(cfg, s, now, feed);
  }

  lemma SubmitFinish(cfg: Config, s: Session, world: PromptWorld)
    requires Inv(cfg, s) && MayStart(cfg, s.slot) && s.slot.live.Some? && world.submission.Submitted?
    ensures TurnStart(SubmitSpec(cfg, s, world).session.log) == Some(world.now)
  {
    var started := StartTurn(cfg, s, world.now);
    StartEnters(cfg, s, world.now);
    StartedAt(cfg, s, world.now);
    PumpKeepsTurn(cfg, started, world.now, world.feed);
    assert SubmitSpec(cfg, s, world) == PumpSession(cfg, started, world.now, world.feed);
  }

  lemma PromptFinish(cfg: Config, s: Session, world: PromptWorld)
    requires Inv(cfg, s)
    requires PromptSpec(cfg, s, world).reply.Done? && !PromptSpec(cfg, s, world).reply.outcome.Cancelled?
    ensures Concluded(PromptSpec(cfg, s, world))
    ensures TurnStart(PromptSpec(cfg, s, world).session.log) == Some(world.now)
  {
    PromptKeeps(cfg, s, world);
    LiveKeeps(cfg, s, world.start);
    var t := s.(slot := EnsureLiveSpec(s.slot, world.start).0);
    assert PromptSpec(cfg, s, world) == SubmitSpec(cfg, t, world);
    SubmitFinish(cfg, t, world);
  }

  lemma CompleteFinish(cfg: Config, s: Session, call: Call)
    requires Inv(cfg, s) && call.CompleteTool? && Step(cfg, s, call).reply.Done?
    ensures Concluded(Step(cfg, s, call)) && SameTurn(s.log, Step(cfg, s, call).session.log) && TurnStart(s.log).Some?
  {
    CompleteToolKeeps(cfg, s, call.callId, call.output, call.delivered, call.now, call.feed);
  }

  lemma RespondFinish(cfg: Config, s: Session, call: Call)
    requires Inv(cfg, s) && call.Respond? && Step(cfg, s, call).reply.Done?
    ensures Concluded(Step(cfg, s, call)) && SameTurn(s.log, Step(cfg, s, call).session.log) && TurnStart(s.log).Some?
  {
    RespondKeeps(cfg, s, call.callId, call.permission, call.delivered, call.now, call.feed);
  }

  lemma FinishConcludes(cfg: Config, s: Session, call: Call)
    requires Inv(cfg, s) && IsFinish(Step(cfg, s, call).reply)
    ensures Concluded(Step(cfg, s, call)) && TurnStart(Step(cfg, s, call).session.log).Some?
  {
    match call
    case UseCodex(_) =>
    case Prompt(world) => PromptFinish(cfg, s, world);
    case CompleteTool(_, _, _, _, _) => CompleteFinish(cfg, s, call);
    case Respond(_, _, _, _, _) => RespondFinish(cfg, s, call);
    case CancelPending(_) =>
    case Shutdown =>
  }

  /** Some `send_message` went through after the last turn start, at `t`. */
  predicate SentSince(log: Log, t: nat) {
    exists i :: t < i < |log| && IsSend(log[i])
  }

  /** A finish reports the turn as visible exactly when it replied or a `send_message` went through since
      the prompt that started the turn, over any number of yields and resumes. */
  lemma FinishTells(cfg: Config, calls: seq<Call>, call: Call) returns (t: nat)
    requires IsFinish(Step(cfg, Run(cfg, calls), call).reply)
    ensures var o := Step(cfg, Run(cfg, calls), call);
            var log := o.session.log;
            && t < |log| && log[t].TurnStarted? && (forall k :: t < k < |log| ==> !OpensTurn(log[k]))
            && (o.reply.outcome.visible <==> o.reply.outcome.replied || SentSince(log, t))
            && (StopReason(o.reply.outcome.replied, o.reply.outcome.visible) == "completed" <==> o.reply.outcome.replied)
            && (StopReason(o.reply.outcome.replied, o.reply.outcome.visible) == "side_effect"
                <==> SentSince(log, t) && !o.reply.outcome.replied)
  {
    RunKeeps(cfg, calls);
    FinishConcludes(cfg, Run(cfg, calls), call);
    t := TurnMeans(Step(cfg, Run(cfg, calls), call).session.log);
  }

  // ---------------------------------------------------------------- clocks

  /** The last time anything but a token count happened, or the time of arming. */
  function LastActive(armed: Instant, seen: seq<Wake>): Instant {
    if seen == [] then armed
    else
      var w := seen[|seen| - 1];
      if w.Event? && !w.msg.TokenCount? then w.after else LastActive(armed, seen[..|seen| - 1])
  }

  predicate ClockKept(cfg: Config, armed: Instant, p: Pumping) {
    && p.lastActivity == LastActive(armed, p.seen)
    && p.idleDeadline == Deadline(cfg.idle, LastActive(armed, p.seen))
  }

  /** Why a pump that stopped on a timer was right to. */
  predicate TimedRightly(cfg: Config, armed: Instant, hard: Option<Instant>, seen: seq<Wake>, reply: Reply) {
    && (reply == Done(TimedOut(IdleTimeout)) ==>
          && seen != [] && seen[|seen| - 1].IdleTimer? && cfg.idle.Some?
          && LastActive(armed, seen[..|seen| - 1]) + cfg.idle.value <= seen[|seen| - 1].at)
    && (reply.Done? && reply.outcome.TimedOut? && reply.outcome.timeout.HardTimeout? ==>
          && seen != [] && seen[|seen| - 1].HardTimer? && hard.Some? && hard.value <= seen[|seen| - 1].at
          && (reply.outcome.timeout.recentlyActive <==>
                seen[|seen| - 1].at <= LastActive(armed, seen[..|seen| - 1]) + cfg.recentlyActive))
  }

  lemma IterateClock(cfg: Config, armed: Instant, hard: Option<Instant>, p: Pumping, w: Wake)
    requires ClockKept(cfg, armed, p)
    ensures var flow := Iterate(cfg, hard, p, w);
            && flow.p.seen == p.seen + [w]
            && match flow
               case Next(p') => ClockKept(cfg, armed, p')
               case Stop(p', reply) => TimedRightly(cfg, armed, hard, p'.seen, reply)
  {
    if w.Event? {
      HandleClock(cfg, armed, p.(seen := p.seen + [w]), w, p.seen);
      assert (p.seen + [w])[..|p.seen|] == p.seen;
    } else {
      TimerClock(cfg, armed, hard, p, w);
    }
  }

  lemma TimerClock(cfg: Config, armed: Instant, hard: Option<Instant>, p: Pumping, w: Wake)
    requires !w.Event? && ClockKept(cfg, armed, p)
    ensures var flow := Iterate(cfg, hard, p, w);
            && flow.p.seen == p.seen + [w]
            && (flow.Next? ==> ClockKept(cfg, armed, flow.p))
            && (flow.Stop? ==> TimedRightly(cfg, armed, hard, flow.p.seen, flow.reply))
  {
    assert (p.seen + [w])[..|p.seen|] == p.seen;
  }

  predicate IsTimeout(reply: Reply) {
    reply.Done? && reply.outcome.TimedOut?
  }

  /** The clock as it stood before the event that is being worked off. */
  predicate ClockBefore(cfg: Config, armed: Instant, p: Pumping, w: Wake, before: seq<Wake>) {
    p.seen == before + [w] && p.lastActivity == LastActive(armed, before) && p.idleDeadline == Deadline(cfg.idle, LastActive(armed, before))
  }

  /** The clock goes on after the event, and the event is no timeout. */
  predicate ClockAfter(cfg: Config, armed: Instant, p: Pumping, flow: Flow) {
    && flow.p.seen == p.seen
    && (flow.Next? ==> ClockKept(cfg, armed, flow.p))
    && (flow.Stop? ==> !IsTimeout(flow.reply))
  }

  lemma SettleClock(cfg: Config, armed: Instant, p: Pumping, w: Wake, before: seq<Wake>)
    requires w.Event? && ClockBefore(cfg, armed, p, w, before)
    ensures ClockAfter(cfg, armed, p, Settle(cfg, p, w))
  {
    assert p.seen[..|p.seen| - 1] == before;
  }

  lemma EmitClock(cfg: Config, armed: Instant, p: Pumping, w: Wake, before: seq<Wake>, event: HostEvent)
    requires w.Event? && ClockBefore(cfg, armed, p, w, before)
    ensures ClockAfter(cfg, armed, p, Emit(cfg, p, w, event))
  {
    SettleClock(cfg, armed, p.(emitted := p.emitted + [event]), w, before);
  }

  lemma TextClock(cfg: Config, armed: Instant, p: Pumping, w: Wake, before: seq<Wake>)
    requires w.Event? && (w.msg.Delta? || w.msg.Message?) && ClockBefore(cfg, armed, p, w, before)
    ensures ClockAfter(cfg, armed, p, HandleText(cfg, p, w))
  {
    SettleClock(cfg, armed, p, w, before);
    SettleClock(cfg, armed, p.(assistant := w.msg.text), w, before);
    EmitClock(cfg, armed, p.(sawDelta := true, assistant := p.assistant + w.msg.text), w, before, TextDelta(w.msg.text));
    EmitClock(cfg, armed, p.(assistant := w.msg.text), w, before, TextDelta(w.msg.text));
  }

  lemma HandleClock(cfg: Config, armed: Instant, p: Pumping, w: Wake, before: seq<Wake>)
    requires w.Event? && ClockBefore(cfg, armed, p, w, before)
    ensures ClockAfter(cfg, armed, p, Handle(cfg, p, w))
  {
    if w.msg.Delta? || w.msg.Message? {
      TextClock(cfg, armed, p, w, before);
    } else if w.msg.ToolResponse? {
      var q := p.(sendOk := p.sendOk || (w.msg.tool == "send_message" && w.msg.success),
                  log := p.log + [ResponseSeen(w.msg.tool, w.msg.success)]);
      EmitClock(cfg, armed, q, w, before, ToolResult(w.msg.callId, w.msg.tool, w.msg.success));
    } else if Notice(w.msg).Some? {
      EmitClock(cfg, armed, p, w, before, Notice(w.msg).value);
    } else {
      SettleClock(cfg, armed, p, w, before);
    }
  }

  lemma {:induction false} PumpClock(cfg: Config, armed: Instant, hard: Option<Instant>, p: Pumping, feed: seq<Wake>)
    requires ClockKept(cfg, armed, p)
    ensures var flow := Pump(cfg, hard, p, feed);
            TimedRightly(cfg, armed, hard, flow.p.seen, flow.reply)
    decreases |feed|
  {
    if feed == [] {
    } else {
      IterateClock(cfg, armed, hard, p, feed[0]);
      var flow := Iterate(cfg, hard, p, feed[0]);
      if flow.Next? {
        PumpClock(cfg, armed, hard, flow.p, feed[1..]);
      }
    }
  }

  /** When a call arms the clocks. */
  function ArmedAt(call: Call): Instant {
    match call
    case Prompt(world) => world.now
    case CompleteTool(_, _, _, now, _) => now
    case Respond(_, _, _, now, _) => now
    case _ => 0
  }

  /** Time does not run backwards over a feed. */
  predicate Monotone(from: Instant, feed: seq<Wake>) {
    && (forall i :: 0 <= i < |feed| ==> from <= feed[i].at && (feed[i].Event? ==> feed[i].at <= feed[i].after))
    && (forall i, j :: 0 <= i < j < |feed| ==> (if feed[i].Event? then feed[i].after else feed[i].at) <= feed[j].at)
  }

  lemma {:induction false} LastActiveIsLatest(armed: Instant, seen: seq<Wake>, i: nat)
    requires Monotone(armed, seen)
    ensures armed <= LastActive(armed, seen)
    ensures i < |seen| && seen[i].Event? && !seen[i].msg.TokenCount? ==> seen[i].after <= LastActive(armed, seen)
  {
    if seen == [] {
    } else {
      var w := seen[|seen| - 1];
      if !(w.Event? && !w.msg.TokenCount?) {
        LastActiveIsLatest(armed, seen[..|seen| - 1], i);
      } else if i < |seen| - 1 {
        assert seen[i].Event? ==> seen[i].after <= w.at;
      }
    }
  }

  /** A timed-out call belongs to a turn, and its timer was due by that turn's clock. */
  predicate TimedInTurn(cfg: Config, call: Call, o: Outcome) {
    IsTimeout(o.reply) ==>
      && TurnStart(o.session.log).Some?
      && TimedRightly(cfg, ArmedAt(call), Deadline(cfg.hard, TurnStart(o.session.log).value), o.seen, o.reply)
  }

  lemma PumpSessionTimed(cfg: Config, s: Session, now: Instant, feed: seq<Wake>)
    requires InTurn(cfg, s)
    ensures var o := PumpSession(cfg, s, now, feed);
            && TurnStart(o.session.log) == TurnStart(s.log)
            && TimedRightly(cfg, now, Deadline(cfg.hard, TurnStart(s.log).value), o.seen, o.reply)
  {
    PumpSessionKeeps(cfg, s, now, feed);
    PumpClock(cfg, now, s.slot.hardDeadline, Armed(cfg, s, now), feed);
  }

  lemma AnswerTimed(cfg: Config, s: Session, sendOk: bool, kind: AnswerKind, op: Op, delivered: bool, now: Instant, feed: seq<Wake>)
    requires Inv(cfg, s) && s.slot.pending.Some? && !kind.Cancellation?
    requires Permitted(cfg, Scan(cfg, s.log), kind, op)
    requires sendOk == (s.slot.sendOk || IsSend(Answered(kind, op, delivered)))
    ensures var o := AnswerAndPump(cfg, s, sendOk, kind, op, delivered, now, feed);
            IsTimeout(o.reply) ==>
              && TurnStart(o.session.log).Some?
              && TimedRightly(cfg, now, Deadline(cfg.hard, TurnStart(o.session.log).value), o.seen, o.reply)
  {
    var e := Answered(kind, op, delivered);
    Snoc(cfg, s.log, e);
    if delivered {
      PumpSessionTimed(cfg, Session(s.slot.(pending := None, sendOk := sendOk), s.log + [e]), now, feed);
    }
  }

  lemma SubmitTimed(cfg: Config, s: Session, world: PromptWorld)
    requires Inv(cfg, s) && MayStart(cfg, s.slot) && s.slot.live.Some?
    ensures TimedInTurn(cfg, Call.Prompt(world), SubmitSpec(cfg, s, world))
  {
    if world.submission.Submitted? {
      TurnTimed(cfg, s, world);
    }
  }

  lemma TurnTimed(cfg: Config, s: Session, world: PromptWorld)
    requires Inv(cfg, s) && MayStart(cfg, s.slot) && s.slot.live.Some?
    ensures TimedInTurn(cfg, Call.Prompt(world), PumpSession(cfg, StartTurn(cfg, s, world.now), world.now, world.feed))
  {
    var t := StartTurn(cfg, s, world.now);
    StartEnters(cfg, s, world.now);
    PumpSessionTimed(cfg, t, world.now, world.feed);
  }

  lemma PromptTimed(cfg: Config, s: Session, world: PromptWorld)
    requires Inv(cfg, s)
    ensures TimedInTurn(cfg, Call.Prompt(world), PromptSpec(cfg, s, world))
  {
    if MayStart(cfg, s.slot) {
      LiveKeeps(cfg, s, world.start);
      var (slot, failure) := EnsureLiveSpec(s.slot, world.start);
      if failure.None? && !world.cancelled {
        SubmitTimed(cfg, s.(slot := slot), world);
        assert PromptSpec(cfg, s, world) == SubmitSpec(cfg, s.(slot := slot), world);
      }
    }
  }

  lemma CompleteTimed(cfg: Config, s: Session, call: Call)
    requires Inv(cfg, s) && call.CompleteTool?
    ensures TimedInTurn(cfg, call, Step(cfg, s, call))
  {
    if IsTimeout(Step(cfg, s, call).reply) {
      var name := s.slot.pending.value.name;
      var ok := cfg.outputOk(call.output);
      AnswerTimed(cfg, s, s.slot.sendOk || (name == "send_message" && ok), Result(name),
                  DynamicToolResponse(call.callId, call.output, ok), call.delivered, call.now, call.feed);
    }
  }

  lemma RespondTimed(cfg: Config, s: Session, call: Call)
    requires Inv(cfg, s) && call.Respond?
    ensures TimedInTurn(cfg, call, Step(cfg, s, call))
  {
    if IsTimeout(Step(cfg, s, call).reply) {
      match s.slot.pending.value
      case Confirm(id, _, _, _) =>
        AnswerTimed(cfg, s, s.slot.sendOk, Refusal, DynamicToolResponse(id, "denied by user", false), call.delivered, call.now, call.feed);
      case Exec(id, turnId, _, _, _) =>
        AnswerTimed(cfg, s, s.slot.sendOk, Verdict(call.permission), ExecApproval(id, turnId, Review(call.permission)),
                    call.delivered, call.now, call.feed);
      case Patch(id, _, _, _) =>
        AnswerTimed(cfg, s, s.slot.sendOk, Verdict(call.permission), PatchApproval(id, Review(call.permission)),
                    call.delivered, call.now, call.feed);
    }
  }

  lemma StepTimed(cfg: Config, s: Session, call: Call)
    requires Inv(cfg, s)
    ensures TimedInTurn(cfg, call, Step(cfg, s, call))
  {
    match call
    case UseCodex(_) =>
    case Prompt(world) => PromptTimed(cfg, s, world);
    case CompleteTool(_, _, _, _, _) => CompleteTimed(cfg, s, call);
    case Respond(_, _, _, _, _) => RespondTimed(cfg, s, call);
    case CancelPending(_) =>
    case Shutdown =>
  }

  /** A hard timeout never comes before the limit has passed since the prompt that started the turn:
      no resume in between moved the deadline. */
  lemma HardTimeoutIsDue(cfg: Config, calls: seq<Call>, call: Call)
    requires Step(cfg, Run(cfg, calls), call).reply.Done?
    requires Step(cfg, Run(cfg, calls), call).reply.outcome.TimedOut?
    requires Step(cfg, Run(cfg, calls), call).reply.outcome.timeout.HardTimeout?
    ensures var o := Step(cfg, Run(cfg, calls), call);
            && cfg.hard.Some? && TurnStart(o.session.log).Some? && o.seen != []
            && TurnStart(o.session.log).value + cfg.hard.value <= o.seen[|o.seen| - 1].at
  {
    RunKeeps(cfg, calls);
    StepTimed(cfg, Run(cfg, calls), call);
  }

  /** While a request is outstanding the slot's deadline is that of the prompt, whatever was resumed. */
  lemma DeadlineIsThePrompts(cfg: Config, calls: seq<Call>)
    requires Run(cfg, calls).slot.pending.Some?
    ensures var s := Run(cfg, calls);
            TurnStart(s.log).Some? && s.slot.hardDeadline == Deadline(cfg.hard, TurnStart(s.log).value)
  {
    RunKeeps(cfg, calls);
  }

  lemma IdleDue(cfg: Config, armed: Instant, hard: Option<Instant>, seen: seq<Wake>, i: nat)
    requires TimedRightly(cfg, armed, hard, seen, Done(TimedOut(IdleTimeout))) && Monotone(armed, seen)
    ensures && cfg.idle.Some? && seen != []
            && armed + cfg.idle.value <= seen[|seen| - 1].at
            && (i < |seen| && seen[i].Event? && !seen[i].msg.TokenCount? ==>
                  seen[i].after + cfg.idle.value <= seen[|seen| - 1].at)
  {
    LastActiveIsLatest(armed, seen[..|seen| - 1], i);
  }

  /** An idle timeout never comes before the limit has passed since the clocks were armed and since every
      event but a token count, however many token counts arrive in between. */
  lemma IdleTimeoutIsDue(cfg: Config, calls: seq<Call>, call: Call, i: nat)
    requires Step(cfg, Run(cfg, calls), call).reply == Done(TimedOut(IdleTimeout))
    requires Monotone(ArmedAt(call), Step(cfg, Run(cfg, calls), call).seen)
    ensures var seen := Step(cfg, Run(cfg, calls), call).seen;
            && cfg.idle.Some? && seen != []
            && ArmedAt(call) + cfg.idle.value <= seen[|seen| - 1].at
            && (i < |seen| && seen[i].Event? && !seen[i].msg.TokenCount? ==>
                  seen[i].after + cfg.idle.value <= seen[|seen| - 1].at)
  {
    RunKeeps(cfg, calls);
    StepTimed(cfg, Run(cfg, calls), call);
    var o := Step(cfg, Run(cfg, calls), call);
    IdleDue(cfg, ArmedAt(call), Deadline(cfg.hard, TurnStart(o.session.log).value), o.seen, i);
  }

  // ---------------------------------------------------------------- streamed text

  /** What a segment said: the messages before any text was streamed, those after, the streamed pieces,
      and the text since the last whole message, that message included. */
  datatype Tally = Tally(early: string, late: string, deltas: string, assistant: string)

  function Tallied(t: Tally, w: Wake): Tally {
    if !w.Event? then t
    else match w.msg
      case Delta(text) => t.(deltas := t.deltas + text, assistant := t.assistant + text)
      case Message(text) =>
        if text == "" then t
        else if t.deltas == "" then t.(early := t.early + text, assistant := text)
        else t.(late := t.late + text, assistant := text)
      case _ => t
  }

  function Said(seen: seq<Wake>): Tally {
    if seen == [] then Tally("", "", "", "") else Tallied(Said(seen[..|seen| - 1]), seen[|seen| - 1])
  }

  /** All messages of a segment, one after the other. */
  function Messages(seen: seq<Wake>): string {
    if seen == [] then ""
    else
      var w := seen[|seen| - 1];
      Messages(seen[..|seen| - 1]) + if w.Event? && w.msg.Message? then w.msg.text else ""
  }

  function Shown(emitted: seq<HostEvent>): string {
    if emitted == [] then ""
    else
      var e := emitted[|emitted| - 1];
      Shown(emitted[..|emitted| - 1]) + if e.TextDelta? then e.delta else ""
  }

  /** What was shown so far, and the pump's locals, for a segment that said `t`. */
  predicate TextKept(t: Tally, p: Pumping) {
    && Shown(p.emitted) == t.early + t.deltas
    && (p.sawDelta <==> t.deltas != "")
    && p.assistant == t.assistant
  }

  lemma ShownSnoc(emitted: seq<HostEvent>, e: HostEvent)
    ensures Shown(emitted + [e]) == Shown(emitted) + if e.TextDelta? then e.delta else ""
  {
    assert (emitted + [e])[..|emitted|] == emitted;
  }

  lemma SaidSnoc(seen: seq<Wake>, w: Wake)
    ensures Said(seen + [w]) == Tallied(Said(seen), w)
    ensures Messages(seen + [w]) == Messages(seen) + if w.Event? && w.msg.Message? then w.msg.text else ""
  {
    assert (seen + [w])[..|seen|] == seen;
  }

  lemma DeltaKept(cfg: Config, t: Tally, p: Pumping, w: Wake)
    requires w.Event? && w.msg.Delta? && TextKept(t, p)
    ensures var flow := HandleText(cfg, p, w);
            flow.Next? || flow.reply.Done? ==> TextKept(Tallied(t, w), flow.p)
  {
    if w.msg.text != "" {
      ShownSnoc(p.emitted, TextDelta(w.msg.text));
      assert t.early + (t.deltas + w.msg.text) == (t.early + t.deltas) + w.msg.text;
    } else {
      assert t.deltas + "" == t.deltas && t.assistant + "" == t.assistant;
    }
  }

  lemma MessageKept(cfg: Config, t: Tally, p: Pumping, w: Wake)
    requires w.Event? && w.msg.Message? && TextKept(t, p)
    ensures var flow := HandleText(cfg, p, w);
            flow.Next? || flow.reply.Done? ==> TextKept(Tallied(t, w), flow.p)
  {
    if t.deltas == "" {
      ShownSnoc(p.emitted, TextDelta(w.msg.text));
      assert t.early + "" == t.early && (t.early + w.msg.text) + "" == t.early + w.msg.text;
    }
  }

  lemma EmitTextKept(cfg: Config, t: Tally, p: Pumping, w: Wake, event: HostEvent)
    requires w.Event? && TextKept(t, p) && !event.TextDelta?
    ensures var flow := Emit(cfg, p, w, event);
            flow.Next? || flow.reply.Done? ==> TextKept(t, flow.p)
  {
    ShownSnoc(p.emitted, event);
  }

  lemma HandleKept(cfg: Config, t: Tally, p: Pumping, w: Wake)
    requires w.Event? && TextKept(t, p)
    ensures var flow := Handle(cfg, p, w);
            flow.Next? || flow.reply.Done? ==> TextKept(Tallied(t, w), flow.p)
  {
    if w.msg.Delta? {
      DeltaKept(cfg, t, p, w);
    } else if w.msg.Message? {
      MessageKept(cfg, t, p, w);
    } else if w.msg.ToolResponse? {
      var q := p.(sendOk := p.sendOk || (w.msg.tool == "send_message" && w.msg.success),
                  log := p.log + [ResponseSeen(w.msg.tool, w.msg.success)]);
      EmitTextKept(cfg, t, q, w, ToolResult(w.msg.callId, w.msg.tool, w.msg.success));
    } else if Notice(w.msg).Some? {
      EmitTextKept(cfg, t, p, w, Notice(w.msg).value);
    }
  }

  lemma HandleSeen(cfg: Config, p: Pumping, w: Wake)
    requires w.Event?
    ensures Handle(cfg, p, w).p.seen == p.seen
  {
    var parked := w.msg.IsRequest() || Ending(p, w.msg).Some?;
    if !parked && (w.msg.Delta? || w.msg.Message?) {
      assert HandleText(cfg, p, w).p.seen == p.seen;
    } else if !parked && w.msg.ToolResponse? {
      assert HandleResponse(cfg, p, w).p.seen == p.seen;
    }
  }

  lemma IterateText(cfg: Config, hard: Option<Instant>, p: Pumping, w: Wake)
    requires TextKept(Said(p.seen), p)
    ensures var flow := Iterate(cfg, hard, p, w);
            && flow.p.seen == p.seen + [w]
            && (flow.Next? || flow.reply.Done? ==> TextKept(Said(flow.p.seen), flow.p))
  {
    var q := p.(seen := p.seen + [w]);
    assert Said(q.seen) == Tallied(Said(p.seen), w) by {
      SaidSnoc(p.seen, w);
    }
    if w.Event? {
      HandleKept(cfg, Said(p.seen), q, w);
      HandleSeen(cfg, q, w);
    }
  }

  lemma {:induction false} PumpText(cfg: Config, hard: Option<Instant>, p: Pumping, feed: seq<Wake>)
    requires TextKept(Said(p.seen), p)
    ensures var flow := Pump(cfg, hard, p, feed);
            flow.reply.Done? ==> TextKept(Said(flow.p.seen), flow.p)
    decreases |feed|
  {
    if feed == [] {
    } else {
      IterateText(cfg, hard, p, feed[0]);
      var flow := Iterate(cfg, hard, p, feed[0]);
      if flow.Next? {
        PumpText(cfg, hard, flow.p, feed[1..]);
      }
    }
  }

  lemma TalliedSplits(t: Tally, w: Wake)
    requires t.deltas == "" ==> t.late == ""
    ensures var after := Tallied(t, w);
            && (after.deltas == "" ==> after.late == "")
            && after.early + after.late == (t.early + t.late) + if w.Event? && w.msg.Message? then w.msg.text else ""
  {
    if w.Event? && w.msg.Message? && t.deltas == "" {
      assert t.early + "" == t.early && (t.early + w.msg.text) + "" == t.early + w.msg.text;
    } else if w.Event? && w.msg.Message? {
      assert t.early + (t.late + w.msg.text) == (t.early + t.late) + w.msg.text;
    }
  }

  lemma {:induction false} MessagesSplit(seen: seq<Wake>)
    ensures Messages(seen) == Said(seen).early + Said(seen).late
    ensures Said(seen).deltas == "" ==> Said(seen).late == ""
  {
    if seen == [] {
    } else {
      MessagesSplit(seen[..|seen| - 1]);
      TalliedSplits(Said(seen[..|seen| - 1]), seen[|seen| - 1]);
    }
  }

  /** The text a pump segment shows is the text of its messages exactly when the messages after the first
      streamed piece amount to what was streamed: once something was streamed, a whole message is no
      longer shown. */
  lemma ShownExactly(cfg: Config, s: Session, now: Instant, feed: seq<Wake>)
    requires PumpSession(cfg, s, now, feed).reply.Done?
    ensures var o := PumpSession(cfg, s, now, feed);
            Shown(o.emitted) == Messages(o.seen) <==> Said(o.seen).late == Said(o.seen).deltas
  {
    PumpText(cfg, s.slot.hardDeadline, Armed(cfg, s, now), feed);
    var o := PumpSession(cfg, s, now, feed);
    MessagesSplit(o.seen);
    SamePrefix(Said(o.seen).early, Said(o.seen).late, Said(o.seen).deltas);
  }

  lemma SamePrefix(a: string, b: string, c: string)
    ensures a + b == a + c <==> b == c
  {
    if a + b == a + c {
      assert (a + b)[|a|..] == b;
      assert (a + c)[|a|..] == c;
    }
  }

  /** Every message is the concatenation of the pieces streamed since the message before it. */
  predicate AllStreamed(seen: seq<Wake>) {
    || seen == []
    || (var init, w := seen[..|seen| - 1], seen[|seen| - 1];
        && AllStreamed(init)
        && (w.Event? && w.msg.Message? ==> Messages(seen) == Said(seen).deltas))
  }

  lemma {:induction false} StreamedEarly(seen: seq<Wake>)
    requires AllStreamed(seen)
    ensures Said(seen).early == ""
  {
    if seen == [] {
    } else {
      StreamedEarly(seen[..|seen| - 1]);
      MessagesSplit(seen[..|seen| - 1]);
    }
  }

  /** A segment streamed throughout and up to its last message, or not streamed at all, shows exactly its
      messages. */
  lemma UniformSegmentsShowTheirMessages(cfg: Config, s: Session, now: Instant, feed: seq<Wake>)
    requires PumpSession(cfg, s, now, feed).reply.Done?
    requires var seen := PumpSession(cfg, s, now, feed).seen;
             Said(seen).deltas == "" || (AllStreamed(seen) && Messages(seen) == Said(seen).deltas)
    ensures var o := PumpSession(cfg, s, now, feed);
            Shown(o.emitted) == Messages(o.seen)
  {
    var o := PumpSession(cfg, s, now, feed);
    ShownExactly(cfg, s, now, feed);
    MessagesSplit(o.seen);
    if Said(o.seen).deltas != "" {
      StreamedEarly(o.seen);
    }
  }

  lemma PumpNext(cfg: Config, hard: Option<Instant>, p: Pumping, w: Wake, rest: seq<Wake>)
    ensures var flow := Iterate(cfg, hard, p, w);
            Pump(cfg, hard, p, [w] + rest) == if flow.Next? then Pump(cfg, hard, flow.p, rest) else flow
  {
    assert ([w] + rest)[1..] == rest;
  }

  predicate Says(w: Wake, msg: EventMsg) {
    w.Event? && w.emitOk && w.msg == msg
  }

  lemma MixedStep(cfg: Config, hard: Option<Instant>, p: Pumping, w: Wake, rest: seq<Wake>) returns (p': Pumping)
    requires w.Event? && w.emitOk && (w.msg.Delta? || w.msg.Message?) && TextKept(Said(p.seen), p)
    ensures p'.seen == p.seen + [w] && TextKept(Said(p'.seen), p')
    ensures Pump(cfg, hard, p, [w] + rest) == Pump(cfg, hard, p', rest)
    ensures Said(p'.seen) == Tallied(Said(p.seen), w)
    ensures Messages(p'.seen) == Messages(p.seen) + if w.msg.Message? then w.msg.text else ""
  {
    p' := Iterate(cfg, hard, p, w).p;
    IterateText(cfg, hard, p, w);
    PumpNext(cfg, hard, p, w, rest);
    SaidSnoc(p.seen, w);
  }

  lemma CompletionStops(cfg: Config, hard: Option<Instant>, p: Pumping, w: Wake)
    requires w.Event? && w.msg == TurnComplete(None, None)
    ensures var flow := Iterate(cfg, hard, p, w);
            flow.Stop? && flow.p.emitted == p.emitted && flow.p.seen == p.seen + [w]
  {
  }

  lemma MixedEnd(cfg: Config, hard: Option<Instant>, p: Pumping, w: Wake)
    requires w.Event? && w.msg == TurnComplete(None, None) && TextKept(Said(p.seen), p)
    ensures var flow := Pump(cfg, hard, p, [w] + []);
            && Shown(flow.p.emitted) == Said(p.seen).early + Said(p.seen).deltas
            && Messages(flow.p.seen) == Messages(p.seen)
  {
    PumpNext(cfg, hard, p, w, []);
    CompletionStops(cfg, hard, p, w);
    SaidSnoc(p.seen, w);
  }

  lemma MixedSteps(cfg: Config, hard: Option<Instant>, p: Pumping, a: string, b: string, w0: Wake, w1: Wake, w2: Wake, rest: seq<Wake>)
    returns (p': Pumping)
    requires TextKept(Said(p.seen), p) && p.seen == [] && a != "" && b != ""
    requires Says(w0, Delta(a)) && Says(w1, Message(a)) && Says(w2, Message(b))
    ensures Pump(cfg, hard, p, [w0] + ([w1] + ([w2] + rest))) == Pump(cfg, hard, p', rest)
    ensures TextKept(Said(p'.seen), p') && Said(p'.seen).early == "" && Said(p'.seen).deltas == a
    ensures Messages(p'.seen) == a + b
  {
    var p1 := MixedStep(cfg, hard, p, w0, [w1] + ([w2] + rest));
    var p2 := MixedStep(cfg, hard, p1, w1, [w2] + rest);
    p' := MixedStep(cfg, hard, p2, w2, rest);
  }

  /** A message that was not streamed, after one that was, is not shown. */
  lemma MixedSegmentHidesAMessage(cfg: Config, s: Session, now: Instant, a: string, b: string, w0: Wake, w1: Wake, w2: Wake, w3: Wake)
    requires a != "" && b != ""
    requires Says(w0, Delta(a)) && Says(w1, Message(a)) && Says(w2, Message(b)) && Says(w3, TurnComplete(None, None))
    ensures var o := PumpSession(cfg, s, now, [w0] + ([w1] + ([w2] + ([w3] + []))));
            Shown(o.emitted) == a && Messages(o.seen) == a + b
  {
    var hard := s.slot.hardDeadline;
    var p := MixedSteps(cfg, hard, Armed(cfg, s, now), a, b, w0, w1, w2, [w3] + []);
    MixedEnd(cfg, hard, p, w3);
  }

  /** The last event was the turn's completion, and this is the text it amounts to. */
  predicate FinishText(seen: seq<Wake>, text: string) {
    && seen != [] && seen[|seen| - 1].Event? && seen[|seen| - 1].msg.TurnComplete?
    && text == if Gives(seen[|seen| - 1]) then seen[|seen| - 1].msg.lastMessage.value else Said(seen).assistant
  }

  /** The turn's completion carries a text of its own. */
  predicate Gives(w: Wake)
    requires w.Event? && w.msg.TurnComplete?
  {
    w.msg.lastMessage.Some? && w.msg.lastMessage.value != ""
  }

  /** The streamed pieces of a segment, one after the other. */
  function Streamed(seen: seq<Wake>): string {
    if seen == [] then ""
    else
      var w := seen[|seen| - 1];
      Streamed(seen[..|seen| - 1]) + if w.Event? && w.msg.Delta? then w.msg.text else ""
  }

  predicate IsMessage(w: Wake) {
    w.Event? && w.msg.Message? && w.msg.text != ""
  }

  predicate LastMessage(seen: seq<Wake>, i: nat) {
    i < |seen| && IsMessage(seen[i]) && forall j :: i < j < |seen| ==> !IsMessage(seen[j])
  }

  lemma {:induction false} StreamedIsTallied(seen: seq<Wake>)
    ensures Streamed(seen) == Said(seen).deltas
  {
    if seen == [] {
    } else {
      StreamedIsTallied(seen[..|seen| - 1]);
    }
  }

  lemma {:induction false} StreamedSplit(seen: seq<Wake>, n: nat)
    requires n <= |seen|
    ensures Streamed(seen) == Streamed(seen[..n]) + Streamed(seen[n..])
  {
    if n == |seen| {
      assert seen[..n] == seen && seen[n..] == [];
    } else {
      var init := seen[..|seen| - 1];
      StreamedSplit(init, n);
      assert init[..n] == seen[..n] && init[n..] == seen[n..][..|seen| - n - 1];
    }
  }

  lemma TalliedAssistant(before: Tally, w: Wake)
    requires !IsMessage(w)
    ensures Tallied(before, w).assistant == before.assistant + if w.Event? && w.msg.Delta? then w.msg.text else ""
  {
  }

  /** What the tally holds at the end: the last message and the pieces streamed after it. */
  lemma {:induction false} AssistantIs(seen: seq<Wake>, i: nat)
    requires LastMessage(seen, i)
    ensures Said(seen).assistant == seen[i].msg.text + Streamed(seen[i + 1..])
  {
    if i == |seen| - 1 {
      assert seen[i + 1..] == [];
    } else {
      var init := seen[..|seen| - 1];
      assert forall j :: 0 <= j < |init| ==> init[j] == seen[j];
      AssistantIs(init, i);
      TalliedAssistant(Said(init), seen[|seen| - 1]);
      assert init[i + 1..] == seen[i + 1..][..|seen| - i - 2];
    }
  }

  /** Without a message: all the pieces streamed. */
  lemma {:induction false} AssistantWithout(seen: seq<Wake>)
    requires forall j :: 0 <= j < |seen| ==> !IsMessage(seen[j])
    ensures Said(seen).assistant == Streamed(seen)
  {
    if seen == [] {
    } else {
      AssistantWithout(seen[..|seen| - 1]);
    }
  }

  /** The text a completed segment reports: the one its completion carries, or else the last message and what
      was streamed behind it, or else all that was streamed. */
  ghost predicate Reports(seen: seq<Wake>, text: string) {
    && seen != [] && seen[|seen| - 1].Event? && seen[|seen| - 1].msg.TurnComplete?
    && (Gives(seen[|seen| - 1]) ==> text == seen[|seen| - 1].msg.lastMessage.value)
    && (!Gives(seen[|seen| - 1]) ==>
          && (forall i: nat :: LastMessage(seen, i) ==> text == seen[i].msg.text + Streamed(seen[i + 1..]))
          && ((forall j :: 0 <= j < |seen| ==> !IsMessage(seen[j])) ==> text == Streamed(seen)))
  }

  lemma FinishTextByPosition(seen: seq<Wake>, text: string)
    requires FinishText(seen, text)
    ensures Reports(seen, text)
  {
    forall i: nat | LastMessage(seen, i)
      ensures Said(seen).assistant == seen[i].msg.text + Streamed(seen[i + 1..])
    {
      AssistantIs(seen, i);
    }
    if forall j :: 0 <= j < |seen| ==> !IsMessage(seen[j]) {
      AssistantWithout(seen);
    }
  }

  /** A finish reports the text of its completion, or of its last message, in that order. */
  lemma FallbackText(cfg: Config, s: Session, now: Instant, feed: seq<Wake>)
    requires IsFinish(PumpSession(cfg, s, now, feed).reply)
    ensures var o := PumpSession(cfg, s, now, feed);
            Reports(o.seen, o.reply.outcome.text)
  {
    PumpFinish(cfg, s.slot.hardDeadline, Armed(cfg, s, now), feed);
    var o := PumpSession(cfg, s, now, feed);
    FinishTextByPosition(o.seen, o.reply.outcome.text);
  }

  lemma {:induction false} AllStreamedPrefix(seen: seq<Wake>, n: nat)
    requires AllStreamed(seen) && n <= |seen|
    ensures AllStreamed(seen[..n])
  {
    if n == |seen| {
      assert seen[..n] == seen;
    } else {
      AllStreamedPrefix(seen[..|seen| - 1], n);
      assert seen[..|seen| - 1][..n] == seen[..n];
    }
  }

  lemma {:induction false} MessagesUpTo(seen: seq<Wake>, n: nat)
    requires n <= |seen| && forall j :: n <= j < |seen| ==> !IsMessage(seen[j])
    ensures Messages(seen) == Messages(seen[..n])
  {
    if n == |seen| {
      assert seen[..n] == seen;
    } else {
      MessagesUpTo(seen[..|seen| - 1], n);
      assert seen[..|seen| - 1][..n] == seen[..n];
    }
  }

  /** In a segment streamed up to its last message, or not at all, nothing is streamed behind that message. */
  lemma NothingStreamedBehind(seen: seq<Wake>, i: nat)
    requires LastMessage(seen, i)
    requires Said(seen).deltas == "" || (AllStreamed(seen) && Messages(seen) == Said(seen).deltas)
    ensures Streamed(seen[i + 1..]) == ""
  {
    StreamedIsTallied(seen);
    StreamedSplit(seen, i + 1);
    if Said(seen).deltas != "" {
      var upTo := seen[..i + 1];
      AllStreamedPrefix(seen, i + 1);
      StreamedIsTallied(upTo);
      MessagesUpTo(seen, i + 1);
      assert upTo[|upTo| - 1] == seen[i];
      assert |Streamed(seen)| == |Streamed(upTo)|;
    }
  }

  /** So under the condition that shows exactly the messages, the fallback text is the last message. */
  lemma FallbackIsTheLastMessage(cfg: Config, s: Session, now: Instant, feed: seq<Wake>, i: nat)
    requires IsFinish(PumpSession(cfg, s, now, feed).reply)
    requires var seen := PumpSession(cfg, s, now, feed).seen;
             && LastMessage(seen, i)
             && (Said(seen).deltas == "" || (AllStreamed(seen) && Messages(seen) == Said(seen).deltas))
    ensures var o := PumpSession(cfg, s, now, feed);
            var last := o.seen[|o.seen| - 1];
            last.Event? && last.msg.TurnComplete? && (!Gives(last) ==> o.reply.outcome.text == o.seen[i].msg.text)
  {
    FallbackText(cfg, s, now, feed);
    NothingStreamedBehind(PumpSession(cfg, s, now, feed).seen, i);
  }

  lemma OthersDoNotFinish(cfg: Config, p: Pumping, w: Wake)
    requires w.Event? && !w.msg.IsRequest() && Ending(p, w.msg).None?
    ensures Handle(cfg, p, w).Stop? ==> !IsFinish(Handle(cfg, p, w).reply)
  {
    if w.msg.Delta? || w.msg.Message? {
      assert HandleText(cfg, p, w).Stop? ==> !IsFinish(HandleText(cfg, p, w).reply);
    } else if w.msg.ToolResponse? {
      assert HandleResponse(cfg, p, w).Stop? ==> !IsFinish(HandleResponse(cfg, p, w).reply);
    }
  }

  /** Only a turn's completion finishes it. */
  lemma HandleFinish(cfg: Config, p: Pumping, w: Wake)
    requires w.Event? && Handle(cfg, p, w).Stop? && IsFinish(Handle(cfg, p, w).reply)
    ensures w.msg.TurnComplete? && Handle(cfg, p, w) == Halt(p, Ending(p, w.msg).value)
  {
    if !w.msg.IsRequest() && Ending(p, w.msg).None? {
      OthersDoNotFinish(cfg, p, w);
    }
  }

  lemma IterateFinish(cfg: Config, hard: Option<Instant>, p: Pumping, w: Wake)
    requires TextKept(Said(p.seen), p)
    requires Iterate(cfg, hard, p, w).Stop? && IsFinish(Iterate(cfg, hard, p, w).reply)
    ensures var flow := Iterate(cfg, hard, p, w);
            FinishText(flow.p.seen, flow.reply.outcome.text)
  {
    SaidSnoc(p.seen, w);
    if w.Event? {
      HandleFinish(cfg, p.(seen := p.seen + [w]), w);
    }
  }

  lemma {:induction false} PumpFinish(cfg: Config, hard: Option<Instant>, p: Pumping, feed: seq<Wake>)
    requires TextKept(Said(p.seen), p) && IsFinish(Pump(cfg, hard, p, feed).reply)
    ensures var flow := Pump(cfg, hard, p, feed);
            FinishText(flow.p.seen, flow.reply.outcome.text)
    decreases |feed|
  {
    IterateText(cfg, hard, p, feed[0]);
    var flow := Iterate(cfg, hard, p, feed[0]);
    if flow.Next? {
      PumpFinish(cfg, hard, flow.p, feed[1..]);
    } else {
      IterateFinish(cfg, hard, p, feed[0]);
    }
  }
}

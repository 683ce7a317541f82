/** Runs of the driver, one call after the other, are schedules of the interleaved model: what is proved of all
    schedules is proved of the driver. */
module DriverSchedules {
  import opened HostTypes
  import opened Wrappers
  import opened CodexTypes
  import D = CodexSpec
  import R = CodexRuns
  import opened CodexAnswers
  import opened CodexStarts
  import opened PromptInterleaving
  import opened PromptSchedules
  import opened ThreadRace
  import opened CarelessResets
  import opened UnreadTurns

  /** World and slot agree: options, thread, request and turns; no prompt is in flight between two calls. */
  predicate Mirrors(w: World, slot: Slot) {
    && (w.launched <==> slot.launch.Some?)
    && (w.live.Some? <==> slot.live.Some?)
    && (w.pending.Some? <==> slot.pending.Some?) && (w.pending.Some? ==> w.pending.value.callId == slot.pending.value.View().callId)
    && w.turns == slot.turns
    && w.tasks == map[]
  }

  /** How the pump left the turn. */
  function EndingOf(slot: Slot): Ending {
    if slot.pending.Some? then Parked(slot.pending.value.View().callId) else Over
  }

  /** The prompt has its thread, whatever it did to get it; nothing else that the slot shows has changed. */
  predicate HasThread(before: World, w: World) {
    && w.launched == before.launched && w.live.Some? && w.pending == before.pending && w.turns == before.turns
    && w.tasks == map[0 := Ready(w.live.value)]
  }

  lemma TakesThread(limits: Limits, acts: seq<Act>) returns (acts': seq<Act>)
    requires Possible(limits, acts) && After(acts).tasks == map[] && After(acts).pending.None?
    requires After(acts).launched || After(acts).live.Some?
    requires limits.sessions > 0 && After(acts).turns < limits.maxTurns
    ensures Possible(limits, acts') && HasThread(After(acts), After(acts'))
  {
    if After(acts).live.Some? {
      acts' := NewcomerTakes(limits, acts, 0);
    } else {
      acts' := NewcomerReady(limits, acts, 0);
    }
    assert After(acts').tasks == map[0 := Ready(After(acts').live.value)];
  }

  lemma GivesUp(limits: Limits, before: World, acts: seq<Act>) returns (acts': seq<Act>)
    requires Possible(limits, acts) && HasThread(before, After(acts))
    ensures Possible(limits, acts') && After(acts') == After(acts).(tasks := map[])
  {
    acts' := Do(limits, acts, Reject(0));
    assert After(acts').tasks == map[];
  }

  /** The thread is idle, or goes idle, and takes the turn. */
  lemma RunsTurn(limits: Limits, before: World, acts: seq<Act>, how: Ending) returns (acts': seq<Act>)
    requires Possible(limits, acts) && HasThread(before, After(acts)) && before.pending.None?
    ensures Possible(limits, acts')
    ensures var w := After(acts');
            && w.launched == before.launched && w.live.Some? && w.tasks == map[]
            && w.turns == D.SaturatingSucc(before.turns)
            && w.pending == if how.Parked? then Some(Request(w.live.value, how.callId)) else None
  {
    var thread := After(acts).live.value;
    acts' := Do(limits, acts, GoIdle(thread));
    acts' := Do(limits, acts', Accept(0));
    acts' := Do(limits, acts', RunTurn(0, how));
    assert After(acts').tasks == map[];
  }

  /** Without options, or where starting fails, the prompt goes away. */
  lemma FindsNone(limits: Limits, acts: seq<Act>) returns (acts': seq<Act>)
    requires Possible(limits, acts) && After(acts).tasks == map[] && After(acts).pending.None? && After(acts).live.None?
    requires limits.sessions > 0 && After(acts).turns < limits.maxTurns
    ensures Possible(limits, acts') && After(acts') == After(acts)
  {
    acts' := LookInVain(limits, acts, 0);
    acts' := Do(limits, acts', ReadLaunch(0));
    if After(acts).launched {
      acts' := Do(limits, acts', StartFails(0));
    }
    assert After(acts').tasks == After(acts).tasks;
  }

  lemma PromptMirrored(cfg: Config, limits: Limits, calls: seq<Call>, world: PromptWorld, acts: seq<Act>) returns (acts': seq<Act>)
    requires cfg.maxTurns == Some(limits.maxTurns) && limits.sessions > 0
    requires Possible(limits, acts) && Mirrors(After(acts), D.Run(cfg, calls).slot)
    ensures Possible(limits, acts')
    ensures Mirrors(After(acts'), D.Step(cfg, D.Run(cfg, calls), Call.Prompt(world)).session.slot)
  {
    var s, o := D.Run(cfg, calls), D.Step(cfg, D.Run(cfg, calls), Call.Prompt(world));
    var t := PromptStartsExactly(cfg, calls, world);
    R.RunKeeps(cfg, calls);
    acts' := acts;
    if HasTurnLeft(cfg, s) {
      if s.slot.live.Some? || (s.slot.launch.Some? && world.start.Started?) {
        acts' := TakesThread(limits, acts);
        if Starts(cfg, s, world) {
          PumpKeepsSlot(cfg, t, world.now, world.feed);
          acts' := RunsTurn(limits, After(acts), acts', EndingOf(o.session.slot));
        } else {
          UnstartedKeepsThread(cfg, s, world);
          acts' := GivesUp(limits, After(acts), acts');
        }
      } else {
        acts' := FindsNone(limits, acts);
      }
    }
  }

  lemma PumpKeepsSlot(cfg: Config, t: Session, now: Instant, feed: seq<Wake>)
    ensures var slot := D.PumpSession(cfg, t, now, feed).session.slot;
            slot == t.slot.(pending := slot.pending, sendOk := slot.sendOk)
  {
  }

  /** A prompt that found its thread leaves it live, even where it starts no turn. */
  lemma UnstartedKeepsThread(cfg: Config, s: Session, world: PromptWorld)
    requires R.Inv(cfg, s) && HasTurnLeft(cfg, s) && !Starts(cfg, s, world)
    requires s.slot.live.Some? || (s.slot.launch.Some? && world.start.Started?)
    ensures D.PromptSpec(cfg, s, world).session.slot.live.Some?
  {
    TurnLeftExactly(cfg, s);
  }

  /** A call sends its answer and pumps on, or gives the request up without a pump; or it leaves the request alone. */
  lemma AnswerMirrored(limits: Limits, acts: seq<Act>, before: Slot, call: Call, after: Slot) returns (acts': seq<Act>)
    requires Possible(limits, acts) && Mirrors(After(acts), before) && AnsweredSlot(before, call, after)
    ensures Possible(limits, acts') && Mirrors(After(acts'), after)
  {
    acts' := acts;
    if Answering(before, call) {
      if call.delivered && !call.CancelPending? {
        acts' := Do(limits, acts, Resolve(EndingOf(after)));
      } else {
        acts' := Do(limits, acts, Drop);
      }
    }
  }

  /** What such a call does to the slot. */
  predicate AnsweredSlot(before: Slot, call: Call, after: Slot) {
    && (call.CompleteTool? || call.Respond? || call.CancelPending?)
    && after.launch == before.launch && after.live == before.live && after.turns == before.turns
    && (before.pending.Some? ==> before.live.Some?)
    && (Answering(before, call) ==> (call.delivered && !call.CancelPending?) || after.pending.None?)
    && (!Answering(before, call) ==> (after.pending.Some? <==> before.pending.Some?))
    && (!Answering(before, call) && after.pending.Some? ==> after.pending.value.View().callId == before.pending.value.View().callId)
  }

  lemma PumpedSlot(cfg: Config, s: Session, sendOk: bool, kind: AnswerKind, op: Op, delivered: bool, now: Instant, feed: seq<Wake>)
    ensures var slot := D.AnswerAndPump(cfg, s, sendOk, kind, op, delivered, now, feed).session.slot;
            && slot.launch == s.slot.launch && slot.live == s.slot.live && slot.turns == s.slot.turns
            && (delivered || slot.pending.None?)
  {
  }

  lemma CompletesSlot(cfg: Config, s: Session, call: Call)
    requires R.Inv(cfg, s) && call.CompleteTool?
    ensures AnsweredSlot(s.slot, call, D.Step(cfg, s, call).session.slot)
  {
    if Answering(s.slot, call) {
      var name := s.slot.pending.value.name;
      var ok := cfg.outputOk(call.output);
      PumpedSlot(cfg, s, s.slot.sendOk || (name == "send_message" && ok), Result(name),
                 DynamicToolResponse(call.callId, call.output, ok), call.delivered, call.now, call.feed);
    }
  }

  lemma RespondsSlot(cfg: Config, s: Session, call: Call)
    requires R.Inv(cfg, s) && call.Respond?
    ensures AnsweredSlot(s.slot, call, D.Step(cfg, s, call).session.slot)
  {
    if Answering(s.slot, call) {
      var kind, op := Refusal, DynamicToolResponse(call.callId, "denied by user", false);
      match s.slot.pending.value {
        case Confirm(_, _, _, _) =>
        case Exec(id, turnId, _, _, _) => kind, op := Verdict(call.permission), ExecApproval(id, turnId, D.Review(call.permission));
        case Patch(id, _, _, _) => kind, op := Verdict(call.permission), PatchApproval(id, D.Review(call.permission));
      }
      PumpedSlot(cfg, s, s.slot.sendOk, kind, op, call.delivered, call.now, call.feed);
    }
  }

  lemma AnswersSlot(cfg: Config, s: Session, call: Call)
    requires R.Inv(cfg, s) && (call.CompleteTool? || call.Respond? || call.CancelPending?)
    ensures AnsweredSlot(s.slot, call, D.Step(cfg, s, call).session.slot)
  {
    match call
    case CompleteTool(_, _, _, _, _) => CompletesSlot(cfg, s, call);
    case Respond(_, _, _, _, _) => RespondsSlot(cfg, s, call);
    case CancelPending(_) =>
  }

  lemma StepMirrored(cfg: Config, limits: Limits, calls: seq<Call>, call: Call, acts: seq<Act>) returns (acts': seq<Act>)
    requires cfg.maxTurns == Some(limits.maxTurns) && limits.sessions > 0
    requires Possible(limits, acts) && Mirrors(After(acts), D.Run(cfg, calls).slot)
    ensures Possible(limits, acts') && Mirrors(After(acts'), D.Step(cfg, D.Run(cfg, calls), call).session.slot)
  {
    var s, after := D.Run(cfg, calls), D.Step(cfg, D.Run(cfg, calls), call).session;
    acts' := acts;
    match call {
      case UseCodex(launch) =>
        ConfiguredExactly(cfg, calls, launch);
        if Accepted(launch) {
          acts' := Do(limits, acts, Configure);
        }
      case Prompt(world) =>
        acts' := PromptMirrored(cfg, limits, calls, world, acts);
      case Shutdown =>
        ClosedExactly(cfg, calls);
        acts' := Do(limits, acts, Close);
      case _ =>
        R.RunKeeps(cfg, calls);
        AnswersSlot(cfg, s, call);
        acts' := AnswerMirrored(limits, acts, s.slot, call, after.slot);
    }
  }

  /**
   * Every run of the driver is a schedule: there is a possible one that ends in a world with the same options,
   * thread, request and turn counter as the slot. So what holds of all schedules, such as the bound on turns
   * and the fates of threads, holds of the driver.
   */
  lemma {:induction false} RunIsSchedule(cfg: Config, limits: Limits, calls: seq<Call>) returns (acts: seq<Act>)
    requires cfg.maxTurns == Some(limits.maxTurns) && limits.sessions > 0
    ensures Possible(limits, acts) && Mirrors(After(acts), D.Run(cfg, calls).slot)
  {
    if calls == [] {
      acts := [];
    } else {
      acts := RunIsSchedule(cfg, limits, calls[..|calls| - 1]);
      acts := StepMirrored(cfg, limits, calls[..|calls| - 1], calls[|calls| - 1], acts);
    }
  }
}

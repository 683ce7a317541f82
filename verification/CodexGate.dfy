/** Who answers a request: the confirmation gate, at most one answer, and conservation of requests. */
module CodexGate {
  import opened HostTypes
  import opened Wrappers
  import opened CodexTypes
  import opened CodexSpec
  import opened CodexRuns

  /** The entry opens or closes a request. */
  predicate TouchesRequest(e: Entry) {
    e.Received? || e.Answered? || e.Discarded?
  }

  lemma {:induction false} PrefixUnbroken(cfg: Config, log: Log, n: nat)
    requires n <= |log| && Scan(cfg, log) != Broken
    ensures Scan(cfg, log[..n]) != Broken
    decreases |log|
  {
    if n == |log| {
      assert log[..n] == log;
    } else {
      PrefixUnbroken(cfg, log[..|log| - 1], n);
      assert log[..|log| - 1][..n] == log[..n];
    }
  }

  /** An open request was received, and nothing has answered it since. */
  lemma {:induction false} OpenMeans(cfg: Config, log: Log) returns (j: nat, k: nat)
    requires Scan(cfg, log).Asked? || Scan(cfg, log).Granted?
    ensures j < |log| && log[j] == Received(Scan(cfg, log).request) && log[j].request.IsRequest()
    ensures forall i :: j < i < |log| ==> !TouchesRequest(log[i])
    ensures Scan(cfg, log).Granted? ==>
              && j < k < |log| && NeedsConfirm(cfg, log[j].request)
              && log[k].Allowed? && log[k].callId == log[j].request.callId && IsAllow(log[k].permission)
  {
    var init, e := log[..|log| - 1], log[|log| - 1];
    if e.Received? {
      j, k := |log| - 1, 0;
    } else {
      j, k := OpenMeans(cfg, init);
      if e.Allowed? {
        k := |log| - 1;
      }
    }
  }

  /** Before an answer there is the request it answers. */
  lemma AnswerMeans(cfg: Config, log: Log, i: nat) returns (j: nat, k: nat)
    requires Scan(cfg, log) != Broken && i < |log| && log[i].Answered?
    ensures j < i && log[j].Received? && log[j].request.IsRequest() && Addressed(log[j].request, log[i].op)
    ensures forall m :: j < m < i ==> !TouchesRequest(log[m])
    ensures log[i].kind.Result? ==> log[j].request.ToolCall? && log[i].kind.tool == log[j].request.tool
    ensures log[i].kind.Result? && NeedsConfirm(cfg, log[j].request) ==>
              j < k < i && log[k].Allowed? && log[k].callId == log[j].request.callId && IsAllow(log[k].permission)
    ensures log[i].op.Grants() ==> log[i].kind.Result? || (log[i].kind.Verdict? && IsAllow(log[i].kind.permission))
  {
    PrefixUnbroken(cfg, log, i + 1);
    PrefixUnbroken(cfg, log, i);
    assert log[..i + 1][..i] == log[..i];
    j, k := OpenMeans(cfg, log[..i]);
  }

  /** The confirmation gate, over every run: a tool result reaches the thread only for a tool call the
      thread made, and when that tool asks for confirmation only after the user allowed this very call. */
  lemma ConfirmGate(cfg: Config, calls: seq<Call>, i: nat)
    requires i < |Run(cfg, calls).log|
    requires Run(cfg, calls).log[i].Answered? && Run(cfg, calls).log[i].kind.Result?
    ensures var log := Run(cfg, calls).log;
            exists j ::
              && 0 <= j < i
              && log[j].Received? && log[j].request.ToolCall?
              && log[j].request.callId == log[i].op.id && log[j].request.tool == log[i].kind.tool
              && (forall m :: j < m < i ==> !TouchesRequest(log[m]))
              && (ConfirmsInApp(cfg, log[j].request.tool) ==>
                    exists k :: j < k < i && log[k].Allowed? && log[k].callId == log[i].op.id && IsAllow(log[k].permission))
  {
    RunKeeps(cfg, calls);
    var j, k := AnswerMeans(cfg, Run(cfg, calls).log, i);
  }

  /** No answer that lets the thread go ahead is sent without a tool result or an allowing verdict. */
  lemma GrantGate(cfg: Config, calls: seq<Call>, i: nat)
    requires i < |Run(cfg, calls).log|
    requires Run(cfg, calls).log[i].Answered? && Run(cfg, calls).log[i].op.Grants()
    ensures var kind := Run(cfg, calls).log[i].kind;
            kind.Result? || (kind.Verdict? && IsAllow(kind.permission))
  {
    RunKeeps(cfg, calls);
    var j, k := AnswerMeans(cfg, Run(cfg, calls).log, i);
  }

  lemma AnswersApart(cfg: Config, log: Log, i: nat, i': nat) returns (j: nat)
    requires Scan(cfg, log) != Broken && i < i' < |log| && log[i].Answered? && log[i'].Answered?
    ensures i < j < i' && log[j].Received?
  {
    var k;
    j, k := AnswerMeans(cfg, log, i');
    assert TouchesRequest(log[i]);
  }

  /** At most one answer per request: between two answers a new request came in. */
  lemma AnsweredAtMostOnce(cfg: Config, calls: seq<Call>, i: nat, i': nat)
    requires i < i' < |Run(cfg, calls).log|
    requires Run(cfg, calls).log[i].Answered? && Run(cfg, calls).log[i'].Answered?
    ensures exists j :: i < j < i' && Run(cfg, calls).log[j].Received?
  {
    RunKeeps(cfg, calls);
    var j := AnswersApart(cfg, Run(cfg, calls).log, i, i');
  }

  // ---------------------------------------------------------------- conservation

  function Outstanding(slot: Slot): nat {
    if slot.pending.Some? then 1 else 0
  }

  lemma {:induction false} ScanCounts(cfg: Config, log: Log)
    requires Scan(cfg, log) != Broken
    ensures Count(log, IsReceived) ==
            Count(log, IsAnswered) + Count(log, IsDiscarded) + if Scan(cfg, log).Quiet? then 0 else 1
  {
    if log == [] {
    } else {
      ScanCounts(cfg, log[..|log| - 1]);
    }
  }

  /** Requests received = answered + discarded + outstanding, in every reachable state. */
  lemma RequestsConserved(cfg: Config, calls: seq<Call>)
    ensures var s := Run(cfg, calls);
            Count(s.log, IsReceived) == Count(s.log, IsAnswered) + Count(s.log, IsDiscarded) + Outstanding(s.slot)
  {
    RunKeeps(cfg, calls);
    ScanCounts(cfg, Run(cfg, calls).log);
  }

  /** `after` continues `before`, and no request is discarded on the way. */
  predicate Extends(before: Log, after: Log) {
    && before <= after
    && (forall i :: |before| <= i < |after| ==> !after[i].Discarded?)
  }

  /** As `Extends`, and nothing is answered or allowed either: all the pump ever does to a history. */
  predicate PumpedOn(before: Log, after: Log) {
    && before <= after
    && (forall i :: |before| <= i < |after| ==> !after[i].Answered? && !after[i].Allowed? && !after[i].Discarded?)
  }

  lemma EmitPumps(cfg: Config, p: Pumping, w: Wake, event: HostEvent)
    requires w.Event?
    ensures PumpedOn(p.log, Emit(cfg, p, w, event).p.log)
  {
  }

  lemma HandlePumps(cfg: Config, p: Pumping, w: Wake)
    requires w.Event?
    ensures PumpedOn(p.log, Handle(cfg, p, w).p.log)
  {
    if w.msg.IsRequest() || Ending(p, w.msg).Some? {
    } else if w.msg.Delta? || w.msg.Message? {
      EmitPumps(cfg, p.(sawDelta := true, assistant := p.assistant + w.msg.text), w, TextDelta(w.msg.text));
      EmitPumps(cfg, p.(assistant := w.msg.text), w, TextDelta(w.msg.text));
    } else if w.msg.ToolResponse? {
      var q := p.(sendOk := p.sendOk || (w.msg.tool == "send_message" && w.msg.success),
                  log := p.log + [ResponseSeen(w.msg.tool, w.msg.success)]);
      EmitPumps(cfg, q, w, ToolResult(w.msg.callId, w.msg.tool, w.msg.success));
    } else if Notice(w.msg).Some? {
      EmitPumps(cfg, p, w, Notice(w.msg).value);
    }
  }

  lemma IteratePumps(cfg: Config, hard: Option<Instant>, p: Pumping, w: Wake)
    ensures PumpedOn(p.log, Iterate(cfg, hard, p, w).p.log)
  {
    if w.Event? {
      HandlePumps(cfg, p.(seen := p.seen + [w]), w);
    }
  }

  lemma {:induction false} PumpPumps(cfg: Config, hard: Option<Instant>, p: Pumping, feed: seq<Wake>)
    ensures PumpedOn(p.log, Pump(cfg, hard, p, feed).p.log)
    decreases |feed|
  {
    if feed == [] {
    } else {
      IteratePumps(cfg, hard, p, feed[0]);
      var flow := Iterate(cfg, hard, p, feed[0]);
      if flow.Next? {
        PumpPumps(cfg, hard, flow.p, feed[1..]);
      }
    }
  }

  lemma AnswerExtends(cfg: Config, s: Session, sendOk: bool, kind: AnswerKind, op: Op, delivered: bool, now: Instant, feed: seq<Wake>)
    ensures var log := AnswerAndPump(cfg, s, sendOk, kind, op, delivered, now, feed).session.log;
            && PumpedOn(s.log + [Answered(kind, op, delivered)], log) && Extends(s.log, log)
            && log[|s.log|] == Answered(kind, op, delivered)
  {
    var t := Session(s.slot.(pending := None, sendOk := sendOk), s.log + [Answered(kind, op, delivered)]);
    PumpPumps(cfg, t.slot.hardDeadline, Armed(cfg, t, now), feed);
  }

  /** A request is given up only by configuring the slot anew or shutting it down: every other call
      of a run only adds to the history, and discards nothing. */
  lemma DiscardsOnlyOnReset(cfg: Config, calls: seq<Call>, call: Call)
    ensures var s := Run(cfg, calls);
            var o := Step(cfg, s, call);
            if call.UseCodex? || call.Shutdown? then
              (o.reply.Ack? ==>
                 && o.session.slot.pending.None?
                 && Count(o.session.log, IsDiscarded) == Count(s.log, IsDiscarded) + Outstanding(s.slot))
            else Extends(s.log, o.session.log)
  {
    RunKeeps(cfg, calls);
    if call.UseCodex? || call.Shutdown? {
      ResetDiscards(Run(cfg, calls));
    } else {
      StepExtends(cfg, Run(cfg, calls), call);
    }
  }

  lemma StepExtends(cfg: Config, s: Session, call: Call)
    requires !call.UseCodex? && !call.Shutdown? && (s.slot.pending.Some? ==> s.slot.live.Some?)
    ensures Extends(s.log, Step(cfg, s, call).session.log)
  {
    match call
    case Prompt(world) => PromptExtends(cfg, s, world);
    case CompleteTool(callId, output, delivered, now, feed) => CompleteExtends(cfg, s, callId, output, delivered, now, feed);
    case Respond(callId, permission, delivered, now, feed) => RespondExtends(cfg, s, callId, permission, delivered, now, feed);
    case CancelPending(delivered) =>
  }

  lemma ResetDiscards(s: Session)
    ensures var t := DropPending(s);
            && Count(t.log, IsDiscarded) == Count(s.log, IsDiscarded) + Outstanding(s.slot)
            && Count(t.log + [Configured], IsDiscarded) == Count(t.log, IsDiscarded)
  {
    assert (s.log + [Discarded])[..|s.log|] == s.log;
    var t := DropPending(s);
    assert (t.log + [Configured])[..|t.log|] == t.log;
  }

  lemma PromptExtends(cfg: Config, s: Session, world: PromptWorld)
    ensures Extends(s.log, PromptSpec(cfg, s, world).session.log)
  {
    var t := StartTurn(cfg, s.(slot := EnsureLiveSpec(s.slot, world.start).0), world.now);
    PumpPumps(cfg, t.slot.hardDeadline, Armed(cfg, t, world.now), world.feed);
  }

  lemma CompleteExtends(cfg: Config, s: Session, callId: string, output: string, delivered: bool, now: Instant, feed: seq<Wake>)
    requires s.slot.pending.Some? ==> s.slot.live.Some?
    ensures Extends(s.log, CompleteToolSpec(cfg, s, callId, output, delivered, now, feed).session.log)
  {
    if s.slot.pending.Some? && s.slot.pending.value.Execute? {
      var name := s.slot.pending.value.name;
      var ok := cfg.outputOk(output);
      AnswerExtends(cfg, s, s.slot.sendOk || (name == "send_message" && ok), Result(name),
                    DynamicToolResponse(callId, output, ok), delivered, now, feed);
    }
  }

  lemma RespondExtends(cfg: Config, s: Session, callId: string, permission: Permission, delivered: bool, now: Instant, feed: seq<Wake>)
    requires s.slot.pending.Some? ==> s.slot.live.Some?
    ensures Extends(s.log, RespondSpec(cfg, s, callId, permission, delivered, now, feed).session.log)
  {
    if s.slot.pending.Some? && s.slot.pending.value.callId == callId {
      match s.slot.pending.value
      case Confirm(id, _, _, _) =>
        AnswerExtends(cfg, s, s.slot.sendOk, Refusal, DynamicToolResponse(id, "denied by user", false), delivered, now, feed);
      case Execute(_, _, _) =>
      case Exec(id, turnId, _, _, _) =>
        AnswerExtends(cfg, s, s.slot.sendOk, Verdict(permission), ExecApproval(id, turnId, Review(permission)), delivered, now, feed);
      case Patch(id, _, _, _) =>
        AnswerExtends(cfg, s, s.slot.sendOk, Verdict(permission), PatchApproval(id, Review(permission)), delivered, now, feed);
    }
  }

  // ---------------------------------------------------------------- refusals

  /** The call is meant for what the slot holds. */
  predicate MeantFor(slot: Slot, call: Call) {
    match call
    case Prompt(_) => slot.pending.None?
    case CompleteTool(callId, _, _, _, _) =>
      slot.pending.Some? && slot.pending.value.Execute? && slot.pending.value.callId == callId
    case Respond(callId, _, _, _, _) =>
      slot.pending.Some? && !slot.pending.value.Execute? && slot.pending.value.callId == callId
    case _ => true
  }

  lemma CompleteRefused(cfg: Config, s: Session, call: Call)
    requires Inv(cfg, s) && call.CompleteTool?
    ensures Step(cfg, s, call).reply == Fail(UnknownToolCall(call.callId)) <==> !MeantFor(s.slot, call)
    ensures !MeantFor(s.slot, call) ==> Step(cfg, s, call) == Stay(s, Fail(UnknownToolCall(call.callId)))
  {
    if MeantFor(s.slot, call) {
      var name := s.slot.pending.value.name;
      var ok := cfg.outputOk(call.output);
      AnswerKeeps(cfg, s, s.slot.sendOk || (name == "send_message" && ok), Result(name),
                  DynamicToolResponse(call.callId, call.output, ok), call.delivered, call.now, call.feed);
    }
  }

  lemma RespondRefused(cfg: Config, s: Session, call: Call)
    requires Inv(cfg, s) && call.Respond?
    ensures Step(cfg, s, call).reply == Fail(UnknownToolCall(call.callId)) <==> !MeantFor(s.slot, call)
    ensures !MeantFor(s.slot, call) ==> Step(cfg, s, call) == Stay(s, Fail(UnknownToolCall(call.callId)))
  {
    if MeantFor(s.slot, call) {
      match s.slot.pending.value
      case Confirm(id, _, _, _) =>
        if !IsAllow(call.permission) {
          AnswerKeeps(cfg, s, s.slot.sendOk, Refusal, DynamicToolResponse(id, "denied by user", false), call.delivered, call.now, call.feed);
        }
      case Execute(_, _, _) =>
      case Exec(id, turnId, _, _, _) =>
        AnswerKeeps(cfg, s, s.slot.sendOk, Verdict(call.permission), ExecApproval(id, turnId, Review(call.permission)),
                    call.delivered, call.now, call.feed);
      case Patch(id, _, _, _) =>
        AnswerKeeps(cfg, s, s.slot.sendOk, Verdict(call.permission), PatchApproval(id, Review(call.permission)),
                    call.delivered, call.now, call.feed);
    }
  }

  /** In every reachable state a completion or a permission reply is refused as unknown exactly when it
      is not meant for the outstanding request, and a refused one leaves slot and history alone. */
  lemma RefusedExactly(cfg: Config, calls: seq<Call>, call: Call)
    requires call.CompleteTool? || call.Respond?
    ensures var s := Run(cfg, calls);
            && (Step(cfg, s, call).reply == Fail(UnknownToolCall(call.callId)) <==> !MeantFor(s.slot, call))
            && (!MeantFor(s.slot, call) ==> Step(cfg, s, call).session == s)
  {
    RunKeeps(cfg, calls);
    if call.CompleteTool? {
      CompleteRefused(cfg, Run(cfg, calls), call);
    } else {
      RespondRefused(cfg, Run(cfg, calls), call);
    }
  }

  /** A reply that does not allow a confirmable call answers it once, with a failed response, and
      never turns it into an execution: nothing else is answered or allowed before the call returns, and
      what the slot then holds is a request that came in since. */
  lemma DeniedOnce(cfg: Config, calls: seq<Call>, call: Call)
    requires call.Respond? && !IsAllow(call.permission)
    requires MeantFor(Run(cfg, calls).slot, call) && Run(cfg, calls).slot.pending.value.Confirm?
    ensures var s := Run(cfg, calls);
            var refusal := Answered(Refusal, DynamicToolResponse(call.callId, "denied by user", false), call.delivered);
            var t := Step(cfg, s, call).session;
            && PumpedOn(s.log + [refusal], t.log)
            && (t.slot.pending.Some? ==>
                  exists i :: |s.log| < i < |t.log| && ReceivedRequest(t.log[i]) && t.slot.pending == Some(PendingOf(cfg, t.log[i].request)))
  {
    RunKeeps(cfg, calls);
    var s := Run(cfg, calls);
    AnswerExtends(cfg, s, s.slot.sendOk, Refusal, DynamicToolResponse(call.callId, "denied by user", false),
                  call.delivered, call.now, call.feed);
    StepKeeps(cfg, s, call);
    HeldIsNew(cfg, s.log, Answered(Refusal, DynamicToolResponse(call.callId, "denied by user", false), call.delivered),
              Step(cfg, s, call).session);
  }

  predicate ReceivedRequest(e: Entry) {
    e.Received? && e.request.IsRequest()
  }

  /** Behind an answer the pump can only have parked a request that came in since. */
  lemma HeldIsNew(cfg: Config, before: Log, answer: Entry, t: Session)
    requires Inv(cfg, t) && answer.Answered? && PumpedOn(before + [answer], t.log)
    ensures t.slot.pending.Some? ==>
              exists i :: |before| < i < |t.log| && ReceivedRequest(t.log[i]) && t.slot.pending == Some(PendingOf(cfg, t.log[i].request))
  {
    if t.slot.pending.Some? {
      var j, k := OpenMeans(cfg, t.log);
      assert t.log[|before|] == (before + [answer])[|before|] && TouchesRequest(t.log[|before|]);
    }
  }

  // ---------------------------------------------------------------- the tools on offer

  lemma {:induction false} OfferedFromMeans(cfg: Config, names: seq<string>, tool: string)
    ensures tool in OfferedFrom(cfg, names) <==>
            tool in names && !(tool in cfg.permissions && cfg.permissions[tool] == PermissionDefault.NeverAllow)
  {
    if names == [] {
    } else {
      OfferedFromMeans(cfg, names[1..], tool);
    }
  }

  /** A tool on offer runs without being asked about exactly when it is listed as always allowed, or not
      listed and neither sends nor reads the clipboard. */
  lemma OfferedUnasked(cfg: Config, tool: string)
    requires tool in OfferedTools(cfg)
    ensures !ConfirmsInApp(cfg, tool) <==>
            || (tool in cfg.permissions && cfg.permissions[tool] == PermissionDefault.AlwaysAllow)
            || (tool !in cfg.permissions && tool !in {"send_message", "read_clipboard"})
  {
    OfferedFromMeans(cfg, cfg.worldTools, tool);
  }

  /** A tool that is never allowed is kept off the offer and not asked about: the offer is the only
      thing between it and execution. */
  lemma NeverAllowedIsOnlyUnoffered(cfg: Config, callId: string, tool: string, args: string)
    requires tool in cfg.permissions && cfg.permissions[tool] == PermissionDefault.NeverAllow
    ensures tool !in OfferedTools(cfg)
    ensures PendingOf(cfg, ToolCall(callId, tool, args)) == Execute(callId, tool, args)
  {
    OfferedFromMeans(cfg, cfg.worldTools, tool);
  }
}

/** The slot as the host holds it: an object whose calls update it in place. Every method is tied to the
    function of the old state that `CodexSpec` gives for it, so what `CodexRuns`, `CodexGate` and
    `CodexTurns` prove about runs of those functions holds of runs of these methods. */
module CodexSession {
  import opened HostTypes
  import opened Wrappers
  import opened CodexTypes
  import S = CodexSpec
  import Text

  class CodexSlot {
    const cfg: Config
    var launch: Option<Launch>
    var live: Option<ThreadId>
    var pending: Option<Pending>
    var turns: u32
    var hardDeadline: Option<Instant>
    var sendOk: bool
    ghost var log: Log

    ghost function State(): Session
      reads this
    {
      Session(Slot(launch, live, pending, turns, hardDeadline, sendOk), log)
    }

    constructor (cfg: Config)
      ensures this.cfg == cfg && State() == S.FRESH
    {
      this.cfg := cfg;
      launch, live, pending := None, None, None;
      turns, hardDeadline, sendOk := 0, None, false;
      log := [];
    }

    // -------------------------------------------------------------- the pump

    ghost function Here(assistant: string, sawDelta: bool, lastActivity: Instant, idleDeadline: Option<Instant>,
                        emitted: seq<HostEvent>, seen: seq<Wake>): S.Pumping
      reads this
    {
      S.Pumping(pending, sendOk, assistant, sawDelta, lastActivity, idleDeadline, emitted, log, seen)
    }

    /** The events that end the turn. */
    method EndOn(msg: EventMsg, assistant: string) returns (reply: Option<Reply>)
      ensures forall p: S.Pumping :: p.assistant == assistant && p.sendOk == sendOk ==> reply == S.Ending(p, msg)
    {
      reply := None;
      match msg {
        case TurnComplete(error, lastMessage) =>
          if error.Some? {
            reply := Some(Fail(Failed(error.value)));
          } else {
            var text := assistant;
            if lastMessage.Some? && lastMessage.value != "" {
              text := lastMessage.value;
            }
            var replied := !Text.Blank(text);
            reply := Some(Done(Finished(text, replied, replied || sendOk)));
          }
        case Error(message) =>
          reply := Some(Fail(Failed(message)));
        case TurnAborted =>
          reply := Some(Done(Cancelled));
        case RequestUserInput =>
          reply := Some(Fail(Failed("turn requested user input")));
        case RequestPermissions =>
          reply := Some(Fail(Failed("turn requested permissions")));
        case _ =>
      }
    }

    /** The requests that park the turn. */
    method ParkOn(msg: EventMsg) returns (reply: Reply)
      requires msg.IsRequest()
      modifies this`pending, this`log
      ensures pending == Some(S.PendingOf(cfg, msg)) && log == old(log) + [Received(msg)]
      ensures reply == Done(pending.value.Outcome())
    {
      var next: Pending;
      match msg {
        case ToolCall(callId, tool, args) =>
          if S.ConfirmsInApp(cfg, tool) {
            next := Confirm(callId, tool, args, tool + " " + args);
          } else {
            next := Execute(callId, tool, args);
          }
        case ExecApprovalRequest(callId, approvalId, turnId, command, reason) =>
          var prompt := reason.UnwrapOr(command);
          next := Exec(approvalId.UnwrapOr(callId), if turnId == "" then None else Some(turnId), callId, command, prompt);
        case PatchApprovalRequest(callId, reason) =>
          var prompt := reason.UnwrapOr("apply patch");
          next := Patch(callId, callId, prompt, prompt);
      }
      reply := Done(next.Outcome());
      pending := Some(next);
      log := log + [Received(msg)];
    }

    /** What an event shows, and what it writes down on the way. */
    method Show(msg: EventMsg, assistant: string, sawDelta: bool)
      returns (event: Option<HostEvent>, assistant': string, sawDelta': bool)
      requires !msg.IsRequest()
      modifies this`sendOk, this`log
      ensures event ==
              if msg.Delta? || msg.Message? then
                if msg.text == "" || (msg.Message? && sawDelta) then None else Some(TextDelta(msg.text))
              else if msg.ToolResponse? then Some(ToolResult(msg.callId, msg.tool, msg.success))
              else S.Notice(msg)
      ensures assistant' ==
              if msg.Delta? then assistant + msg.text
              else if msg.Message? && msg.text != "" then msg.text else assistant
      ensures sawDelta' == (sawDelta || (msg.Delta? && msg.text != ""))
      ensures sendOk == (old(sendOk) || (msg.ToolResponse? && msg.tool == "send_message" && msg.success))
      ensures log == if msg.ToolResponse? then old(log) + [ResponseSeen(msg.tool, msg.success)] else old(log)
    {
      event, assistant', sawDelta' := None, assistant, sawDelta;
      match msg {
        case Delta(text) =>
          if text != "" {
            sawDelta' := true;
            assistant' := assistant + text;
            event := Some(TextDelta(text));
          }
        case Message(text) =>
          if text != "" {
            if !sawDelta {
              event := Some(TextDelta(text));
            }
            assistant' := text;
          }
        case TokenCount(usage) =>
          if usage.Some? {
            event := Some(Usage(usage.value.0, usage.value.1));
          }
        case ExecBegin(callId, command) =>
          event := Some(ToolRequested(callId, "shell", command));
        case ExecEnd(callId, exitCode) =>
          event := Some(ToolResult(callId, "shell", exitCode == 0));
        case McpBegin(callId, tool, args) =>
          event := Some(ToolRequested(callId, "mcp:" + tool, args));
        case McpEnd(callId, tool, success) =>
          event := Some(ToolResult(callId, "mcp:" + tool, success));
        case Compacted =>
          event := Some(ToolResult("context_compacted", "context_compacted", true));
        case ToolResponse(callId, tool, success) =>
          if tool == "send_message" && success {
            sendOk := true;
          }
          log := log + [ResponseSeen(tool, success)];
          event := Some(ToolResult(callId, tool, success));
        case _ =>
      }
    }

    /** Works off an event that neither parks nor ends the turn. */
    method Notify(w: Wake, assistant: string, sawDelta: bool, lastActivity: Instant, idleDeadline: Option<Instant>,
                  emitted: seq<HostEvent>, ghost seen: seq<Wake>)
      returns (reply: Option<Reply>, assistant': string, sawDelta': bool, lastActivity': Instant,
               idleDeadline': Option<Instant>, emitted': seq<HostEvent>)
      requires w.Event? && !w.msg.IsRequest()
      requires S.Ending(Here(assistant, sawDelta, lastActivity, idleDeadline, emitted, seen), w.msg).None?
      modifies this`sendOk, this`log
      ensures var flow := S.Handle(cfg, old(Here(assistant, sawDelta, lastActivity, idleDeadline, emitted, seen)), w);
              && flow.p == Here(assistant', sawDelta', lastActivity', idleDeadline', emitted', seen)
              && reply == if flow.Stop? then Some(flow.reply) else None
    {
      reply, lastActivity', idleDeadline', emitted' := None, lastActivity, idleDeadline, emitted;
      var event;
      event, assistant', sawDelta' := Show(w.msg, assistant, sawDelta);
      if event.Some? {
        if !w.emitOk {
          log := log + [Ended(false)];
          reply := Some(Fail(Failed("event channel closed")));
          return;
        }
        emitted' := emitted + [event.value];
      }
      if !w.msg.TokenCount? {
        lastActivity' := w.after;
        if cfg.idle.Some? {
          idleDeadline' := Some(w.after + cfg.idle.value);
        }
      }
    }

    /** Works off one event. */
    method Work(w: Wake, assistant: string, sawDelta: bool, lastActivity: Instant, idleDeadline: Option<Instant>,
                emitted: seq<HostEvent>, ghost seen: seq<Wake>)
      returns (reply: Option<Reply>, assistant': string, sawDelta': bool, lastActivity': Instant,
               idleDeadline': Option<Instant>, emitted': seq<HostEvent>)
      requires w.Event?
      modifies this`pending, this`sendOk, this`log
      ensures var flow := S.Handle(cfg, old(Here(assistant, sawDelta, lastActivity, idleDeadline, emitted, seen)), w);
              && flow.p == Here(assistant', sawDelta', lastActivity', idleDeadline', emitted', seen)
              && reply == if flow.Stop? then Some(flow.reply) else None
    {
      assistant', sawDelta', lastActivity', idleDeadline', emitted' := assistant, sawDelta, lastActivity, idleDeadline, emitted;
      ghost var here := Here(assistant, sawDelta, lastActivity, idleDeadline, emitted, seen);
      if w.msg.IsRequest() {
        var parked := ParkOn(w.msg);
        reply := Some(parked);
        return;
      }
      reply := EndOn(w.msg, assistant);
      assert reply == S.Ending(here, w.msg);
      if reply.Some? {
        log := log + [Ended(reply.value.Done? && reply.value.outcome.Finished?)];
        return;
      }
      reply, assistant', sawDelta', lastActivity', idleDeadline', emitted' :=
        Notify(w, assistant, sawDelta, lastActivity, idleDeadline, emitted, seen);
    }

    /** Everything but an event: the token, the two timers and the thread's failure. */
    method Elapse(w: Wake, lastActivity: Instant, idleDeadline: Option<Instant>, ghost p: S.Pumping) returns (ended: Option<Reply>)
      requires !w.Event? && p.lastActivity == lastActivity && p.idleDeadline == idleDeadline
      ensures ended.Some? ==> !(ended.value.Done? && ended.value.outcome.Finished?)
      ensures S.Iterate(cfg, hardDeadline, p, w) ==
              var q := p.(seen := p.seen + [w]);
              if ended.Some? then S.Halt(q, ended.value) else S.Next(q)
    {
      ended := None;
      match w {
        case CancelFired(_) =>
          ended := Some(Done(Cancelled));
        case IdleTimer(at) =>
          if S.Due(idleDeadline, at) {
            ended := Some(Done(TimedOut(IdleTimeout)));
          }
        case HardTimer(at) =>
          if S.Due(hardDeadline, at) {
            var recentlyActive := at <= lastActivity + cfg.recentlyActive;
            ended := Some(Done(TimedOut(HardTimeout(recentlyActive))));
          }
        case ThreadError(_, message) =>
          ended := Some(Fail(Failed(message)));
      }
    }

    /** The loop that waits for whatever comes first and works it off. */
    method Pump(now: Instant, feed: seq<Wake>) returns (reply: Reply, emitted: seq<HostEvent>, ghost seen: seq<Wake>)
      modifies this`pending, this`sendOk, this`log
      ensures S.Outcome(State(), reply, emitted, seen) == S.PumpSession(cfg, old(State()), now, feed)
    {
      var assistant, sawDelta, lastActivity, idleDeadline := "", false, now, S.Deadline(cfg.idle, now);
      emitted, seen := [], [];
      ghost var flow := S.Pump(cfg, hardDeadline, S.Armed(cfg, State(), now), feed);
      var i := 0;
      while i < |feed|
        invariant 0 <= i <= |feed|
        invariant S.Pump(cfg, hardDeadline, Here(assistant, sawDelta, lastActivity, idleDeadline, emitted, seen), feed[i..]) == flow
      {
        var w := feed[i];
        assert feed[i..][0] == w && feed[i..][1..] == feed[i + 1..];
        ghost var here := Here(assistant, sawDelta, lastActivity, idleDeadline, emitted, seen);
        i := i + 1;
        seen := seen + [w];
        if w.Event? {
          var result: Option<Reply>;
          result, assistant, sawDelta, lastActivity, idleDeadline, emitted :=
            Work(w, assistant, sawDelta, lastActivity, idleDeadline, emitted, seen);
          if result.Some? {
            reply := result.value;
            return;
          }
          continue;
        }
        var ended := Elapse(w, lastActivity, idleDeadline, here);
        if ended.Some? {
          reply := ended.value;
          log := log + [Ended(false)];
          return;
        }
      }
      reply := Dropped;
      log := log + [Ended(false)];
    }

    // -------------------------------------------------------------- driver calls

    method UseCodex(launch: Launch) returns (reply: Reply)
      modifies this
      ensures S.Stay(State(), reply) == S.UseCodexSpec(old(State()), launch)
    {
      if launch.apiKeyBlank {
        return Fail(MissingApiKey);
      }
      if !launch.helperUsable {
        return Fail(Failed("codex helper executable is not configured"));
      }
      if !launch.sandboxUsable {
        return Fail(Failed("linux sandbox helper path must be absolute"));
      }
      if !launch.homeCreated {
        return Fail(Failed("codex_home"));
      }
      log := (if pending.Some? then log + [Discarded] else log) + [Configured];
      this.launch := Some(launch);
      live := None;
      pending := None;
      turns := 0;
      sendOk := false;
      reply := Ack;
    }

    method EnsureLive(start: Start) returns (failure: Option<string>)
      modifies this`live
      ensures (State().slot, failure) == S.EnsureLiveSpec(old(State()).slot, start)
    {
      if live.Some? {
        return None;
      }
      if launch.None? {
        return Some("codex runtime is not configured");
      }
      match start {
        case StartFailed(message) =>
          failure := Some(message);
        case Started(thread) =>
          live := Some(thread);
          failure := None;
      }
    }

    method Prompt(world: PromptWorld) returns (reply: Reply, emitted: seq<HostEvent>, ghost seen: seq<Wake>)
      modifies this
      ensures S.Outcome(State(), reply, emitted, seen) == S.PromptSpec(cfg, old(State()), world)
    {
      emitted, seen := [], [];
      if pending.Some? {
        return Fail(Failed("agent waiting for tool")), [], [];
      }
      if cfg.maxTurns.Some? {
        if turns >= cfg.maxTurns.value {
          return Fail(Failed("max turns")), [], [];
        }
      }
      var failure := EnsureLive(world.start);
      if failure.Some? {
        return Fail(Failed(failure.value)), [], [];
      }
      if world.cancelled {
        return Done(Cancelled), [], [];
      }
      match world.submission {
        case SubmitCancelled =>
          reply := Done(Cancelled);
        case SubmitFailed(message) =>
          reply := Fail(Failed(message));
        case NotSubmitted =>
          reply := Fail(Failed("turn input was not submitted"));
        case Submitted =>
          turns := if turns < U32_MAX then turns + 1 else turns;
          sendOk := false;
          hardDeadline := S.Deadline(cfg.hard, world.now);
          log := log + [TurnStarted(world.now)];
          reply, emitted, seen := Pump(world.now, world.feed);
      }
    }

    /** Takes the request out of the slot because no thread can be told. */
    method LosePending() returns (reply: Reply)
      requires pending.Some?
      modifies this`pending, this`log
      ensures State() == S.DropPending(old(State())) && reply == S.NOT_OPEN
    {
      pending := None;
      log := log + [Discarded];
      reply := Fail(Failed("codex thread is not open"));
    }

    /** Submits an answer for the request taken out of the slot, then waits on. */
    method Submit(kind: AnswerKind, op: Op, delivered: bool, now: Instant, feed: seq<Wake>)
      returns (reply: Reply, emitted: seq<HostEvent>, ghost seen: seq<Wake>)
      requires pending.Some?
      modifies this`pending, this`sendOk, this`log
      ensures S.Outcome(State(), reply, emitted, seen)
              == S.AnswerAndPump(cfg, old(State()), old(sendOk), kind, op, delivered, now, feed)
    {
      pending := None;
      log := log + [Answered(kind, op, delivered)];
      if !delivered {
        log := log + [Ended(false)];
        return Fail(Failed("submit")), [], [];
      }
      reply, emitted, seen := Pump(now, feed);
    }

    method CompleteTool(callId: string, output: string, delivered: bool, now: Instant, feed: seq<Wake>)
      returns (reply: Reply, emitted: seq<HostEvent>, ghost seen: seq<Wake>)
      modifies this
      ensures S.Outcome(State(), reply, emitted, seen)
              == S.CompleteToolSpec(cfg, old(State()), callId, output, delivered, now, feed)
    {
      emitted, seen := [], [];
      if pending.None? || !pending.value.Execute? || pending.value.callId != callId {
        return Fail(UnknownToolCall(callId)), [], [];
      }
      if live.None? {
        reply := LosePending();
        return;
      }
      var name := pending.value.name;
      var ok := cfg.outputOk(output);
      if name == "send_message" && ok {
        sendOk := true;
      }
      reply, emitted, seen := Submit(Result(name), DynamicToolResponse(callId, output, ok), delivered, now, feed);
    }

    method RespondPermission(callId: string, permission: Permission, delivered: bool, now: Instant, feed: seq<Wake>)
      returns (reply: Reply, emitted: seq<HostEvent>, ghost seen: seq<Wake>)
      modifies this
      ensures S.Outcome(State(), reply, emitted, seen)
              == S.RespondSpec(cfg, old(State()), callId, permission, delivered, now, feed)
    {
      emitted, seen := [], [];
      if pending.None? || pending.value.callId != callId || pending.value.Execute? {
        return Fail(UnknownToolCall(callId)), [], [];
      }
      if pending.value.Confirm? && S.IsAllow(permission) {
        var next := Execute(pending.value.callId, pending.value.name, pending.value.args);
        log := log + [Allowed(pending.value.callId, permission)];
        pending := Some(next);
        reply := Done(next.Outcome());
        return;
      }
      if live.None? {
        reply := LosePending();
        return;
      }
      match pending.value {
        case Confirm(id, _, _, _) =>
          reply, emitted, seen := Submit(Refusal, DynamicToolResponse(id, "denied by user", false), delivered, now, feed);
        case Exec(id, turnId, _, _, _) =>
          reply, emitted, seen := Submit(Verdict(permission), ExecApproval(id, turnId, S.Review(permission)), delivered, now, feed);
        case Patch(id, _, _, _) =>
          reply, emitted, seen := Submit(Verdict(permission), PatchApproval(id, S.Review(permission)), delivered, now, feed);
      }
    }

    method CancelPending(delivered: bool)
      modifies this
      ensures State() == S.CancelPendingSpec(old(State()), delivered).session
    {
      if pending.None? {
        return;
      }
      var taken := pending.value;
      pending := None;
      if live.None? {
        log := log + [Discarded];
        return;
      }
      var op;
      match taken {
        case Confirm(callId, _, _, _) =>
          op := DynamicToolResponse(callId, "cancelled", false);
        case Execute(callId, _, _) =>
          op := DynamicToolResponse(callId, "cancelled", false);
        case Exec(id, turnId, _, _, _) =>
          op := ExecApproval(id, turnId, ReviewDecision.Abort);
        case Patch(id, _, _, _) =>
          op := PatchApproval(id, ReviewDecision.Abort);
      }
      log := log + [Answered(Cancellation, op, delivered)];
    }

    method Shutdown()
      modifies this
      ensures State() == S.ShutdownSpec(old(State())).session
    {
      live := None;
      log := if pending.Some? then log + [Discarded] else log;
      pending := None;
    }
  }
}

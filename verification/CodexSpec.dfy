/** What one driver call does to the slot, as functions of the slot and of what the world answers.
    `CodexSession` implements these in place; `CodexRuns` proves what whole runs keep. */
module CodexSpec {
  import opened HostTypes
  import opened Wrappers
  import opened CodexTypes
  import Text

  // ---------------------------------------------------------------- confirmation policy

  /** `confirms_in_app` */
  predicate ConfirmsInApp(cfg: Config, tool: string) {
    if tool in cfg.permissions then cfg.permissions[tool] == PermissionDefault.AskBefore
    else tool == "send_message" || tool == "read_clipboard"
  }

  /** The names `kim_dynamic_tools` offers to the thread. */
  function OfferedTools(cfg: Config): seq<string> {
    OfferedFrom(cfg, cfg.worldTools)
  }

  function OfferedFrom(cfg: Config, names: seq<string>): seq<string> {
    if names == [] then []
    else
      (if names[0] in cfg.permissions && cfg.permissions[names[0]] == PermissionDefault.NeverAllow then [] else [names[0]])
      + OfferedFrom(cfg, names[1..])
  }

  function Review(permission: Permission): ReviewDecision {
    match permission
    case AllowAlways => ApprovedForSession
    case AllowOnce => Approved
    case DenyOnce => Denied
    case DenyAlways => Denied
    case Cancel => ReviewDecision.Abort
  }

  predicate IsAllow(permission: Permission) {
    permission == AllowOnce || permission == AllowAlways
  }

  /** What a request event puts into the slot. */
  function PendingOf(cfg: Config, request: EventMsg): Pending
    requires request.IsRequest()
  {
    match request
    case ToolCall(callId, tool, args) =>
      if ConfirmsInApp(cfg, tool) then Confirm(callId, tool, args, tool + " " + args)
      else Execute(callId, tool, args)
    case ExecApprovalRequest(callId, approvalId, turnId, command, reason) =>
      Exec(approvalId.UnwrapOr(callId), if turnId == "" then None else Some(turnId), callId, command, reason.UnwrapOr(command))
    case PatchApprovalRequest(callId, reason) =>
      var prompt := reason.UnwrapOr("apply patch");
      Patch(callId, callId, prompt, prompt)
  }

  // ---------------------------------------------------------------- the pump

  /** The pump's locals, the two slot fields it writes, and its history. */
  datatype Pumping = Pumping(
    pending: Option<Pending>,
    sendOk: bool,
    assistant: string,
    sawDelta: bool,
    lastActivity: Instant,
    idleDeadline: Option<Instant>,
    emitted: seq<HostEvent>,
    log: Log,
    seen: seq<Wake>)

  datatype Flow = Next(p: Pumping) | Stop(p: Pumping, reply: Reply)

  function Halt(p: Pumping, reply: Reply): Flow {
    Stop(p.(log := p.log + [Ended(reply.Done? && reply.outcome.Finished?)]), reply)
  }

  function Due(deadline: Option<Instant>, now: Instant): bool {
    deadline.Some? && deadline.value <= now
  }

  /** `emit(…).await?` followed by the end of the iteration. */
  function Emit(cfg: Config, p: Pumping, w: Wake, event: HostEvent): Flow
    requires w.Event?
  {
    if w.emitOk then Settle(cfg, p.(emitted := p.emitted + [event]), w)
    else Halt(p, Fail(Failed("event channel closed")))
  }

  /** The end of an iteration: everything but a token count restarts the idle clock. */
  function Settle(cfg: Config, p: Pumping, w: Wake): Flow
    requires w.Event?
  {
    if w.msg.TokenCount? then Next(p)
    else Next(p.(lastActivity := w.after,
                 idleDeadline := if cfg.idle.Some? then Some(w.after + cfg.idle.value) else p.idleDeadline))
  }

  /** The reply with which an event ends the turn, if it does. */
  function Ending(p: Pumping, msg: EventMsg): Option<Reply> {
    match msg
    case TurnComplete(error, lastMessage) =>
      if error.Some? then Some(Fail(Failed(error.value)))
      else
        var text := if lastMessage.Some? && lastMessage.value != "" then lastMessage.value else p.assistant;
        var replied := !Text.Blank(text);
        Some(Done(Finished(text, replied, replied || p.sendOk)))
    case Error(message) => Some(Fail(Failed(message)))
    case TurnAborted => Some(Done(Cancelled))
    case RequestUserInput => Some(Fail(Failed("turn requested user input")))
    case RequestPermissions => Some(Fail(Failed("turn requested permissions")))
    case _ => None
  }

  /** What the host shows of an event that changes nothing in the driver. */
  function Notice(msg: EventMsg): Option<HostEvent> {
    match msg
    case TokenCount(usage) => if usage.Some? then Some(Usage(usage.value.0, usage.value.1)) else None
    case ExecBegin(callId, command) => Some(ToolRequested(callId, "shell", command))
    case ExecEnd(callId, exitCode) => Some(ToolResult(callId, "shell", exitCode == 0))
    case McpBegin(callId, tool, args) => Some(ToolRequested(callId, "mcp:" + tool, args))
    case McpEnd(callId, tool, success) => Some(ToolResult(callId, "mcp:" + tool, success))
    case Compacted => Some(ToolResult("context_compacted", "context_compacted", true))
    case _ => None
  }

  function HandleText(cfg: Config, p: Pumping, w: Wake): Flow
    requires w.Event? && (w.msg.Delta? || w.msg.Message?)
  {
    if w.msg.text == "" then Settle(cfg, p, w)
    else if w.msg.Delta? then
      Emit(cfg, p.(sawDelta := true, assistant := p.assistant + w.msg.text), w, TextDelta(w.msg.text))
    else if p.sawDelta then Settle(cfg, p.(assistant := w.msg.text), w)
    else Emit(cfg, p.(assistant := w.msg.text), w, TextDelta(w.msg.text))
  }

  function HandleResponse(cfg: Config, p: Pumping, w: Wake): Flow
    requires w.Event? && w.msg.ToolResponse?
  {
    var sent := w.msg.tool == "send_message" && w.msg.success;
    Emit(cfg, p.(sendOk := p.sendOk || sent, log := p.log + [ResponseSeen(w.msg.tool, w.msg.success)]),
         w, ToolResult(w.msg.callId, w.msg.tool, w.msg.success))
  }

  function Handle(cfg: Config, p: Pumping, w: Wake): Flow
    requires w.Event?
  {
    if w.msg.IsRequest() then Park(cfg, p, w.msg)
    else if Ending(p, w.msg).Some? then Halt(p, Ending(p, w.msg).value)
    else if w.msg.Delta? || w.msg.Message? then HandleText(cfg, p, w)
    else if w.msg.ToolResponse? then HandleResponse(cfg, p, w)
    else if Notice(w.msg).Some? then Emit(cfg, p, w, Notice(w.msg).value)
    else Settle(cfg, p, w)
  }

  /** A request is put into the slot and the pump yields. */
  function Park(cfg: Config, p: Pumping, request: EventMsg): Flow
    requires request.IsRequest()
  {
    var pending := PendingOf(cfg, request);
    Stop(p.(pending := Some(pending), log := p.log + [Received(request)]), Done(pending.Outcome()))
  }

  /** One turn of the pump's loop. A timer that is not due leaves the wait as it was. */
  function Iterate(cfg: Config, hard: Option<Instant>, before: Pumping, w: Wake): Flow {
    var p := before.(seen := before.seen + [w]);
    match w
    case CancelFired(_) => Halt(p, Done(Cancelled))
    case IdleTimer(at) =>
      if Due(p.idleDeadline, at) then Halt(p, Done(TimedOut(IdleTimeout))) else Next(p)
    case HardTimer(at) =>
      if Due(hard, at) then Halt(p, Done(TimedOut(HardTimeout(at <= p.lastActivity + cfg.recentlyActive)))) else Next(p)
    case ThreadError(_, message) => Halt(p, Fail(Failed(message)))
    case Event(_, _, _, _) => Handle(cfg, p, w)
  }

  /** The loop over all that happens; when nothing more happens the caller drops the pump. */
  function Pump(cfg: Config, hard: Option<Instant>, p: Pumping, feed: seq<Wake>): Flow
    ensures Pump(cfg, hard, p, feed).Stop?
    decreases |feed|
  {
    if feed == [] then Halt(p, Dropped)
    else
      match Iterate(cfg, hard, p, feed[0])
      case Next(p') => Pump(cfg, hard, p', feed[1..])
      case Stop(p', reply) => Stop(p', reply)
  }

  /** `emitted` went to the event channel, `seen` is the part of the feed the pump worked off. */
  datatype Outcome = Outcome(session: Session, reply: Reply, emitted: seq<HostEvent>, seen: seq<Wake>)

  function Deadline(limit: Option<nat>, now: Instant): Option<Instant> {
    if limit.Some? then Some(now + limit.value) else None
  }

  function Armed(cfg: Config, s: Session, now: Instant): Pumping {
    Pumping(s.slot.pending, s.slot.sendOk, "", false, now, Deadline(cfg.idle, now), [], s.log, [])
  }

  function PumpSession(cfg: Config, s: Session, now: Instant, feed: seq<Wake>): Outcome {
    var flow := Pump(cfg, s.slot.hardDeadline, Armed(cfg, s, now), feed);
    Outcome(Session(s.slot.(pending := flow.p.pending, sendOk := flow.p.sendOk), flow.p.log), flow.reply, flow.p.emitted, flow.p.seen)
  }

  // ---------------------------------------------------------------- driver calls

  function Stay(s: Session, reply: Reply): Outcome {
    Outcome(s, reply, [], [])
  }

  function DropPending(s: Session): Session {
    Session(s.slot.(pending := None), if s.slot.pending.Some? then s.log + [Discarded] else s.log)
  }

  function UseCodexSpec(s: Session, launch: Launch): Outcome {
    if launch.apiKeyBlank then Stay(s, Fail(MissingApiKey))
    else if !launch.helperUsable then Stay(s, Fail(Failed("codex helper executable is not configured")))
    else if !launch.sandboxUsable then Stay(s, Fail(Failed("linux sandbox helper path must be absolute")))
    else if !launch.homeCreated then Stay(s, Fail(Failed("codex_home")))
    else
      var t := DropPending(s);
      Stay(Session(t.slot.(launch := Some(launch), live := None, turns := 0, sendOk := false), t.log + [Configured]), Ack)
  }

  function SaturatingSucc(n: u32): u32 {
    if n < U32_MAX then n + 1 else n
  }

  /** `ensure_live`, undisturbed. */
  function EnsureLiveSpec(slot: Slot, start: Start): (Slot, Option<string>) {
    if slot.live.Some? then (slot, None)
    else if slot.launch.None? then (slot, Some("codex runtime is not configured"))
    else match start
      case Started(thread) => (slot.(live := Some(thread)), None)
      case StartFailed(message) => (slot, Some(message))
  }

  function StartTurn(cfg: Config, s: Session, now: Instant): Session {
    Session(s.slot.(turns := SaturatingSucc(s.slot.turns), sendOk := false, hardDeadline := Deadline(cfg.hard, now)),
            s.log + [TurnStarted(now)])
  }

  /** The prompt proper, once a thread is live. */
  function SubmitSpec(cfg: Config, s: Session, world: PromptWorld): Outcome {
    match world.submission
    case SubmitCancelled => Stay(s, Done(Cancelled))
    case SubmitFailed(message) => Stay(s, Fail(Failed(message)))
    case NotSubmitted => Stay(s, Fail(Failed("turn input was not submitted")))
    case Submitted => PumpSession(cfg, StartTurn(cfg, s, world.now), world.now, world.feed)
  }

  function PromptSpec(cfg: Config, s: Session, world: PromptWorld): Outcome {
    if s.slot.pending.Some? then Stay(s, Fail(Failed("agent waiting for tool")))
    else if cfg.maxTurns.Some? && s.slot.turns >= cfg.maxTurns.value then Stay(s, Fail(Failed("max turns")))
    else
      var (slot, failure) := EnsureLiveSpec(s.slot, world.start);
      var t := s.(slot := slot);
      if failure.Some? then Stay(t, Fail(Failed(failure.value)))
      else if world.cancelled then Stay(t, Done(Cancelled))
      else SubmitSpec(cfg, t, world)
  }

  /** The slot gives up its request for the thread's answer; an answer that does not get through ends the turn. */
  function AnswerAndPump(cfg: Config, s: Session, sendOk: bool, kind: AnswerKind, op: Op, delivered: bool, now: Instant, feed: seq<Wake>): Outcome {
    var t := Session(s.slot.(pending := None, sendOk := sendOk), s.log + [Answered(kind, op, delivered)]);
    if delivered then PumpSession(cfg, t, now, feed)
    else Stay(t.(log := t.log + [Ended(false)]), Fail(Failed("submit")))
  }

  const NOT_OPEN := Fail(Failed("codex thread is not open"))

  function CompleteToolSpec(cfg: Config, s: Session, callId: string, output: string, delivered: bool, now: Instant, feed: seq<Wake>): Outcome {
    if s.slot.pending.None? || !s.slot.pending.value.Execute? || s.slot.pending.value.callId != callId then
      Stay(s, Fail(UnknownToolCall(callId)))
    else if s.slot.live.None? then Stay(DropPending(s), NOT_OPEN)
    else
      var name := s.slot.pending.value.name;
      var ok := cfg.outputOk(output);
      AnswerAndPump(cfg, s, s.slot.sendOk || (name == "send_message" && ok), Result(name),
                    DynamicToolResponse(callId, output, ok), delivered, now, feed)
  }

  function RespondSpec(cfg: Config, s: Session, callId: string, permission: Permission, delivered: bool, now: Instant, feed: seq<Wake>): Outcome {
    if s.slot.pending.None? || s.slot.pending.value.callId != callId then Stay(s, Fail(UnknownToolCall(callId)))
    else
      match s.slot.pending.value
      case Execute(_, _, _) => Stay(s, Fail(UnknownToolCall(callId)))
      case Confirm(id, name, args, _) =>
        if IsAllow(permission) then
          var granted := Execute(id, name, args);
          Stay(Session(s.slot.(pending := Some(granted)), s.log + [Allowed(id, permission)]), Done(granted.Outcome()))
        else if s.slot.live.None? then Stay(DropPending(s), NOT_OPEN)
        else AnswerAndPump(cfg, s, s.slot.sendOk, Refusal, DynamicToolResponse(id, "denied by user", false), delivered, now, feed)
      case Exec(id, turnId, _, _, _) =>
        if s.slot.live.None? then Stay(DropPending(s), NOT_OPEN)
        else AnswerAndPump(cfg, s, s.slot.sendOk, Verdict(permission), ExecApproval(id, turnId, Review(permission)), delivered, now, feed)
      case Patch(id, _, _, _) =>
        if s.slot.live.None? then Stay(DropPending(s), NOT_OPEN)
        else AnswerAndPump(cfg, s, s.slot.sendOk, Verdict(permission), PatchApproval(id, Review(permission)), delivered, now, feed)
  }

  function CancelOp(pending: Pending): Op {
    match pending
    case Confirm(callId, _, _, _) => DynamicToolResponse(callId, "cancelled", false)
    case Execute(callId, _, _) => DynamicToolResponse(callId, "cancelled", false)
    case Exec(id, turnId, _, _, _) => ExecApproval(id, turnId, ReviewDecision.Abort)
    case Patch(id, _, _, _) => PatchApproval(id, ReviewDecision.Abort)
  }

  function CancelPendingSpec(s: Session, delivered: bool): Outcome {
    if s.slot.pending.None? then Stay(s, Ack)
    else if s.slot.live.None? then Stay(DropPending(s), Ack)
    else Stay(Session(s.slot.(pending := None), s.log + [Answered(Cancellation, CancelOp(s.slot.pending.value), delivered)]), Ack)
  }

  function ShutdownSpec(s: Session): Outcome {
    var t := DropPending(s);
    Stay(t.(slot := t.slot.(live := None)), Ack)
  }

  function Step(cfg: Config, s: Session, call: Call): Outcome {
    match call
    case UseCodex(launch) => UseCodexSpec(s, launch)
    case Prompt(world) => PromptSpec(cfg, s, world)
    case CompleteTool(callId, output, delivered, now, feed) => CompleteToolSpec(cfg, s, callId, output, delivered, now, feed)
    case Respond(callId, permission, delivered, now, feed) => RespondSpec(cfg, s, callId, permission, delivered, now, feed)
    case CancelPending(delivered) => CancelPendingSpec(s, delivered)
    case Shutdown => ShutdownSpec(s)
  }

  const FRESH := Session(Slot(None, None, None, 0, None, false), [])

  /** The slot and its history after a run of driver calls on a new host. */
  function Run(cfg: Config, calls: seq<Call>): Session {
    if calls == [] then FRESH
    else Step(cfg, Run(cfg, calls[..|calls| - 1]), calls[|calls| - 1]).session
  }
}

/** The values the Codex driver exchanges with its caller, with the Codex thread and with the clock. */
module CodexTypes {
  import opened HostTypes
  import opened Wrappers

  type Instant = nat
  type ThreadId = nat

  const U32_MAX: nat := 0xFFFF_FFFF

  type u32 = n: nat | n <= U32_MAX

  datatype Permission = AllowAlways | AllowOnce | DenyOnce | DenyAlways | Cancel

  /** What one host fixes for its lifetime. A duration of `Duration::MAX` is `None`. */
  datatype Config = Config(
    permissions: map<string, PermissionDefault>,
    worldTools: seq<string>,
    maxTurns: Option<u32>,
    idle: Option<nat>,
    hard: Option<nat>,
    recentlyActive: nat,
    outputOk: string -> bool)

  /** `use_codex`'s argument, with the verdicts of its checks. */
  datatype Launch = Launch(apiKeyBlank: bool, helperUsable: bool, sandboxUsable: bool, homeCreated: bool)

  datatype Pending =
    | Confirm(callId: string, name: string, args: string, prompt: string)
    | Execute(callId: string, name: string, args: string)
    | Exec(id: string, turnId: Option<string>, callId: string, args: string, prompt: string)
    | Patch(id: string, callId: string, args: string, prompt: string)
  {
    /** `yield_view` */
    function View(): PendingYield {
      match this
      case Confirm(callId, name, args, prompt) => PendingYield(callId, name, args, ActionRequiredYield, prompt)
      case Execute(callId, name, args) => PendingYield(callId, name, args, ToolRequestYield, "")
      case Exec(_, _, callId, args, prompt) => PendingYield(callId, "shell", args, ActionRequiredYield, prompt)
      case Patch(_, callId, args, prompt) => PendingYield(callId, "apply_patch", args, ActionRequiredYield, prompt)
    }

    function Outcome(): TurnOutcome {
      Yielded(View().kind, View().callId, View().name)
    }
  }

  datatype TimeoutKind = IdleTimeout | HardTimeout(recentlyActive: bool)

  datatype TurnOutcome =
    | Finished(text: string, replied: bool, visible: bool)
    | Yielded(kind: YieldKind, callId: string, name: string)
    | Cancelled
    | TimedOut(timeout: TimeoutKind)

  /** How a driver call ends for its caller. `Dropped` is a caller that gave up waiting on the pump. */
  datatype Reply = Ack | Done(outcome: TurnOutcome) | Fail(error: HostError) | Dropped

  /** The events of a Codex thread the pump tells apart. */
  datatype EventMsg =
    | Delta(text: string)
    | Message(text: string)
    | TokenCount(usage: Option<(nat, nat)>)
    | ExecBegin(callId: string, command: string)
    | ExecEnd(callId: string, exitCode: int)
    | McpBegin(callId: string, tool: string, args: string)
    | McpEnd(callId: string, tool: string, success: bool)
    | Compacted
    | ToolCall(callId: string, tool: string, args: string)
    | ToolResponse(callId: string, tool: string, success: bool)
    | ExecApprovalRequest(callId: string, approvalId: Option<string>, turnId: string, command: string, reason: Option<string>)
    | PatchApprovalRequest(callId: string, reason: Option<string>)
    | TurnComplete(error: Option<string>, lastMessage: Option<string>)
    | Error(message: string)
    | TurnAborted
    | RequestUserInput
    | RequestPermissions
    | Other
  {
    predicate IsRequest() {
      ToolCall? || ExecApprovalRequest? || PatchApprovalRequest?
    }
  }

  datatype HostEvent =
    | TextDelta(delta: string)
    | ToolRequested(callId: string, name: string, args: string)
    | ToolResult(callId: string, name: string, ok: bool)
    | Usage(inputTokens: nat, outputTokens: nat)

  /** One way the pump's wait can end. `after` is the time the event was worked off,
      `emitOk` whether the event channel still had a receiver. */
  datatype Wake =
    | CancelFired(at: Instant)
    | IdleTimer(at: Instant)
    | HardTimer(at: Instant)
    | ThreadError(at: Instant, message: string)
    | Event(at: Instant, msg: EventMsg, emitOk: bool, after: Instant)

  datatype ReviewDecision = ApprovedForSession | Approved | Denied | Abort

  /** What the driver submits to the thread. */
  datatype Op =
    | DynamicToolResponse(id: string, text: string, success: bool)
    | ExecApproval(id: string, turnId: Option<string>, decision: ReviewDecision)
    | PatchApproval(id: string, decision: ReviewDecision)
  {
    /** The answer tells the thread to go ahead. */
    predicate Grants() {
      match this
      case DynamicToolResponse(_, _, success) => success
      case ExecApproval(_, _, d) => d == Approved || d == ApprovedForSession
      case PatchApproval(_, d) => d == Approved || d == ApprovedForSession
    }
  }

  datatype AnswerKind = Result(tool: string) | Refusal | Verdict(permission: Permission) | Cancellation

  /** The history of a slot, one entry for each thing that happened to it. */
  datatype Entry =
    | Configured
    | TurnStarted(at: Instant)
    | Received(request: EventMsg)
    | Allowed(callId: string, permission: Permission)
    | Answered(kind: AnswerKind, op: Op, delivered: bool)
    | Discarded
    | ResponseSeen(tool: string, success: bool)
    | Ended(finished: bool)

  type Log = seq<Entry>

  datatype Slot = Slot(
    launch: Option<Launch>,
    live: Option<ThreadId>,
    pending: Option<Pending>,
    turns: u32,
    hardDeadline: Option<Instant>,
    sendOk: bool)

  datatype Session = Session(slot: Slot, log: Log)

  datatype Start = Started(thread: ThreadId) | StartFailed(message: string)

  datatype Submission = SubmitCancelled | SubmitFailed(message: string) | NotSubmitted | Submitted

  /** What the world answers while one prompt runs. */
  datatype PromptWorld = PromptWorld(start: Start, cancelled: bool, submission: Submission, now: Instant, feed: seq<Wake>)

  datatype Call =
    | UseCodex(launch: Launch)
    | Prompt(world: PromptWorld)
    | CompleteTool(callId: string, output: string, delivered: bool, now: Instant, feed: seq<Wake>)
    | Respond(callId: string, permission: Permission, delivered: bool, now: Instant, feed: seq<Wake>)
    | CancelPending(delivered: bool)
    | Shutdown
}

/** What both drivers of the host answer with, and the profile's default for a tool. */
module HostTypes {
  datatype PermissionDefault = AlwaysAllow | AskBefore | NeverAllow

  datatype YieldKind = ToolRequestYield | ActionRequiredYield

  /** What the host tells of a call that waits. */
  datatype PendingYield = PendingYield(callId: string, name: string, argumentsJson: string, kind: YieldKind, prompt: string)

  datatype HostError =
    | MissingApiKey
    | UnknownSession(session: string)
    | UnknownToolCall(callId: string)
    | Failed(message: string)
}

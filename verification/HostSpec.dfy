/** The host's conversations and the file they are persisted to: what each call does to them. */
module HostSpec {
  import opened HostTypes
  import opened Wrappers
  import opened Conversations
  import opened PendingCalls
  import opened Utf8

  /** The files of the directory the session's file is in, by name. */
  type Disk = map<string, Bytes>

  /** The JSON library: conversations to and from bytes, and JSON text. */
  datatype Codec = Codec(write: Conversation -> Bytes, read: Bytes -> Option<Conversation>, parse: string -> Option<Json>)

  /** What was written reads back. */
  ghost predicate Faithful(codec: Codec) {
    forall c :: codec.read(codec.write(c)) == Some(c)
  }

  /** How far writing a session gets before it fails or the machine stops. */
  datatype Fate = Unstarted | Torn(n: nat) | Unrenamed | Done

  datatype Env = Env(codec: Codec, kickoff: Message -> bool, names: set<string>)

  datatype Host = Host(
    conversations: map<string, Conversation>,
    sessionPath: Option<string>,
    resumeOnOpen: bool,
    inputTokens: nat,
    lastUsage: map<string, TokenUsage>,
    disk: Disk)

  /** Why a batch of effects is not Ok. */
  datatype EffectError = MissingTarget | Unpersisted

  const PERSIST_FAILED := Failed("persist")

  /** A turn yields, or the run loop is entered. */
  datatype TurnReply = Yielded(kind: YieldKind, callId: string, name: string) | Entered | Refused(error: HostError)

  /** `HostEvent::Usage` */
  datatype TokenCount = TokenCount(input: nat, output: nat)

  // ---------------------------------------------------------------- the file

  function LastDot(name: string): (r: Option<nat>)
    ensures r.None? ==> '.' !in name
    ensures r.Some? ==> r.value < |name| && name[r.value] == '.' && '.' !in name[r.value + 1..]
  {
    if name == [] then None
    else if name[|name| - 1] == '.' then Some(|name| - 1)
    else
      var r := LastDot(name[..|name| - 1]);
      assert r.Some? ==> name[r.value + 1..] == name[..|name| - 1][r.value + 1..] + [name[|name| - 1]];
      r
  }

  /** `file_stem`: a dot at the front starts no extension. */
  function FileStem(name: string): string {
    var dot := LastDot(name);
    if dot.None? || dot.value == 0 then name else name[..dot.value]
  }

  /** `with_extension("json.tmp")` */
  function TmpName(name: string): string {
    FileStem(name) + ".json.tmp"
  }

  /** Names a file, not a directory. */
  predicate IsFileName(name: string) {
    name != "" && name != "." && name != ".."
  }

  /** What is written first is never the session's file itself. */
  lemma TmpIsAnotherFile(name: string)
    ensures TmpName(name) != name
  {
    var dot := LastDot(name);
    if dot.Some? && dot.value > 0 {
      assert TmpName(name)[dot.value + 5] == '.';
    }
  }

  function Prefix(bytes: Bytes, n: nat): Bytes {
    bytes[..if n <= |bytes| then n else |bytes|]
  }

  /** `write_session`: to the side, then renamed; nothing can be written where the path names a directory. */
  function WriteSpec(disk: Disk, path: string, bytes: Bytes, fate: Fate): Disk {
    if !IsFileName(path) then disk
    else
      match fate
      case Unstarted => disk
      case Torn(n) => disk[TmpName(path) := Prefix(bytes, n)]
      case Unrenamed => disk[TmpName(path) := bytes]
      case Done => (disk - {TmpName(path)})[path := bytes]
  }

  predicate Written(path: string, fate: Fate) {
    IsFileName(path) && fate.Done?
  }

  /** `read_session` */
  function ReadSpec(codec: Codec, disk: Disk, path: string): Conversation {
    if path !in disk then [] else codec.read(disk[path]).UnwrapOr([])
  }

  /** `persist_session`, and whether it succeeds. */
  function PersistSpec(codec: Codec, h: Host, id: string, fate: Fate): (Host, bool) {
    if h.sessionPath.None? || id !in h.conversations then (h, true)
    else (h.(disk := WriteSpec(h.disk, h.sessionPath.value, codec.write(h.conversations[id]), fate)),
          Written(h.sessionPath.value, fate))
  }

  /** `ensure_conversation` */
  function OpenSpec(codec: Codec, h: Host, id: string): Host {
    if id in h.conversations then h
    else
      var resumed := h.sessionPath.Some? && h.resumeOnOpen && h.sessionPath.value in h.disk;
      h.(conversations := h.conversations[id := if resumed then ReadSpec(codec, h.disk, h.sessionPath.value) else []])
  }

  function WithConversation(h: Host, id: string, c: Conversation): Host {
    h.(conversations := h.conversations[id := c])
  }

  // ---------------------------------------------------------------- the calls

  /** The last usage among the first `n` effects. */
  function LastUsage(effects: seq<Effect>, n: nat): Option<TokenUsage>
    requires n <= |effects|
  {
    if n == 0 then None
    else if effects[n - 1].Usage? then Some(effects[n - 1].usage)
    else LastUsage(effects, n - 1)
  }

  /** `unwrap_or(0).max(0)` */
  function Tokens(count: Option<int>): nat {
    if count.None? || count.value < 0 then 0 else count.value
  }

  function Noted(h: Host, id: string, usage: Option<TokenUsage>): Host {
    if usage.None? then h
    else h.(inputTokens := Tokens(usage.value.input), lastUsage := h.lastUsage[id := usage.value])
  }

  function EventOf(usage: Option<TokenUsage>): Option<TokenCount> {
    if usage.None? then None else Some(TokenCount(Tokens(usage.value.input), Tokens(usage.value.output)))
  }

  /** The conversation as effects find it; a session not yet opened starts out empty, whatever is on disk. */
  function Current(h: Host, id: string): Conversation {
    if id in h.conversations then h.conversations[id] else []
  }

  /** What is left to do once a batch of `n` effects was applied as far as it goes. */
  function FinishSpec(codec: Codec, h: Host, id: string, batch: Batch, n: nat, usage: Option<TokenUsage>, fate: Fate)
    : (Host, Result<Option<TokenCount>, EffectError>)
  {
    var changed := WithConversation(Noted(h, id, usage), id, batch.conversation);
    if batch.done < n then (changed, Err(MissingTarget))
    else
      var (persisted, ok) := PersistSpec(codec, changed, id, fate);
      (persisted, if ok then Ok(EventOf(usage)) else Err(Unpersisted))
  }

  /** `apply_effects` */
  function ApplySpec(codec: Codec, h: Host, id: string, effects: seq<Effect>, fate: Fate)
    : (Host, Result<Option<TokenCount>, EffectError>)
  {
    var batch := Applied(Current(h, id), effects, |effects|);
    FinishSpec(codec, h, id, batch, |effects|, LastUsage(effects, batch.done), fate)
  }

  /** Pushes messages and persists: the tail of `prompt`, `complete_tool` and `respond_permission`. */
  function PushSpec(codec: Codec, h: Host, id: string, messages: seq<Message>, fate: Fate): (Host, bool)
    requires id in h.conversations
  {
    PersistSpec(codec, WithConversation(h, id, h.conversations[id] + messages), id, fate)
  }

  /** `prompt_with_context`, up to the run loop, with the messages it makes of the prompt. */
  function PromptSpec(codec: Codec, h: Host, id: string, messages: seq<Message>, fate: Fate): (Host, TurnReply) {
    var (pushed, ok) := PushSpec(codec, OpenSpec(codec, h, id), id, messages, fate);
    (pushed, if ok then Entered else Refused(PERSIST_FAILED))
  }

  /** `parse_tool_output` */
  function ParseToolOutput(codec: Codec, raw: string): ToolOutput {
    var value := codec.parse(raw);
    if value.Some? && (value.value.Object? || value.value.Array? || value.value.String?) then Structured(value.value)
    else ErrorText(raw)
  }

  predicate CompleteAccepted(env: Env, h: Host, id: string, callId: string) {
    && id in h.conversations && Confirmations(h.conversations[id]) == []
    && Waits(KimPending(env.kickoff, env.names, h.conversations[id]), callId)
  }

  /** `complete_tool`, up to the run loop. */
  function CompleteSpec(env: Env, h: Host, id: string, callId: string, raw: string, fate: Fate): (Host, TurnReply) {
    if id !in h.conversations then (h, Refused(UnknownSession(id)))
    else if !CompleteAccepted(env, h, id, callId) then (h, Refused(UnknownToolCall(callId)))
    else
      var message := ToolResponseMessage(callId, ParseToolOutput(env.codec, raw));
      var (pushed, ok) := PushSpec(env.codec, h, id, [message], fate);
      if !ok then (pushed, Refused(PERSIST_FAILED))
      else
        var remaining := SessionPending(env.kickoff, env.names, pushed.conversations[id]);
        (pushed, if remaining != [] then Yielded(ToolRequestYield, remaining[0].callId, remaining[0].name) else Entered)
  }

  function FirstOfKind(pending: seq<PendingYield>, kind: YieldKind): Option<PendingYield> {
    if pending == [] then None
    else if pending[0].kind == kind then Some(pending[0])
    else FirstOfKind(pending[1..], kind)
  }

  /** `respond_permission`, up to the run loop. */
  function RespondSpec(env: Env, h: Host, id: string, callId: string, permission: string, fate: Fate): (Host, TurnReply) {
    if id !in h.conversations then (h, Refused(UnknownSession(id)))
    else if !Waits(Confirmations(h.conversations[id]), callId) then (h, Refused(UnknownToolCall(callId)))
    else
      var (pushed, ok) := PushSpec(env.codec, h, id, [ConfirmationResponseMessage(callId, permission)], fate);
      if !ok then (pushed, Refused(PERSIST_FAILED))
      else
        var first := FirstOfKind(SessionPending(env.kickoff, env.names, pushed.conversations[id]), ActionRequiredYield);
        (pushed, if first.Some? then Yielded(ActionRequiredYield, first.value.callId, first.value.name) else Entered)
  }
}

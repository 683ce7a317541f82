/** Conversations as the host keeps them, and the effects that change them. */
module Conversations {
  import opened Wrappers

  /** A JSON value; the text of numbers is kept as it is. */
  datatype Json = Null | Boolean(b: bool) | Number(text: string) | String(s: string) | Array(items: seq<Json>)
                | Object(fields: map<string, Json>)

  datatype ToolOutput = Structured(value: Json) | ErrorText(text: string)

  /** A block of a message; `call` is missing where the model's call did not parse. */
  datatype Content =
    | Text(text: string)
    | ToolRequest(id: string, call: Option<Call>, meta: Option<Json>)
    | ToolResponse(id: string, output: ToolOutput)
    | Confirmation(id: string, tool: Call, prompt: string)
    | ConfirmationResponse(id: string, permission: string)
    | OtherBlock

  datatype Call = Call(name: string, arguments: string)

  datatype Message = Message(id: Option<string>, content: seq<Content>, userVisible: bool, agentVisible: bool)

  type Conversation = seq<Message>

  // ---------------------------------------------------------------- patching a request

  predicate IsRequest(block: Content, id: string) {
    block.ToolRequest? && block.id == id
  }

  /** The patch laid over what was there: key by key where both are objects, in its place otherwise. */
  function MergeMeta(meta: Option<Json>, patch: Json): Json {
    var base := meta.UnwrapOr(Object(map[]));
    if base.Object? && patch.Object? then Object(base.fields + patch.fields) else patch
  }

  function PatchBlock(block: Content, patch: Json): Content
    requires block.ToolRequest?
  {
    block.(meta := Some(MergeMeta(block.meta, patch)))
  }

  /** Message `m`, block `b` is the first request with that id. */
  predicate FirstRequest(c: Conversation, id: string, m: nat, b: nat) {
    && m < |c| && b < |c[m].content| && IsRequest(c[m].content[b], id)
    && (forall k :: 0 <= k < b ==> !IsRequest(c[m].content[k], id))
    && (forall j, k :: 0 <= j < m && 0 <= k < |c[j].content| ==> !IsRequest(c[j].content[k], id))
  }

  predicate Requested(c: Conversation, id: string) {
    exists m: nat, b: nat :: m < |c| && b < |c[m].content| && IsRequest(c[m].content[b], id)
  }

  function WithBlock(c: Conversation, m: nat, b: nat, block: Content): Conversation
    requires m < |c| && b < |c[m].content|
  {
    c[m := c[m].(content := c[m].content[b := block])]
  }

  /** Where the first request with that id is. */
  function FindBlock(content: seq<Content>, id: string): (r: Option<nat>)
    ensures r.None? ==> forall k :: 0 <= k < |content| ==> !IsRequest(content[k], id)
    ensures r.Some? ==> r.value < |content| && IsRequest(content[r.value], id)
                        && forall k :: 0 <= k < r.value ==> !IsRequest(content[k], id)
  {
    if content == [] then None
    else if IsRequest(content[0], id) then Some(0)
    else
      var rest := FindBlock(content[1..], id);
      if rest.None? then None else Some(rest.value + 1)
  }

  function FindRequest(c: Conversation, id: string): (r: Option<(nat, nat)>)
    ensures r.None? ==> !Requested(c, id)
    ensures r.Some? ==> FirstRequest(c, id, r.value.0, r.value.1)
  {
    if c == [] then None
    else
      var b := FindBlock(c[0].content, id);
      if b.Some? then Some((0, b.value))
      else
        var rest := FindRequest(c[1..], id);
        if rest.None? then None else Some((rest.value.0 + 1, rest.value.1))
  }

  /** `patch_tool_request_meta`: nothing, if there is no such request. */
  function PatchSpec(c: Conversation, id: string, patch: Json): Option<Conversation> {
    var at := FindRequest(c, id);
    if at.None? then None
    else Some(WithBlock(c, at.value.0, at.value.1, PatchBlock(c[at.value.0].content[at.value.1], patch)))
  }

  lemma FirstRequestUnique(c: Conversation, id: string, m: nat, b: nat, m': nat, b': nat)
    requires FirstRequest(c, id, m, b) && FirstRequest(c, id, m', b')
    ensures m == m' && b == b'
  {
  }

  method PatchToolRequestMeta(conversation: Conversation, toolCallId: string, patch: Json)
    returns (patched: Option<Conversation>)
    ensures patched == PatchSpec(conversation, toolCallId, patch)
  {
    var m := 0;
    while m < |conversation|
      invariant 0 <= m <= |conversation|
      invariant forall j, k :: 0 <= j < m && 0 <= k < |conversation[j].content| ==>
                  !IsRequest(conversation[j].content[k], toolCallId)
    {
      var content := conversation[m].content;
      var b := 0;
      while b < |content|
        invariant 0 <= b <= |content|
        invariant forall k :: 0 <= k < b ==> !IsRequest(content[k], toolCallId)
      {
        var block := content[b];
        if block.ToolRequest? && block.id == toolCallId {
          var meta := if block.meta.Some? then block.meta.value else Object(map[]);
          if meta.Object? && patch.Object? {
            meta := Object(meta.fields + patch.fields);
          } else {
            meta := patch;
          }
          var at := FindRequest(conversation, toolCallId);
          FirstRequestUnique(conversation, toolCallId, m, b, at.value.0, at.value.1);
          return Some(WithBlock(conversation, m, b, block.(meta := Some(meta))));
        }
        b := b + 1;
      }
      m := m + 1;
    }
    return None;
  }

  // ---------------------------------------------------------------- visibility

  /** Message `m` is the first with that id. */
  predicate FirstWithId(c: Conversation, id: string, m: nat) {
    m < |c| && c[m].id == Some(id) && forall j :: 0 <= j < m ==> c[j].id != Some(id)
  }

  function FindMessage(c: Conversation, id: string): (r: Option<nat>)
    ensures r.None? ==> forall j :: 0 <= j < |c| ==> c[j].id != Some(id)
    ensures r.Some? ==> FirstWithId(c, id, r.value)
  {
    if c == [] then None
    else if c[0].id == Some(id) then Some(0)
    else
      var rest := FindMessage(c[1..], id);
      if rest.None? then None else Some(rest.value + 1)
  }

  /** `set_visibility` */
  function VisibilitySpec(c: Conversation, id: string, user: bool, agent: bool): Option<Conversation> {
    var at := FindMessage(c, id);
    if at.None? then None else Some(c[at.value := c[at.value].(userVisible := user, agentVisible := agent)])
  }

  method SetVisibility(conversation: Conversation, messageId: string, userVisible: bool, agentVisible: bool)
    returns (changed: Option<Conversation>)
    ensures changed == VisibilitySpec(conversation, messageId, userVisible, agentVisible)
  {
    var m := 0;
    while m < |conversation|
      invariant 0 <= m <= |conversation|
      invariant forall j :: 0 <= j < m ==> conversation[j].id != Some(messageId)
    {
      if conversation[m].id == Some(messageId) {
        return Some(conversation[m := conversation[m].(userVisible := userVisible, agentVisible := agentVisible)]);
      }
      m := m + 1;
    }
    return None;
  }

  // ---------------------------------------------------------------- effects

  datatype TokenUsage = TokenUsage(input: Option<int>, output: Option<int>)

  datatype Effect =
    | Usage(usage: TokenUsage)
    | AppendMessage(message: Message)
    | ReplaceConversation(conversation: Conversation)
    | PatchToolRequest(toolCallId: string, patch: Json)
    | SetMessageVisibility(messageId: string, userVisible: bool, agentVisible: bool)

  /** What an effect makes of a conversation; nothing, if its target is missing. */
  function Effected(c: Conversation, effect: Effect): Option<Conversation> {
    match effect
    case Usage(_) => Some(c)
    case AppendMessage(message) => Some(c + [message])
    case ReplaceConversation(conversation) => Some(conversation)
    case PatchToolRequest(id, patch) => PatchSpec(c, id, patch)
    case SetMessageVisibility(id, user, agent) => VisibilitySpec(c, id, user, agent)
  }

  /** The target is there: the request by its id, or the message by its id. */
  predicate HasTarget(c: Conversation, effect: Effect) {
    match effect
    case PatchToolRequest(id, _) => Requested(c, id)
    case SetMessageVisibility(id, _, _) => exists m :: 0 <= m < |c| && c[m].id == Some(id)
    case _ => true
  }

  /** An effect succeeds exactly if its target is there. */
  lemma EffectedExactly(c: Conversation, effect: Effect)
    ensures Effected(c, effect).Some? <==> HasTarget(c, effect)
  {
  }

  /** The effects up to the first whose target is missing. */
  datatype Batch = Batch(conversation: Conversation, done: nat)

  function Applied(c: Conversation, effects: seq<Effect>, n: nat): (b: Batch)
    requires n <= |effects|
    ensures b.done <= n
  {
    if n == 0 then Batch(c, 0)
    else
      var before := Applied(c, effects, n - 1);
      if before.done < n - 1 then before
      else
        var next := Effected(before.conversation, effects[n - 1]);
        if next.None? then before else Batch(next.value, n)
  }
}

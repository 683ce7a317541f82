/** What each effect leaves, what a batch notes of its usage, and what completions and permission replies append:
    stated on the conversations before and after, by position. */
module EffectLaws {
  import opened HostTypes
  import opened Wrappers
  import opened Conversations
  import opened PendingCalls
  import opened HostSpec

  // ---------------------------------------------------------------- one effect

  /** Only message `m` changes. */
  predicate OnlyMessage(c: Conversation, after: Conversation, m: nat) {
    |after| == |c| && forall j :: 0 <= j < |c| && j != m ==> after[j] == c[j]
  }

  /** A visibility effect sets both flags of the first message with that id, each to its own value, and changes
      nothing else. */
  lemma VisibilitySetsItsFlags(c: Conversation, id: string, user: bool, agent: bool, m: nat)
    requires m < |c| && c[m].id == Some(id) && forall j :: 0 <= j < m ==> c[j].id != Some(id)
    ensures var effected := Effected(c, SetMessageVisibility(id, user, agent));
            && effected.Some? && OnlyMessage(c, effected.value, m)
            && var message := effected.value[m];
            && message.id == c[m].id && message.content == c[m].content
            && (message.userVisible <==> user) && (message.agentVisible <==> agent)
  {
    var at := FindMessage(c, id);
    assert at == Some(m);
  }

  /** Both values are objects. */
  predicate BothObjects(meta: Option<Json>, patch: Json) {
    patch.Object? && (meta.None? || meta.value.Object?)
  }

  /** What a patch makes of the metadata: objects are merged key by key, the patch's keys winning; anything else
      is replaced. */
  ghost predicate MergesTo(meta: Option<Json>, patch: Json, merged: Json) {
    if BothObjects(meta, patch) then
      && merged.Object?
      && (forall key :: key in merged.fields <==> key in patch.fields || (meta.Some? && key in meta.value.fields))
      && (forall key :: key in patch.fields ==> merged.fields[key] == patch.fields[key])
      && (forall key :: key in merged.fields && key !in patch.fields ==> merged.fields[key] == meta.value.fields[key])
    else merged == patch
  }

  /** Block `b` of message `m` is the first request with that id. */
  predicate FirstOfId(c: Conversation, id: string, m: nat, b: nat) {
    && m < |c| && b < |c[m].content| && c[m].content[b].ToolRequest? && c[m].content[b].id == id
    && (forall j, k :: 0 <= j <= m && 0 <= k < |c[j].content| && (j < m || k < b) ==>
          !(c[j].content[k].ToolRequest? && c[j].content[k].id == id))
  }

  /** A patch effect merges into the metadata of the first request with that id and changes nothing else. */
  lemma PatchMergesByKey(c: Conversation, id: string, patch: Json, m: nat, b: nat) returns (merged: Json)
    requires FirstOfId(c, id, m, b)
    ensures var effected := Effected(c, PatchToolRequest(id, patch));
            && effected.Some? && OnlyMessage(c, effected.value, m)
            && var request := c[m].content[b];
            && effected.value[m] == c[m].(content := c[m].content[b := ToolRequest(request.id, request.call, Some(merged))])
            && MergesTo(request.meta, patch, merged)
  {
    var at := FindRequest(c, id);
    assert FirstRequest(c, id, m, b);
    FirstRequestUnique(c, id, m, b, at.value.0, at.value.1);
    merged := MergeMeta(c[m].content[b].meta, patch);
    MergeIsByKey(c[m].content[b].meta, patch);
  }

  lemma MergeIsByKey(meta: Option<Json>, patch: Json)
    ensures MergesTo(meta, patch, MergeMeta(meta, patch))
  {
  }

  /** The other effects: a usage leaves the conversation, a message goes to the end, a replacement is total. */
  lemma OtherEffectsLeave(c: Conversation, usage: TokenUsage, message: Message, conversation: Conversation)
    ensures Effected(c, Effect.Usage(usage)) == Some(c)
    ensures var appended := Effected(c, AppendMessage(message));
            appended.Some? && |appended.value| == |c| + 1 && appended.value[..|c|] == c && appended.value[|c|] == message
    ensures Effected(c, ReplaceConversation(conversation)) == Some(conversation)
  {
  }

  // ---------------------------------------------------------------- usage

  /** The tokens a count stands for: none where it is missing or negative. */
  predicate Counted(count: Option<int>, n: nat) {
    if count.Some? && count.value >= 0 then n == count.value else n == 0
  }

  /** The last usage among the first `n` effects is at `u`. */
  predicate LastUsageAt(effects: seq<Effect>, n: nat, u: nat)
    requires n <= |effects|
  {
    u < n && effects[u].Usage? && forall j :: u < j < n ==> !effects[j].Usage?
  }

  lemma {:induction false} LastUsageIs(effects: seq<Effect>, n: nat, u: nat)
    requires n <= |effects|
    ensures LastUsageAt(effects, n, u) ==> LastUsage(effects, n) == Some(effects[u].usage)
    ensures (forall j :: 0 <= j < n ==> !effects[j].Usage?) ==> LastUsage(effects, n).None?
  {
    if n > 0 && !effects[n - 1].Usage? {
      LastUsageIs(effects, n - 1, u);
    }
  }

  /** The host counts and keeps that usage for that session, and the event tells input and output in their places. */
  predicate UsageNoted(h: Host, id: string, usage: TokenUsage, after: Host, r: Result<Option<TokenCount>, EffectError>) {
    && Counted(usage.input, after.inputTokens)
    && after.lastUsage == h.lastUsage[id := usage]
    && (r.Ok? ==> r.value.Some? && Counted(usage.input, r.value.value.input) && Counted(usage.output, r.value.value.output))
  }

  lemma FinishNotes(codec: Codec, h: Host, id: string, batch: Batch, n: nat, usage: Option<TokenUsage>, fate: HostSpec.Fate)
    ensures var (after, r) := FinishSpec(codec, h, id, batch, n, usage, fate);
            && (usage.Some? ==> UsageNoted(h, id, usage.value, after, r))
            && (usage.None? ==> after.inputTokens == h.inputTokens && after.lastUsage == h.lastUsage && (r.Ok? ==> r.value.None?))
            && after.sessionPath == h.sessionPath && after.resumeOnOpen == h.resumeOnOpen
  {
  }

  /** Of the effects a batch applied the last usage counts; without one, counts are as they were and no event is sent. */
  lemma UsageIsNoted(codec: Codec, h: Host, id: string, effects: seq<Effect>, fate: HostSpec.Fate, u: nat)
    ensures var (after, r) := ApplySpec(codec, h, id, effects, fate);
            var done := Applied(Current(h, id), effects, |effects|).done;
            && (LastUsageAt(effects, done, u) ==> UsageNoted(h, id, effects[u].usage, after, r))
            && ((forall j :: 0 <= j < done ==> !effects[j].Usage?) ==>
                  after.inputTokens == h.inputTokens && after.lastUsage == h.lastUsage && (r.Ok? ==> r.value.None?))
            && after.sessionPath == h.sessionPath && after.resumeOnOpen == h.resumeOnOpen
  {
    var batch := Applied(Current(h, id), effects, |effects|);
    LastUsageIs(effects, batch.done, u);
    FinishNotes(codec, h, id, batch, |effects|, LastUsage(effects, batch.done), fate);
  }

  // ---------------------------------------------------------------- answers

  /** The session's conversation has that message at its end, and the other sessions are as they were. */
  predicate Appended(h: Host, after: Host, id: string, message: Message) {
    id in h.conversations && after.conversations == h.conversations[id := h.conversations[id] + [message]]
  }

  /** An answer to a tool call that both user and agent see; the output as its JSON value if that is an object, an
      array or a string, and as an error text otherwise. */
  predicate IsToolAnswer(codec: Codec, message: Message, callId: string, raw: string) {
    && message.id.None? && message.userVisible && message.agentVisible
    && |message.content| == 1 && message.content[0].ToolResponse? && message.content[0].id == callId
    && var output, value := message.content[0].output, codec.parse(raw);
    if value.None? || value.value.Null? || value.value.Boolean? || value.value.Number? then output == ErrorText(raw)
    else output == Structured(value.value)
  }

  /** The permission as it was given, hidden from user and agent. */
  predicate IsPermissionAnswer(message: Message, callId: string, permission: string) {
    && message.id.None? && !message.userVisible && !message.agentVisible
    && message.content == [ConfirmationResponse(callId, permission)]
  }

  /** A completion appends its answer exactly if no confirmation is open and a call waits under its id, whether or
      not it can then be written; otherwise the conversations are as they were. */
  lemma CompletionAppends(env: Env, h: Host, id: string, callId: string, raw: string, fate: HostSpec.Fate) returns (message: Message)
    ensures IsToolAnswer(env.codec, message, callId, raw)
    ensures var after := CompleteSpec(env, h, id, callId, raw, fate).0;
            if id in h.conversations && Confirmations(h.conversations[id]) == []
               && Waits(KimPending(env.kickoff, env.names, h.conversations[id]), callId)
            then Appended(h, after, id, message) else after == h
  {
    message := ToolResponseMessage(callId, ParseToolOutput(env.codec, raw));
  }

  /** A permission reply likewise, if a confirmation is open under its id. */
  lemma ReplyAppends(env: Env, h: Host, id: string, callId: string, permission: string, fate: HostSpec.Fate) returns (message: Message)
    ensures IsPermissionAnswer(message, callId, permission)
    ensures var after := RespondSpec(env, h, id, callId, permission, fate).0;
            if id in h.conversations && Waits(Confirmations(h.conversations[id]), callId)
            then Appended(h, after, id, message) else after == h
  {
    message := ConfirmationResponseMessage(callId, permission);
  }

  /** What the session's file is read as. */
  predicate ReadsAs(codec: Codec, h: Host, c: Conversation) {
    if h.sessionPath.Some? && h.sessionPath.value in h.disk && codec.read(h.disk[h.sessionPath.value]).Some?
    then c == codec.read(h.disk[h.sessionPath.value]).value else c == []
  }

  /** A prompt's messages go to the end of the session's conversation: of the one in memory, or else of the one on
      file if the host resumes, or else of an empty one. */
  lemma PromptAppends(codec: Codec, h: Host, id: string, messages: seq<Message>, fate: HostSpec.Fate) returns (c: Conversation)
    ensures (PromptSpec(codec, h, id, messages, fate).0).conversations == h.conversations[id := c + messages]
    ensures if id in h.conversations then c == h.conversations[id] else if h.resumeOnOpen then ReadsAs(codec, h, c) else c == []
  {
    c := OpenSpec(codec, h, id).conversations[id];
  }

  // ---------------------------------------------------------------- the file written first

  lemma LastDotIs(stem: string, ext: string)
    requires '.' !in ext
    ensures LastDot(stem + "." + ext) == Some(|stem|)
  {
    var name := stem + "." + ext;
    assert name[|stem|] == '.';
  }

  /** The extension behind the last dot is replaced; a name without one, a dot at its front apart, gets it added. */
  lemma TmpNameIs(stem: string, ext: string)
    requires '.' !in ext
    ensures TmpName(if stem == "" then "." + ext else stem + "." + ext) == (if stem == "" then "." + ext else stem) + ".json.tmp"
    ensures TmpName(ext) == ext + ".json.tmp"
  {
    LastDotIs(stem, ext);
    assert stem == "" ==> stem + "." + ext == "." + ext;
    assert (stem + "." + ext)[..|stem|] == stem;
  }
}

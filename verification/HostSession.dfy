/** The host as an object whose calls update its conversations and its file in place, each tied to `HostSpec`. */
module HostSession {
  import opened HostTypes
  import opened Wrappers
  import opened Conversations
  import opened PendingCalls
  import opened Utf8
  import S = HostSpec

  class AgentHost {
    const env: S.Env
    var conversations: map<string, Conversation>
    var sessionPath: Option<string>
    var resumeOnOpen: bool
    var inputTokens: nat
    var lastUsage: map<string, TokenUsage>
    var disk: S.Disk

    ghost function State(): S.Host
      reads this
    {
      S.Host(conversations, sessionPath, resumeOnOpen, inputTokens, lastUsage, disk)
    }

    /** A new host in front of a disk, with `configure_persist`. */
    constructor (env: S.Env, path: Option<string>, resume: bool, disk: S.Disk)
      ensures this.env == env && State() == S.Host(map[], path, resume, 0, map[], disk)
    {
      this.env := env;
      conversations, sessionPath, resumeOnOpen := map[], path, resume;
      inputTokens, lastUsage, this.disk := 0, map[], disk;
    }

    method WriteSession(path: string, conversation: Conversation, fate: S.Fate) returns (ok: bool)
      modifies this`disk
      ensures disk == S.WriteSpec(old(disk), path, env.codec.write(conversation), fate)
      ensures ok == S.Written(path, fate)
    {
      var bytes := env.codec.write(conversation);
      if !S.IsFileName(path) || fate.Unstarted? {
        return false;
      }
      var tmp := S.TmpName(path);
      S.TmpIsAnotherFile(path);
      if fate.Torn? {
        disk := disk[tmp := S.Prefix(bytes, fate.n)];
        return false;
      }
      disk := disk[tmp := bytes];
      if fate.Unrenamed? {
        return false;
      }
      disk := (disk - {tmp})[path := disk[tmp]];
      return true;
    }

    method PersistSession(id: string, fate: S.Fate) returns (ok: bool)
      modifies this`disk
      ensures (State(), ok) == S.PersistSpec(env.codec, old(State()), id, fate)
    {
      if sessionPath.None? {
        return true;
      }
      if id !in conversations {
        return true;
      }
      ok := WriteSession(sessionPath.value, conversations[id], fate);
    }

    method EnsureConversation(id: string)
      modifies this`conversations
      ensures State() == S.OpenSpec(env.codec, old(State()), id)
    {
      if id !in conversations {
        var conversation: Conversation := [];
        if sessionPath.Some? && resumeOnOpen && sessionPath.value in disk {
          conversation := S.ReadSpec(env.codec, disk, sessionPath.value);
        }
        conversations := conversations[id := conversation];
      }
    }

    /** One effect on the session's conversation; false, if its target is missing. */
    method ApplyEffect(id: string, effect: Effect) returns (ok: bool)
      requires id in conversations && !effect.Usage?
      modifies this`conversations
      ensures var c := Effected(old(conversations[id]), effect);
              && ok == c.Some?
              && conversations == if ok then old(conversations)[id := c.value] else old(conversations)
    {
      var c := conversations[id];
      match effect {
        case AppendMessage(message) =>
          conversations := conversations[id := c + [message]];
          return true;
        case ReplaceConversation(conversation) =>
          conversations := conversations[id := conversation];
          return true;
        case PatchToolRequest(toolCallId, patch) =>
          var patched := PatchToolRequestMeta(c, toolCallId, patch);
          if patched.Some? {
            conversations := conversations[id := patched.value];
          }
          return patched.Some?;
        case SetMessageVisibility(messageId, userVisible, agentVisible) =>
          var changed := SetVisibility(c, messageId, userVisible, agentVisible);
          if changed.Some? {
            conversations := conversations[id := changed.value];
          }
          return changed.Some?;
      }
    }

    /** The loop of `apply_effects`: how many effects were applied, and the event of the last usage. */
    method ApplyBatch(id: string, effects: seq<Effect>) returns (done: nat, usageEvent: Option<S.TokenCount>)
      requires id in conversations
      modifies this`conversations, this`inputTokens, this`lastUsage
      ensures Applied(old(conversations[id]), effects, |effects|).done == done <= |effects|
      ensures conversations == old(conversations)[id := Applied(old(conversations[id]), effects, |effects|).conversation]
      ensures var noted := S.Noted(old(State()), id, S.LastUsage(effects, done));
              inputTokens == noted.inputTokens && lastUsage == noted.lastUsage
      ensures usageEvent == S.EventOf(S.LastUsage(effects, done))
    {
      ghost var c := conversations[id];
      usageEvent := None;
      done := 0;
      while done < |effects|
        invariant 0 <= done <= |effects|
        invariant id in conversations && conversations == old(conversations)[id := conversations[id]]
        invariant Applied(c, effects, done) == Batch(conversations[id], done)
        invariant inputTokens == S.Noted(old(State()), id, S.LastUsage(effects, done)).inputTokens
        invariant lastUsage == S.Noted(old(State()), id, S.LastUsage(effects, done)).lastUsage
        invariant usageEvent == S.EventOf(S.LastUsage(effects, done))
      {
        if effects[done].Usage? {
          var usage := effects[done].usage;
          var input, output := S.Tokens(usage.input), S.Tokens(usage.output);
          inputTokens := input;
          lastUsage := lastUsage[id := usage];
          usageEvent := Some(S.TokenCount(input, output));
        } else {
          var ok := ApplyEffect(id, effects[done]);
          if !ok {
            AppliedStops(c, effects, done, |effects|);
            return;
          }
        }
        done := done + 1;
      }
    }

    method ApplyEffects(id: string, effects: seq<Effect>, fate: S.Fate)
      returns (r: Result<Option<S.TokenCount>, S.EffectError>)
      modifies this
      ensures (State(), r) == S.ApplySpec(env.codec, old(State()), id, effects, fate)
    {
      if id !in conversations {
        conversations := conversations[id := []];
      }
      var done, usageEvent := ApplyBatch(id, effects);
      assert conversations == old(conversations)[id := conversations[id]];
      if done < |effects| {
        return Err(S.MissingTarget);
      }
      var persisted := PersistSession(id, fate);
      r := if persisted then Ok(usageEvent) else Err(S.Unpersisted);
    }

    method Push(id: string, messages: seq<Message>, fate: S.Fate) returns (ok: bool)
      requires id in conversations
      modifies this`conversations, this`disk
      ensures (State(), ok) == S.PushSpec(env.codec, old(State()), id, messages, fate)
    {
      conversations := conversations[id := conversations[id] + messages];
      ok := PersistSession(id, fate);
    }

    method Prompt(id: string, messages: seq<Message>, fate: S.Fate) returns (reply: S.TurnReply)
      modifies this`conversations, this`disk
      ensures (State(), reply) == S.PromptSpec(env.codec, old(State()), id, messages, fate)
    {
      EnsureConversation(id);
      var ok := Push(id, messages, fate);
      reply := if ok then S.Entered else S.Refused(S.PERSIST_FAILED);
    }

    method CompleteTool(id: string, callId: string, outputJson: string, fate: S.Fate) returns (reply: S.TurnReply)
      modifies this`conversations, this`disk
      ensures (State(), reply) == S.CompleteSpec(env, old(State()), id, callId, outputJson, fate)
    {
      if id !in conversations {
        return S.Refused(UnknownSession(id));
      }
      var confirmations := UnansweredConfirmations(conversations[id]);
      if confirmations != [] {
        return S.Refused(UnknownToolCall(callId));
      }
      var pending := KimPending(env.kickoff, env.names, conversations[id]);
      if !Waits(pending, callId) {
        return S.Refused(UnknownToolCall(callId));
      }
      var ok := Push(id, [ToolResponseMessage(callId, S.ParseToolOutput(env.codec, outputJson))], fate);
      if !ok {
        return S.Refused(S.PERSIST_FAILED);
      }
      var remaining := SessionPending(env.kickoff, env.names, conversations[id]);
      if remaining != [] {
        return S.Yielded(ToolRequestYield, remaining[0].callId, remaining[0].name);
      }
      return S.Entered;
    }

    method RespondPermission(id: string, callId: string, permission: string, fate: S.Fate) returns (reply: S.TurnReply)
      modifies this`conversations, this`disk
      ensures (State(), reply) == S.RespondSpec(env, old(State()), id, callId, permission, fate)
    {
      if id !in conversations {
        return S.Refused(UnknownSession(id));
      }
      var pending := UnansweredConfirmations(conversations[id]);
      if !Waits(pending, callId) {
        return S.Refused(UnknownToolCall(callId));
      }
      var ok := Push(id, [ConfirmationResponseMessage(callId, permission)], fate);
      if !ok {
        return S.Refused(S.PERSIST_FAILED);
      }
      var first := S.FirstOfKind(SessionPending(env.kickoff, env.names, conversations[id]), ActionRequiredYield);
      if first.Some? {
        return S.Yielded(ActionRequiredYield, first.value.callId, first.value.name);
      }
      return S.Entered;
    }
  }

  /** Once an effect has missed its target, the rest is not tried. */
  lemma {:induction false} AppliedStops(c: Conversation, effects: seq<Effect>, i: nat, n: nat)
    requires i < n <= |effects| && Applied(c, effects, i).done == i
    requires Effected(Applied(c, effects, i).conversation, effects[i]).None?
    ensures Applied(c, effects, n) == Applied(c, effects, i)
  {
    if i < n - 1 {
      AppliedStops(c, effects, i, n - 1);
    }
  }
}

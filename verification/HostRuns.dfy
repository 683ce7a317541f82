/** What the session's file holds over whole runs of the host, crashes included. */
module HostRuns {
  import opened Wrappers
  import opened Conversations
  import opened PendingCalls
  import opened HostSpec

  // ---------------------------------------------------------------- batches

  /** The effects that were applied found their targets; what they left is the batch so far. */
  lemma {:induction false} AppliedSoFar(c: Conversation, effects: seq<Effect>, n: nat, i: nat)
    requires n <= |effects| && i <= Applied(c, effects, n).done
    ensures Applied(c, effects, i).done == i
    ensures i < Applied(c, effects, n).done ==> Effected(Applied(c, effects, i).conversation, effects[i]).Some?
    ensures i == Applied(c, effects, n).done ==> Applied(c, effects, i) == Applied(c, effects, n)
  {
    if i < n {
      var before := Applied(c, effects, n - 1);
      if i <= before.done {
        AppliedSoFar(c, effects, n - 1, i);
      }
    }
  }

  /** A batch stops at the first effect whose target is missing. */
  lemma {:induction false} StopsAtMissing(c: Conversation, effects: seq<Effect>, n: nat)
    requires n <= |effects| && Applied(c, effects, n).done < n
    ensures Effected(Applied(c, effects, n).conversation, effects[Applied(c, effects, n).done]).None?
  {
    if Applied(c, effects, n - 1).done < n - 1 {
      StopsAtMissing(c, effects, n - 1);
    }
  }

  /** Whether every effect of the batch finds its target, in the conversation the ones before it left. */
  predicate AllTargets(c: Conversation, effects: seq<Effect>) {
    forall i :: 0 <= i < |effects| ==> HasTarget(Applied(c, effects, i).conversation, effects[i])
  }

  /** A batch is applied as a whole exactly if every target is there. */
  lemma WholeExactly(c: Conversation, effects: seq<Effect>)
    ensures Applied(c, effects, |effects|).done == |effects| <==> AllTargets(c, effects)
  {
    var done := Applied(c, effects, |effects|).done;
    forall i | 0 <= i < done
      ensures HasTarget(Applied(c, effects, i).conversation, effects[i])
    {
      AppliedSoFar(c, effects, |effects|, i);
      EffectedExactly(Applied(c, effects, i).conversation, effects[i]);
    }
    if done < |effects| {
      StopsAtMissing(c, effects, |effects|);
      AppliedSoFar(c, effects, |effects|, done);
      EffectedExactly(Applied(c, effects, done).conversation, effects[done]);
    }
  }

  /**
   * A batch is answered Ok exactly if every target is there and the file could be written. Then the file
   * reads back as the conversation in memory. A missing target leaves the file as it was, with the effects
   * before it kept in memory.
   */
  lemma BatchOutcome(codec: Codec, h: Host, id: string, effects: seq<Effect>, fate: Fate)
    requires Faithful(codec)
    ensures var (after, r) := ApplySpec(codec, h, id, effects, fate);
            && (r.Ok? <==> AllTargets(Current(h, id), effects) && (h.sessionPath.None? || Written(h.sessionPath.value, fate)))
            && (r.Ok? && h.sessionPath.Some? ==> ReadSpec(codec, after.disk, h.sessionPath.value) == after.conversations[id])
            && (r == Err(MissingTarget) <==> !AllTargets(Current(h, id), effects))
            && (r == Err(MissingTarget) ==> after.disk == h.disk)
            && after.conversations == h.conversations[id := Applied(Current(h, id), effects, |effects|).conversation]
  {
    WholeExactly(Current(h, id), effects);
    var batch := Applied(Current(h, id), effects, |effects|);
    FinishOutcome(codec, h, id, batch, |effects|, LastUsage(effects, batch.done), fate);
  }

  lemma FinishOutcome(codec: Codec, h: Host, id: string, batch: Batch, n: nat, usage: Option<TokenUsage>, fate: Fate)
    requires Faithful(codec)
    ensures var (after, r) := FinishSpec(codec, h, id, batch, n, usage, fate);
            && (r.Ok? <==> batch.done >= n && (h.sessionPath.None? || Written(h.sessionPath.value, fate)))
            && (r.Ok? && h.sessionPath.Some? ==> ReadSpec(codec, after.disk, h.sessionPath.value) == batch.conversation)
            && (r == Err(MissingTarget) <==> batch.done < n)
            && (r == Err(MissingTarget) ==> after.disk == h.disk)
            && after.conversations == h.conversations[id := batch.conversation]
  {
  }

  /** A patch touches the first request with its id and nothing else; keys it does not name stay. */
  lemma PatchTouchesOneRequest(c: Conversation, id: string, patch: Json, m: nat, b: nat)
    requires Requested(c, id) && m < |c| && b < |c[m].content|
    ensures var after := PatchSpec(c, id, patch).value;
            && |after| == |c| && |after[m].content| == |c[m].content|
            && after[m] == c[m].(content := after[m].content)
            && (!FirstRequest(c, id, m, b) ==> after[m].content[b] == c[m].content[b])
            && (FirstRequest(c, id, m, b) ==> after[m].content[b] == PatchBlock(c[m].content[b], patch))
  {
    var at := FindRequest(c, id).value;
    if FirstRequest(c, id, m, b) {
      FirstRequestUnique(c, id, m, b, at.0, at.1);
    }
  }

  // ---------------------------------------------------------------- runs

  datatype Act =
    | Restart(resume: bool)
    | Open(id: string)
    | Prompt(id: string, messages: seq<Message>)
    | Apply(id: string, effects: seq<Effect>)
    | Complete(id: string, callId: string, raw: string)
    | Respond(id: string, callId: string, permission: string)

  /** An act, and how far its write gets. A machine that stops within an act goes on with a restart. */
  datatype Step = Step(act: Act, fate: Fate)

  function Next(env: Env, h: Host, step: Step): Host {
    match step.act
    case Restart(resume) => Host(map[], h.sessionPath, resume, 0, map[], h.disk)
    case Open(id) => OpenSpec(env.codec, h, id)
    case Prompt(id, messages) => PromptSpec(env.codec, h, id, messages, step.fate).0
    case Apply(id, effects) => ApplySpec(env.codec, h, id, effects, step.fate).0
    case Complete(id, callId, raw) => CompleteSpec(env, h, id, callId, raw, step.fate).0
    case Respond(id, callId, permission) => RespondSpec(env, h, id, callId, permission, step.fate).0
  }

  /** The act is answered as done: what it did is acknowledged. */
  predicate Acknowledged(env: Env, h: Host, step: Step) {
    match step.act
    case Restart(_) => false
    case Open(_) => false
    case Prompt(id, messages) => !PromptSpec(env.codec, h, id, messages, step.fate).1.Refused?
    case Apply(id, effects) => ApplySpec(env.codec, h, id, effects, step.fate).1.Ok?
    case Complete(id, callId, raw) => !CompleteSpec(env, h, id, callId, raw, step.fate).1.Refused?
    case Respond(id, callId, permission) => !RespondSpec(env, h, id, callId, permission, step.fate).1.Refused?
  }

  function Run(env: Env, h: Host, steps: seq<Step>, n: nat): Host
    requires n <= |steps|
  {
    if n == 0 then h else Next(env, Run(env, h, steps, n - 1), steps[n - 1])
  }

  /** The host keeps one session file. */
  predicate Keeps(h: Host, path: string) {
    h.sessionPath == Some(path) && IsFileName(path)
  }

  /** The file is as it was. */
  predicate SameFile(h: Host, after: Host, path: string) {
    (path in after.disk <==> path in h.disk) && (path in h.disk ==> after.disk[path] == h.disk[path])
  }

  lemma PersistKeepsOrWrites(codec: Codec, h: Host, id: string, fate: Fate, path: string)
    requires Keeps(h, path) && id in h.conversations
    ensures var (after, ok) := PersistSpec(codec, h, id, fate);
            && after == h.(disk := after.disk) && (ok <==> fate.Done?)
            && if ok then path in after.disk && after.disk[path] == codec.write(h.conversations[id]) else SameFile(h, after, path)
  {
    TmpIsAnotherFile(path);
  }

  /** The file holds what the session has in memory. */
  predicate FileIs(codec: Codec, h: Host, path: string, act: Act) {
    !act.Restart? && act.id in h.conversations && path in h.disk && h.disk[path] == codec.write(h.conversations[act.id])
  }

  lemma PromptWrites(env: Env, h: Host, step: Step, path: string)
    requires Keeps(h, path) && step.act.Prompt?
    ensures var after := Next(env, h, step);
            && Keeps(after, path)
            && if Acknowledged(env, h, step) then FileIs(env.codec, after, path, step.act) else SameFile(h, after, path)
  {
    var id := step.act.id;
    var ready := OpenSpec(env.codec, h, id);
    PersistKeepsOrWrites(env.codec, WithConversation(ready, id, ready.conversations[id] + step.act.messages), id, step.fate, path);
  }

  lemma ApplyWrites(env: Env, h: Host, step: Step, path: string)
    requires Keeps(h, path) && step.act.Apply?
    ensures var after := Next(env, h, step);
            && Keeps(after, path)
            && if Acknowledged(env, h, step) then FileIs(env.codec, after, path, step.act) else SameFile(h, after, path)
  {
    var id, effects := step.act.id, step.act.effects;
    var batch := Applied(Current(h, id), effects, |effects|);
    var changed := WithConversation(Noted(h, id, LastUsage(effects, batch.done)), id, batch.conversation);
    PersistKeepsOrWrites(env.codec, changed, id, step.fate, path);
  }

  lemma PushWrites(env: Env, h: Host, id: string, message: Message, fate: Fate, path: string)
    requires Keeps(h, path) && id in h.conversations
    ensures var (after, ok) := PushSpec(env.codec, h, id, [message], fate);
            && Keeps(after, path)
            && if ok then id in after.conversations && path in after.disk && after.disk[path] == env.codec.write(after.conversations[id])
               else SameFile(h, after, path)
  {
    PersistKeepsOrWrites(env.codec, WithConversation(h, id, h.conversations[id] + [message]), id, fate, path);
  }

  /** A step is acknowledged and the file is then its session's conversation, or the file is as it was. */
  lemma StepKeepsOrWrites(env: Env, h: Host, step: Step, path: string)
    requires Keeps(h, path)
    ensures var after := Next(env, h, step);
            && Keeps(after, path)
            && if Acknowledged(env, h, step) then FileIs(env.codec, after, path, step.act) else SameFile(h, after, path)
  {
    match step.act {
      case Restart(_) =>
      case Open(_) =>
      case Prompt(_, _) => PromptWrites(env, h, step, path);
      case Apply(_, _) => ApplyWrites(env, h, step, path);
      case Complete(id, callId, raw) =>
        if CompleteAccepted(env, h, id, callId) {
          PushWrites(env, h, id, ToolResponseMessage(callId, ParseToolOutput(env.codec, raw)), step.fate, path);
        }
      case Respond(id, callId, permission) =>
        if id in h.conversations {
          PushWrites(env, h, id, ConfirmationResponseMessage(callId, permission), step.fate, path);
        }
    }
  }

  predicate AcknowledgedAt(env: Env, h: Host, steps: seq<Step>, j: nat)
    requires j < |steps|
  {
    Acknowledged(env, Run(env, h, steps, j), steps[j])
  }

  /** None of the steps from `m` up to `n` is acknowledged. */
  predicate Silent(env: Env, h: Host, steps: seq<Step>, m: nat, n: nat)
    requires n <= |steps|
  {
    forall j :: m <= j < n ==> !AcknowledgedAt(env, h, steps, j)
  }

  /** Steps that are not acknowledged leave the file alone. */
  lemma {:induction false} SilenceKeepsTheFile(env: Env, h: Host, steps: seq<Step>, m: nat, n: nat, path: string)
    requires Keeps(h, path) && m <= n <= |steps| && Silent(env, h, steps, m, n)
    ensures Keeps(Run(env, h, steps, m), path) && Keeps(Run(env, h, steps, n), path)
    ensures SameFile(Run(env, h, steps, m), Run(env, h, steps, n), path)
  {
    if n == 0 {
    } else {
      if m < n {
        SilenceKeepsTheFile(env, h, steps, m, n - 1, path);
        assert !AcknowledgedAt(env, h, steps, n - 1);
      } else {
        RunKeepsPath(env, h, steps, n - 1, path);
      }
      StepKeepsOrWrites(env, Run(env, h, steps, n - 1), steps[n - 1], path);
    }
  }

  lemma {:induction false} RunKeepsPath(env: Env, h: Host, steps: seq<Step>, n: nat, path: string)
    requires Keeps(h, path) && n <= |steps|
    ensures Keeps(Run(env, h, steps, n), path)
  {
    if n == 0 {
    } else {
      RunKeepsPath(env, h, steps, n - 1, path);
      StepKeepsOrWrites(env, Run(env, h, steps, n - 1), steps[n - 1], path);
    }
  }

  /** Step `k` is the last acknowledged one. */
  predicate LastAcknowledged(env: Env, h: Host, steps: seq<Step>, k: nat) {
    k < |steps| && AcknowledgedAt(env, h, steps, k) && Silent(env, h, steps, k + 1, |steps|)
  }

  /**
   * Crash atomicity. Wherever a run stops, a host that is started again in front of the disk and opens a
   * session reads back the whole conversation that the last acknowledged call left in memory: no torn write
   * shows, nothing acknowledged is lost, and nothing shows that was not acknowledged.
   */
  lemma CrashAtomicity(env: Env, h: Host, steps: seq<Step>, path: string, id: string, k: nat)
    requires Faithful(env.codec) && Keeps(h, path)
    requires LastAcknowledged(env, h, steps, k)
    ensures var reopened := OpenSpec(env.codec, Next(env, Run(env, h, steps, |steps|), Step(Restart(true), Done)), id);
            var left := Run(env, h, steps, k + 1);
            && !steps[k].act.Restart? && steps[k].act.id in left.conversations
            && reopened.conversations[id] == left.conversations[steps[k].act.id]
  {
    RunKeepsPath(env, h, steps, k, path);
    StepKeepsOrWrites(env, Run(env, h, steps, k), steps[k], path);
    SilenceKeepsTheFile(env, h, steps, k + 1, |steps|, path);
  }

  /** Where nothing was acknowledged, the run leaves what could be read before it. */
  lemma NothingAcknowledgedNothingChanged(env: Env, h: Host, steps: seq<Step>, path: string)
    requires Keeps(h, path) && Silent(env, h, steps, 0, |steps|)
    ensures ReadSpec(env.codec, Run(env, h, steps, |steps|).disk, path) == ReadSpec(env.codec, h.disk, path)
  {
    SilenceKeepsTheFile(env, h, steps, 0, |steps|, path);
  }

  // ---------------------------------------------------------------- one file for all sessions

  /**
   * The sessions of a host share its file. After any run a session that is not open yet starts, where the
   * host resumes, with the conversation that the last acknowledged call left to whichever session it was
   * for; where the host does not resume, it starts empty.
   */
  lemma FirstOpenReadsTheLastWriter(env: Env, h: Host, steps: seq<Step>, path: string, other: string, k: nat)
    requires Faithful(env.codec) && Keeps(h, path)
    requires LastAcknowledged(env, h, steps, k) && other !in Run(env, h, steps, |steps|).conversations
    ensures var now, left := Run(env, h, steps, |steps|), Run(env, h, steps, k + 1);
            && !steps[k].act.Restart? && steps[k].act.id in left.conversations
            && OpenSpec(env.codec, now, other).conversations[other] ==
                 if now.resumeOnOpen then left.conversations[steps[k].act.id] else []
  {
    RunKeepsPath(env, h, steps, k, path);
    StepKeepsOrWrites(env, Run(env, h, steps, k), steps[k], path);
    SilenceKeepsTheFile(env, h, steps, k + 1, |steps|, path);
  }

  /** After a run without an acknowledged call it starts with what the file held before the run. */
  lemma FirstOpenReadsTheStart(env: Env, h: Host, steps: seq<Step>, path: string, other: string)
    requires Keeps(h, path)
    requires Silent(env, h, steps, 0, |steps|) && other !in Run(env, h, steps, |steps|).conversations
    ensures var now := Run(env, h, steps, |steps|);
            OpenSpec(env.codec, now, other).conversations[other] ==
              if now.resumeOnOpen then ReadSpec(env.codec, h.disk, path) else []
  {
    SilenceKeepsTheFile(env, h, steps, 0, |steps|, path);
  }
}

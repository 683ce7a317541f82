/** Draining what a turn waits for: in any order, one answer each, and the run loop is entered once. */
module PendingDrain {
  import opened HostTypes
  import opened Wrappers
  import opened Conversations
  import opened PendingCalls
  import opened HostSpec

  /** A tool's response starts no turn, in the agent library's sense. */
  ghost predicate ResponsesAreNoKickoffs(kickoff: Message -> bool) {
    forall id, output :: !kickoff(ToolResponseMessage(id, output))
  }

  /** The session is open and its file, if any, can be written. */
  predicate Ready(h: Host, id: string) {
    id in h.conversations && (h.sessionPath.Some? ==> IsFileName(h.sessionPath.value))
  }

  function Pending(env: Env, h: Host, id: string): seq<PendingYield>
    requires id in h.conversations
  {
    KimPending(env.kickoff, env.names, h.conversations[id])
  }

  function Open(h: Host, id: string): seq<PendingYield>
    requires id in h.conversations
  {
    Confirmations(h.conversations[id])
  }

  // ---------------------------------------------------------------- refusals

  /** Completing a call is refused exactly while a confirmation is open or nothing waits under its id; then nothing changes. */
  lemma CompleteRefusedExactly(env: Env, h: Host, id: string, callId: string, raw: string)
    requires Ready(h, id)
    ensures var (after, reply) := CompleteSpec(env, h, id, callId, raw, Done);
            && (reply.Refused? <==> Open(h, id) != [] || !Waits(Pending(env, h, id), callId))
            && (reply.Refused? ==> after == h)
  {
  }

  lemma RespondRefusedExactly(env: Env, h: Host, id: string, callId: string, permission: string)
    requires Ready(h, id)
    ensures var (after, reply) := RespondSpec(env, h, id, callId, permission, Done);
            && (reply.Refused? <==> !Waits(Open(h, id), callId))
            && (reply.Refused? ==> after == h)
  {
  }

  lemma WaitsWithout(pending: seq<PendingYield>, id: string, other: string)
    ensures Waits(Without(pending, id), other) <==> Waits(pending, other) && other != id
  {
    var rest := Without(pending, id);
    if Waits(rest, other) {
      var i :| 0 <= i < |rest| && rest[i].callId == other;
      WithoutExactly(pending, id, rest[i]);
      assert rest[i] in pending;
    }
    if Waits(pending, other) && other != id {
      var i :| 0 <= i < |pending| && pending[i].callId == other;
      WithoutExactly(pending, id, pending[i]);
      assert pending[i] in rest;
    }
  }

  /** An accepted completion takes exactly its id out, and says what waits next. */
  lemma CompleteRemoves(env: Env, h: Host, id: string, callId: string, raw: string)
    requires ResponsesAreNoKickoffs(env.kickoff) && Ready(h, id)
    requires Open(h, id) == [] && Waits(Pending(env, h, id), callId)
    ensures var (after, reply) := CompleteSpec(env, h, id, callId, raw, Done);
            && Ready(after, id) && Open(after, id) == []
            && Pending(env, after, id) == Without(Pending(env, h, id), callId)
            && reply == if Pending(env, after, id) == [] then Entered
                        else Yielded(ToolRequestYield, Pending(env, after, id)[0].callId, Pending(env, after, id)[0].name)
  {
    ResponseRemoves(env.kickoff, env.names, h.conversations[id], callId, ParseToolOutput(env.codec, raw));
  }

  /** Once completed, an id is refused and nothing changes. */
  lemma RepeatIsRefused(env: Env, h: Host, id: string, callId: string, raw: string, again: string)
    requires ResponsesAreNoKickoffs(env.kickoff) && Ready(h, id)
    requires !CompleteSpec(env, h, id, callId, raw, Done).1.Refused?
    ensures var after := CompleteSpec(env, h, id, callId, raw, Done).0;
            CompleteSpec(env, after, id, callId, again, Done) == (after, Refused(UnknownToolCall(callId)))
  {
    CompleteRefusedExactly(env, h, id, callId, raw);
    CompleteRemoves(env, h, id, callId, raw);
    WaitsWithout(Pending(env, h, id), callId, callId);
  }

  // ---------------------------------------------------------------- draining calls

  /** A call id and the output it is completed with. */
  type Answers = seq<(string, string)>

  function Completed(env: Env, h: Host, id: string, answers: Answers, n: nat): Host
    requires n <= |answers|
  {
    if n == 0 then h
    else CompleteSpec(env, Completed(env, h, id, answers, n - 1), id, answers[n - 1].0, answers[n - 1].1, Done).0
  }

  function ReplyAt(env: Env, h: Host, id: string, answers: Answers, i: nat): TurnReply
    requires i < |answers|
  {
    CompleteSpec(env, Completed(env, h, id, answers, i), id, answers[i].0, answers[i].1, Done).1
  }

  /** The answer at `from` or one behind it is for that id. */
  predicate Due(answers: Answers, from: nat, callId: string) {
    exists i :: from <= i < |answers| && answers[i].0 == callId
  }

  /** What waits is what the answers from `from` on are for. */
  ghost predicate WaitsForRest(answers: Answers, from: nat, pending: seq<PendingYield>) {
    forall callId :: Waits(pending, callId) <==> Due(answers, from, callId)
  }

  predicate Distinct(answers: Answers) {
    forall i, j :: 0 <= i < j < |answers| ==> answers[i].0 != answers[j].0
  }

  /** The answers are for the ids that wait, each once, in any order. */
  ghost predicate AnswersAll(answers: Answers, pending: seq<PendingYield>) {
    Distinct(answers) && WaitsForRest(answers, 0, pending)
  }

  lemma RestAfter(answers: Answers, n: nat, pending: seq<PendingYield>)
    requires n < |answers| && Distinct(answers) && WaitsForRest(answers, n, pending)
    ensures Waits(pending, answers[n].0)
    ensures WaitsForRest(answers, n + 1, Without(pending, answers[n].0))
  {
    assert Due(answers, n, answers[n].0);
    forall callId
      ensures Waits(Without(pending, answers[n].0), callId) <==> Due(answers, n + 1, callId)
    {
      WaitsWithout(pending, answers[n].0, callId);
      assert Due(answers, n, callId) <==> callId == answers[n].0 || Due(answers, n + 1, callId);
    }
  }

  /** Something waits exactly while answers are left, and what waits first is for one of those. */
  lemma RestIsEmpty(answers: Answers, n: nat, pending: seq<PendingYield>)
    requires n <= |answers| && WaitsForRest(answers, n, pending)
    ensures pending == [] <==> n == |answers|
    ensures pending != [] ==> Due(answers, n, pending[0].callId)
  {
    if pending != [] {
      assert Waits(pending, pending[0].callId);
    }
    if n < |answers| {
      assert Due(answers, n, answers[n].0);
      assert Waits(pending, answers[n].0);
    }
  }

  /** The session can go on, no confirmation is open, and what waits is what the answers from `n` on are for. */
  ghost predicate Draining(env: Env, h: Host, id: string, answers: Answers, n: nat) {
    Ready(h, id) && Open(h, id) == [] && WaitsForRest(answers, n, Pending(env, h, id))
  }

  /** Only the last answer enters the run loop; every other yields for a call that is still open. */
  predicate DrainReply(answers: Answers, n: nat, kind: YieldKind, reply: TurnReply) {
    && (reply.Entered? <==> n == |answers| - 1)
    && (n < |answers| - 1 ==> reply.Yielded? && reply.kind == kind && Due(answers, n + 1, reply.callId))
  }

  lemma DrainStep(env: Env, h: Host, id: string, answers: Answers, n: nat)
    requires ResponsesAreNoKickoffs(env.kickoff) && n < |answers| && Distinct(answers) && Draining(env, h, id, answers, n)
    ensures var (after, reply) := CompleteSpec(env, h, id, answers[n].0, answers[n].1, Done);
            Draining(env, after, id, answers, n + 1) && DrainReply(answers, n, ToolRequestYield, reply)
  {
    RestAfter(answers, n, Pending(env, h, id));
    RestIsEmpty(answers, n + 1, Without(Pending(env, h, id), answers[n].0));
    CompleteRemoves(env, h, id, answers[n].0, answers[n].1);
  }

  lemma CompletedStep(env: Env, h: Host, id: string, answers: Answers, n: nat)
    requires ResponsesAreNoKickoffs(env.kickoff) && n < |answers| && Distinct(answers)
    requires Draining(env, Completed(env, h, id, answers, n), id, answers, n)
    ensures Draining(env, Completed(env, h, id, answers, n + 1), id, answers, n + 1)
  {
    var before := Completed(env, h, id, answers, n);
    DrainStep(env, before, id, answers, n);
    assert Completed(env, h, id, answers, n + 1) == CompleteSpec(env, before, id, answers[n].0, answers[n].1, Done).0;
  }

  /** After `n` answers, what waits is what has not been answered. */
  lemma {:induction false} DrainingAfter(env: Env, h: Host, id: string, answers: Answers, n: nat)
    requires ResponsesAreNoKickoffs(env.kickoff) && n <= |answers| && Distinct(answers) && Draining(env, h, id, answers, 0)
    ensures Draining(env, Completed(env, h, id, answers, n), id, answers, n)
  {
    if n == 0 {
      assert Completed(env, h, id, answers, n) == h;
    } else {
      DrainingAfter(env, h, id, answers, n - 1);
      CompletedStep(env, h, id, answers, n - 1);
    }
  }

  /**
   * Any order of answering the pending calls is accepted throughout: every answer but the last yields for a
   * call that is still open, and only the last enters the run loop.
   */
  lemma DrainEntersOnce(env: Env, h: Host, id: string, answers: Answers, i: nat)
    requires ResponsesAreNoKickoffs(env.kickoff) && Ready(h, id) && i < |answers|
    requires Open(h, id) == [] && AnswersAll(answers, Pending(env, h, id))
    ensures var reply := ReplyAt(env, h, id, answers, i);
            && (reply.Entered? <==> i == |answers| - 1)
            && (i < |answers| - 1 ==> reply.Yielded? && reply.kind == ToolRequestYield && Due(answers, i + 1, reply.callId))
  {
    DrainingAfter(env, h, id, answers, i);
    DrainStep(env, Completed(env, h, id, answers, i), id, answers, i);
  }

  // ---------------------------------------------------------------- how many answers

  function Ids(pending: seq<PendingYield>): seq<string> {
    seq(|pending|, i requires 0 <= i < |pending| => pending[i].callId)
  }

  function AnswerIds(answers: Answers): seq<string> {
    seq(|answers|, i requires 0 <= i < |answers| => answers[i].0)
  }

  predicate NoRepeats(s: seq<string>) {
    forall i, j :: 0 <= i < j < |s| ==> s[i] != s[j]
  }

  lemma {:induction false} NoRepeatsCount(s: seq<string>)
    requires NoRepeats(s)
    ensures |set x | x in s| == |s|
  {
    if s == [] {
    } else {
      var init, last := s[..|s| - 1], s[|s| - 1];
      NoRepeatsCount(init);
      assert s == init + [last];
      assert (set x | x in s) == (set x | x in init) + {last};
    }
  }

  /** Where no two pending calls share an id, there are as many answers as calls. */
  lemma AsManyAnswersAsCalls(answers: Answers, pending: seq<PendingYield>)
    requires AnswersAll(answers, pending) && NoRepeats(Ids(pending))
    ensures |answers| == |pending|
  {
    forall id
      ensures id in Ids(pending) <==> id in AnswerIds(answers)
    {
      assert id in Ids(pending) <==> Waits(pending, id) by {
        if Waits(pending, id) {
          var i :| 0 <= i < |pending| && pending[i].callId == id;
          assert Ids(pending)[i] == id;
        }
      }
      assert id in AnswerIds(answers) <==> Due(answers, 0, id) by {
        if Due(answers, 0, id) {
          var i :| 0 <= i < |answers| && answers[i].0 == id;
          assert AnswerIds(answers)[i] == id;
        }
      }
    }
    NoRepeatsCount(Ids(pending));
    NoRepeatsCount(AnswerIds(answers));
    assert (set x | x in Ids(pending)) == (set x | x in AnswerIds(answers));
  }

  // ---------------------------------------------------------------- draining confirmations

  lemma {:induction false} OpenCallsKind(blocks: seq<Content>, answered: set<string>, names: set<string>)
    ensures forall i :: 0 <= i < |OpenCalls(blocks, answered, names)| ==> OpenCalls(blocks, answered, names)[i].kind == ToolRequestYield
  {
    if blocks == [] {
    } else {
      OpenCallsKind(blocks[..|blocks| - 1], answered, names);
    }
  }

  lemma {:induction false} ConfirmationsKind(blocks: seq<Content>, answered: set<string>)
    ensures forall i :: 0 <= i < |OpenConfirmations(blocks, answered)| ==> OpenConfirmations(blocks, answered)[i].kind == ActionRequiredYield
  {
    if blocks == [] {
    } else {
      ConfirmationsKind(blocks[..|blocks| - 1], answered);
    }
  }

  lemma {:induction false} FirstOfKindExactly(pending: seq<PendingYield>, kind: YieldKind)
    ensures (forall i :: 0 <= i < |pending| ==> pending[i].kind != kind) ==> FirstOfKind(pending, kind) == None
    ensures pending != [] && pending[0].kind == kind ==> FirstOfKind(pending, kind) == Some(pending[0])
  {
    if pending == [] {
    } else {
      FirstOfKindExactly(pending[1..], kind);
    }
  }

  lemma FirstIsOpen(env: Env, c: Conversation)
    ensures FirstOfKind(SessionPending(env.kickoff, env.names, c), ActionRequiredYield) ==
            if Confirmations(c) == [] then None else Some(Confirmations(c)[0])
  {
    FirstOfKindExactly(SessionPending(env.kickoff, env.names, c), ActionRequiredYield);
    ConfirmationsKind(Blocks(c), ConfirmedIds(Blocks(c)));
    var turn := SinceKickoff(env.kickoff, c);
    if turn.Some? {
      OpenCallsKind(Blocks(turn.value), ResponseIds(Blocks(turn.value)), env.names);
    }
  }

  /** An accepted permission takes exactly its id out; the next open confirmation is asked, or the run loop entered. */
  lemma RespondRemoves(env: Env, h: Host, id: string, callId: string, permission: string)
    requires Ready(h, id) && Waits(Open(h, id), callId)
    ensures var (after, reply) := RespondSpec(env, h, id, callId, permission, Done);
            && Ready(after, id) && Open(after, id) == Without(Open(h, id), callId)
            && reply == if Open(after, id) == [] then Entered
                        else Yielded(ActionRequiredYield, Open(after, id)[0].callId, Open(after, id)[0].name)
  {
    var c := h.conversations[id] + [ConfirmationResponseMessage(callId, permission)];
    ConfirmationRemoves(h.conversations[id], callId, permission);
    FirstIsOpen(env, c);
  }

  function Answered(env: Env, h: Host, id: string, answers: Answers, n: nat): Host
    requires n <= |answers|
  {
    if n == 0 then h
    else RespondSpec(env, Answered(env, h, id, answers, n - 1), id, answers[n - 1].0, answers[n - 1].1, Done).0
  }

  ghost predicate Asking(h: Host, id: string, answers: Answers, n: nat) {
    Ready(h, id) && WaitsForRest(answers, n, Open(h, id))
  }

  lemma AskStep(env: Env, h: Host, id: string, answers: Answers, n: nat)
    requires n < |answers| && Distinct(answers) && Asking(h, id, answers, n)
    ensures var (after, reply) := RespondSpec(env, h, id, answers[n].0, answers[n].1, Done);
            Asking(after, id, answers, n + 1) && DrainReply(answers, n, ActionRequiredYield, reply)
  {
    RestAfter(answers, n, Open(h, id));
    RestIsEmpty(answers, n + 1, Without(Open(h, id), answers[n].0));
    RespondRemoves(env, h, id, answers[n].0, answers[n].1);
  }

  lemma AnsweredStep(env: Env, h: Host, id: string, answers: Answers, n: nat)
    requires n < |answers| && Distinct(answers) && Asking(Answered(env, h, id, answers, n), id, answers, n)
    ensures Asking(Answered(env, h, id, answers, n + 1), id, answers, n + 1)
  {
    var before := Answered(env, h, id, answers, n);
    AskStep(env, before, id, answers, n);
    assert Answered(env, h, id, answers, n + 1) == RespondSpec(env, before, id, answers[n].0, answers[n].1, Done).0;
  }

  lemma {:induction false} AskingAfter(env: Env, h: Host, id: string, answers: Answers, n: nat)
    requires n <= |answers| && Distinct(answers) && Asking(h, id, answers, 0)
    ensures Asking(Answered(env, h, id, answers, n), id, answers, n)
  {
    if n == 0 {
      assert Answered(env, h, id, answers, n) == h;
    } else {
      AskingAfter(env, h, id, answers, n - 1);
      AnsweredStep(env, h, id, answers, n - 1);
    }
  }

  /** The same for confirmations, also while calls of the app's tools are pending: those wait for the run loop. */
  lemma PermissionsEnterOnce(env: Env, h: Host, id: string, answers: Answers, i: nat)
    requires Ready(h, id) && i < |answers| && AnswersAll(answers, Open(h, id))
    ensures var reply := RespondSpec(env, Answered(env, h, id, answers, i), id, answers[i].0, answers[i].1, Done).1;
            && (reply.Entered? <==> i == |answers| - 1)
            && (i < |answers| - 1 ==> reply.Yielded? && reply.kind == ActionRequiredYield && Due(answers, i + 1, reply.callId))
  {
    AskingAfter(env, h, id, answers, i);
    AskStep(env, Answered(env, h, id, answers, i), id, answers, i);
  }
}

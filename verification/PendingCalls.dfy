/** What a conversation still waits for: open confirmations, and calls of the app's own tools. */
module PendingCalls {
  import opened HostTypes
  import opened Wrappers
  import opened Conversations

  /** The blocks of all messages, in order. */
  function Blocks(c: Conversation): seq<Content> {
    if c == [] then [] else Blocks(c[..|c| - 1]) + c[|c| - 1].content
  }

  /** The messages from the last kickoff on; which messages are kickoffs is the agent library's. */
  function SinceKickoff(kickoff: Message -> bool, c: Conversation): Option<Conversation> {
    if c == [] then None
    else if kickoff(c[|c| - 1]) then Some([c[|c| - 1]])
    else
      var before := SinceKickoff(kickoff, c[..|c| - 1]);
      if before.None? then None else Some(before.value + [c[|c| - 1]])
  }

  function ResponseIds(blocks: seq<Content>): set<string> {
    set b | b in blocks && b.ToolResponse? :: b.id
  }

  function ConfirmedIds(blocks: seq<Content>): set<string> {
    set b | b in blocks && b.ConfirmationResponse? :: b.id
  }

  predicate IsOpenCall(b: Content, answered: set<string>, names: set<string>) {
    b.ToolRequest? && b.id !in answered && b.call.Some? && b.call.value.name in names
  }

  function YieldOfCall(b: Content): PendingYield
    requires b.ToolRequest? && b.call.Some?
  {
    PendingYield(b.id, b.call.value.name, b.call.value.arguments, ToolRequestYield, "")
  }

  function OpenCalls(blocks: seq<Content>, answered: set<string>, names: set<string>): seq<PendingYield> {
    if blocks == [] then []
    else
      OpenCalls(blocks[..|blocks| - 1], answered, names) +
      if IsOpenCall(blocks[|blocks| - 1], answered, names) then [YieldOfCall(blocks[|blocks| - 1])] else []
  }

  predicate IsOpenConfirmation(b: Content, answered: set<string>) {
    b.Confirmation? && b.id !in answered
  }

  function YieldOfConfirmation(b: Content): PendingYield
    requires b.Confirmation?
  {
    PendingYield(b.id, b.tool.name, b.tool.arguments, ActionRequiredYield, b.prompt)
  }

  function OpenConfirmations(blocks: seq<Content>, answered: set<string>): seq<PendingYield> {
    if blocks == [] then []
    else
      OpenConfirmations(blocks[..|blocks| - 1], answered) +
      if IsOpenConfirmation(blocks[|blocks| - 1], answered) then [YieldOfConfirmation(blocks[|blocks| - 1])] else []
  }

  /** `unanswered_confirmations` */
  function Confirmations(c: Conversation): seq<PendingYield> {
    OpenConfirmations(Blocks(c), ConfirmedIds(Blocks(c)))
  }

  /** `kim_pending` over `unanswered_tool_requests` */
  function KimPending(kickoff: Message -> bool, names: set<string>, c: Conversation): seq<PendingYield> {
    var turn := SinceKickoff(kickoff, c);
    if turn.None? then [] else OpenCalls(Blocks(turn.value), ResponseIds(Blocks(turn.value)), names)
  }

  /** `session_pending` */
  function SessionPending(kickoff: Message -> bool, names: set<string>, c: Conversation): seq<PendingYield> {
    if Confirmations(c) != [] then Confirmations(c) else KimPending(kickoff, names, c)
  }

  predicate Waits(pending: seq<PendingYield>, callId: string) {
    exists i :: 0 <= i < |pending| && pending[i].callId == callId
  }

  function Without(pending: seq<PendingYield>, callId: string): seq<PendingYield> {
    if pending == [] then []
    else
      Without(pending[..|pending| - 1], callId) +
      if pending[|pending| - 1].callId == callId then [] else [pending[|pending| - 1]]
  }

  // ---------------------------------------------------------------- answering

  lemma {:induction false} CallsOfAnswered(blocks: seq<Content>, answered: set<string>, names: set<string>, id: string)
    ensures OpenCalls(blocks, answered + {id}, names) == Without(OpenCalls(blocks, answered, names), id)
  {
    if blocks == [] {
    } else {
      var init, last := blocks[..|blocks| - 1], blocks[|blocks| - 1];
      CallsOfAnswered(init, answered, names, id);
      WithoutSnoc(OpenCalls(init, answered, names), id);
    }
  }

  lemma {:induction false} ConfirmationsOfAnswered(blocks: seq<Content>, answered: set<string>, id: string)
    ensures OpenConfirmations(blocks, answered + {id}) == Without(OpenConfirmations(blocks, answered), id)
  {
    if blocks == [] {
    } else {
      ConfirmationsOfAnswered(blocks[..|blocks| - 1], answered, id);
      WithoutSnoc(OpenConfirmations(blocks[..|blocks| - 1], answered), id);
    }
  }

  lemma WithoutSnoc(pending: seq<PendingYield>, id: string)
    ensures forall p :: Without(pending + [p], id) == Without(pending, id) + if p.callId == id then [] else [p]
    ensures pending + [] == pending
  {
    forall p
      ensures Without(pending + [p], id) == Without(pending, id) + if p.callId == id then [] else [p]
    {
      assert (pending + [p])[..|pending|] == pending;
    }
  }

  /** Exactly the yields with that id go, the others keep their order. */
  lemma {:induction false} WithoutExactly(pending: seq<PendingYield>, id: string, p: PendingYield)
    ensures p in Without(pending, id) <==> p in pending && p.callId != id
  {
    if pending == [] {
    } else {
      WithoutExactly(pending[..|pending| - 1], id, p);
      assert pending == pending[..|pending| - 1] + [pending[|pending| - 1]];
    }
  }

  lemma BlocksSnoc(c: Conversation, m: Message)
    ensures Blocks(c + [m]) == Blocks(c) + m.content
  {
    assert (c + [m])[..|c|] == c;
  }

  function ToolResponseMessage(id: string, output: ToolOutput): Message {
    Message(None, [ToolResponse(id, output)], true, true)
  }

  /** Hidden from user and agent, so that it starts no turn. */
  function ConfirmationResponseMessage(id: string, permission: string): Message {
    Message(None, [ConfirmationResponse(id, permission)], false, false)
  }

  /** A response behind the blocks answers its id and opens nothing. */
  lemma ResponseAnswers(blocks: seq<Content>, names: set<string>, id: string, output: ToolOutput)
    ensures var after := blocks + [ToolResponse(id, output)];
            && OpenCalls(after, ResponseIds(after), names) == Without(OpenCalls(blocks, ResponseIds(blocks), names), id)
            && OpenConfirmations(after, ConfirmedIds(after)) == OpenConfirmations(blocks, ConfirmedIds(blocks))
  {
    var after := blocks + [ToolResponse(id, output)];
    assert after[..|blocks|] == blocks;
    assert ResponseIds(after) == ResponseIds(blocks) + {id};
    assert ConfirmedIds(after) == ConfirmedIds(blocks);
    CallsOfAnswered(blocks, ResponseIds(blocks), names, id);
  }

  lemma SinceKickoffSnoc(kickoff: Message -> bool, c: Conversation, m: Message)
    requires !kickoff(m)
    ensures var turn := SinceKickoff(kickoff, c);
            SinceKickoff(kickoff, c + [m]) == if turn.None? then None else Some(turn.value + [m])
  {
    assert (c + [m])[..|c|] == c;
  }

  /** A tool's response takes its id out of the pending calls and opens no confirmation. */
  lemma ResponseRemoves(kickoff: Message -> bool, names: set<string>, c: Conversation, id: string, output: ToolOutput)
    requires !kickoff(ToolResponseMessage(id, output))
    ensures var after := c + [ToolResponseMessage(id, output)];
            && KimPending(kickoff, names, after) == Without(KimPending(kickoff, names, c), id)
            && Confirmations(after) == Confirmations(c)
  {
    var m := ToolResponseMessage(id, output);
    var turn := SinceKickoff(kickoff, c);
    SinceKickoffSnoc(kickoff, c, m);
    if turn.Some? {
      BlocksSnoc(turn.value, m);
      ResponseAnswers(Blocks(turn.value), names, id, output);
    }
    BlocksSnoc(c, m);
    ResponseAnswers(Blocks(c), names, id, output);
  }

  /** A confirmation's response takes its id out of the open confirmations. */
  lemma ConfirmationRemoves(c: Conversation, id: string, permission: string)
    ensures Confirmations(c + [ConfirmationResponseMessage(id, permission)]) == Without(Confirmations(c), id)
  {
    var m := ConfirmationResponseMessage(id, permission);
    var all := Blocks(c);
    BlocksSnoc(c, m);
    assert ConfirmedIds(all + m.content) == ConfirmedIds(all) + {id};
    assert (all + m.content)[..|all|] == all;
    ConfirmationsOfAnswered(all, ConfirmedIds(all), id);
  }

  // ---------------------------------------------------------------- the loops

  /** `confirmation_maps`: the ids that were answered. */
  method ConfirmationResponses(conversation: Conversation) returns (responses: set<string>)
    ensures responses == ConfirmedIds(Blocks(conversation))
  {
    responses := {};
    var m := 0;
    while m < |conversation|
      invariant 0 <= m <= |conversation|
      invariant responses == ConfirmedIds(Blocks(conversation[..m]))
    {
      var content := conversation[m].content;
      ghost var before := Blocks(conversation[..m]);
      var b := 0;
      while b < |content|
        invariant 0 <= b <= |content|
        invariant responses == ConfirmedIds(before + content[..b])
      {
        assert before + content[..b + 1] == (before + content[..b]) + [content[b]];
        if content[b].ConfirmationResponse? {
          responses := responses + {content[b].id};
        }
        b := b + 1;
      }
      BlocksSnoc(conversation[..m], conversation[m]);
      assert conversation[..m + 1] == conversation[..m] + [conversation[m]] && content[..b] == content;
      m := m + 1;
    }
    assert conversation[..m] == conversation;
  }

  lemma OpenConfirmationsSnoc(blocks: seq<Content>, b: Content, answered: set<string>)
    ensures OpenConfirmations(blocks + [b], answered) ==
            OpenConfirmations(blocks, answered) + if IsOpenConfirmation(b, answered) then [YieldOfConfirmation(b)] else []
  {
    assert (blocks + [b])[..|blocks|] == blocks;
  }

  lemma Associative<T>(x: seq<T>, y: seq<T>, z: seq<T>)
    ensures (x + y) + z == x + (y + z)
  {
  }

  lemma OpenConfirmationsAppendOne(a: seq<Content>, init: seq<Content>, last: Content, answered: set<string>)
    requires OpenConfirmations(a + init, answered) == OpenConfirmations(a, answered) + OpenConfirmations(init, answered)
    ensures OpenConfirmations(a + (init + [last]), answered) == OpenConfirmations(a, answered) + OpenConfirmations(init + [last], answered)
  {
    Associative(a, init, [last]);
    OpenConfirmationsSnoc(a + init, last, answered);
    OpenConfirmationsSnoc(init, last, answered);
  }

  lemma {:induction false} OpenConfirmationsAppend(a: seq<Content>, b: seq<Content>, answered: set<string>)
    ensures OpenConfirmations(a + b, answered) == OpenConfirmations(a, answered) + OpenConfirmations(b, answered)
  {
    if b == [] {
      assert a + b == a;
    } else {
      OpenConfirmationsAppend(a, b[..|b| - 1], answered);
      OpenConfirmationsAppendOne(a, b[..|b| - 1], b[|b| - 1], answered);
      assert b == b[..|b| - 1] + [b[|b| - 1]];
    }
  }

  /** `unanswered_confirmations` */
  method UnansweredConfirmations(conversation: Conversation) returns (out: seq<PendingYield>)
    ensures out == Confirmations(conversation)
  {
    var responses := ConfirmationResponses(conversation);
    out := [];
    var m := 0;
    while m < |conversation|
      invariant 0 <= m <= |conversation|
      invariant out == OpenConfirmations(Blocks(conversation[..m]), responses)
    {
      var content := conversation[m].content;
      ghost var before := out;
      var b := 0;
      while b < |content|
        invariant 0 <= b <= |content|
        invariant out == before + OpenConfirmations(content[..b], responses)
      {
        assert content[..b + 1] == content[..b] + [content[b]];
        OpenConfirmationsSnoc(content[..b], content[b], responses);
        if content[b].Confirmation? && content[b].id !in responses {
          out := out + [YieldOfConfirmation(content[b])];
        }
        b := b + 1;
      }
      BlocksSnoc(conversation[..m], conversation[m]);
      OpenConfirmationsAppend(Blocks(conversation[..m]), content, responses);
      assert conversation[..m + 1] == conversation[..m] + [conversation[m]] && content[..b] == content;
      m := m + 1;
    }
    assert conversation[..m] == conversation;
  }
}

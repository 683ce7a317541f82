/** Which calls and confirmations a conversation waits for, by their positions. */
module PendingLaws {
  import opened HostTypes
  import opened Wrappers
  import opened Conversations
  import opened PendingCalls

  /** The blocks of one message are its own. */
  lemma BlocksOne(m: Message)
    ensures Blocks([m]) == m.content
  {
    BlocksSnoc([], m);
    assert [] + [m] == [m];
  }

  lemma BlocksJoinSnoc(a: Conversation, init: Conversation, last: Message)
    requires Blocks(a + init) == Blocks(a) + Blocks(init)
    ensures Blocks(a + (init + [last])) == Blocks(a) + Blocks(init + [last])
  {
    Associative(a, init, [last]);
    BlocksSnoc(a + init, last);
    BlocksSnoc(init, last);
    Associative(Blocks(a), Blocks(init), last.content);
  }

  /** The blocks of a conversation are those of its messages, one message after the other. */
  lemma {:induction false} BlocksJoin(a: Conversation, b: Conversation)
    ensures Blocks(a + b) == Blocks(a) + Blocks(b)
  {
    if b == [] {
      assert a + b == a;
    } else {
      BlocksJoin(a, b[..|b| - 1]);
      BlocksJoinSnoc(a, b[..|b| - 1], b[|b| - 1]);
      assert b == b[..|b| - 1] + [b[|b| - 1]];
    }
  }

  /** The last kickoff is at `t`. */
  predicate LastKickoff(kickoff: Message -> bool, c: Conversation, t: nat) {
    t < |c| && kickoff(c[t]) && forall j :: t < j < |c| ==> !kickoff(c[j])
  }

  lemma {:induction false} TurnIs(kickoff: Message -> bool, c: Conversation, t: nat)
    ensures LastKickoff(kickoff, c, t) ==> SinceKickoff(kickoff, c) == Some(c[t..])
    ensures (forall j :: 0 <= j < |c| ==> !kickoff(c[j])) ==> SinceKickoff(kickoff, c).None?
  {
    if c == [] {
    } else {
      var init, last := c[..|c| - 1], c[|c| - 1];
      TurnIs(kickoff, init, t);
      if LastKickoff(kickoff, c, t) {
        if t < |init| {
          assert LastKickoff(kickoff, init, t);
          assert c[t..] == init[t..] + [last];
        } else {
          assert c[t..] == [last];
        }
      }
    }
  }

  /** Block `i` requests one of the app's tools, its call parsed, and no block responds to it. */
  predicate WaitingCall(blocks: seq<Content>, names: set<string>, i: nat)
    requires i < |blocks|
  {
    && blocks[i].ToolRequest? && blocks[i].call.Some? && blocks[i].call.value.name in names
    && forall j :: 0 <= j < |blocks| ==> !(blocks[j].ToolResponse? && blocks[j].id == blocks[i].id)
  }

  /** Block `i` asks for a confirmation, and no block responds to it. */
  predicate WaitingConfirmation(blocks: seq<Content>, i: nat)
    requires i < |blocks|
  {
    && blocks[i].Confirmation?
    && forall j :: 0 <= j < |blocks| ==> !(blocks[j].ConfirmationResponse? && blocks[j].id == blocks[i].id)
  }

  /** What is told of a block that waits: a call is the app's to answer, a confirmation the user's. */
  predicate TellsBlock(block: Content, p: PendingYield) {
    match block
    case ToolRequest(id, call, _) =>
      call.Some? && p.callId == id && p.name == call.value.name && p.argumentsJson == call.value.arguments
      && p.kind == ToolRequestYield && p.prompt == ""
    case Confirmation(id, tool, prompt) =>
      p.callId == id && p.name == tool.name && p.argumentsJson == tool.arguments && p.kind == ActionRequiredYield && p.prompt == prompt
    case _ => false
  }

  /** The list tells, in their order, the blocks at the positions `at`. */
  ghost predicate ListedAt(blocks: seq<Content>, pending: seq<PendingYield>, at: seq<nat>) {
    && |at| == |pending|
    && (forall k :: 0 <= k < |at| ==> at[k] < |blocks| && TellsBlock(blocks[at[k]], pending[k]))
    && (forall k, l :: 0 <= k < l < |at| ==> at[k] < at[l])
  }

  lemma ListedSnoc(blocks: seq<Content>, pending: seq<PendingYield>, at: seq<nat>, block: Content, p: PendingYield)
    requires ListedAt(blocks, pending, at)
    ensures ListedAt(blocks + [block], pending, at)
    ensures TellsBlock(block, p) ==> ListedAt(blocks + [block], pending + [p], at + [|blocks|])
  {
  }

  lemma {:induction false} OpenCallsAt(blocks: seq<Content>, answered: set<string>, names: set<string>) returns (at: seq<nat>)
    ensures ListedAt(blocks, OpenCalls(blocks, answered, names), at)
    ensures forall i :: 0 <= i < |blocks| ==> (i in at <==> IsOpenCall(blocks[i], answered, names))
  {
    if blocks == [] {
      at := [];
    } else {
      var init, last := blocks[..|blocks| - 1], blocks[|blocks| - 1];
      at := OpenCallsAt(init, answered, names);
      assert blocks == init + [last];
      if IsOpenCall(last, answered, names) {
        ListedSnoc(init, OpenCalls(init, answered, names), at, last, YieldOfCall(last));
        at := at + [|init|];
      } else {
        ListedSnoc(init, OpenCalls(init, answered, names), at, last, PendingYield("", "", "", ToolRequestYield, ""));
      }
    }
  }

  lemma {:induction false} OpenConfirmationsAt(blocks: seq<Content>, answered: set<string>) returns (at: seq<nat>)
    ensures ListedAt(blocks, OpenConfirmations(blocks, answered), at)
    ensures forall i :: 0 <= i < |blocks| ==> (i in at <==> IsOpenConfirmation(blocks[i], answered))
  {
    if blocks == [] {
      at := [];
    } else {
      var init, last := blocks[..|blocks| - 1], blocks[|blocks| - 1];
      at := OpenConfirmationsAt(init, answered);
      assert blocks == init + [last];
      if IsOpenConfirmation(last, answered) {
        ListedSnoc(init, OpenConfirmations(init, answered), at, last, YieldOfConfirmation(last));
        at := at + [|init|];
      } else {
        ListedSnoc(init, OpenConfirmations(init, answered), at, last, PendingYield("", "", "", ToolRequestYield, ""));
      }
    }
  }

  lemma AnsweredIds(blocks: seq<Content>, id: string)
    ensures id in ResponseIds(blocks) <==> exists j :: 0 <= j < |blocks| && blocks[j].ToolResponse? && blocks[j].id == id
    ensures id in ConfirmedIds(blocks) <==> exists j :: 0 <= j < |blocks| && blocks[j].ConfirmationResponse? && blocks[j].id == id
  {
    if j :| 0 <= j < |blocks| && blocks[j].ToolResponse? && blocks[j].id == id {
      assert blocks[j] in blocks;
    }
    if j :| 0 <= j < |blocks| && blocks[j].ConfirmationResponse? && blocks[j].id == id {
      assert blocks[j] in blocks;
    }
  }

  /**
   * The calls that wait are, in their order, the requests of the turn for one of the app's tools that no
   * response of the turn answers; without a kickoff none waits.
   */
  lemma PendingCallsExactly(kickoff: Message -> bool, names: set<string>, c: Conversation, t: nat) returns (at: seq<nat>)
    ensures LastKickoff(kickoff, c, t) ==>
              && ListedAt(Blocks(c[t..]), KimPending(kickoff, names, c), at)
              && forall i :: 0 <= i < |Blocks(c[t..])| ==> (i in at <==> WaitingCall(Blocks(c[t..]), names, i))
    ensures (forall j :: 0 <= j < |c| ==> !kickoff(c[j])) ==> KimPending(kickoff, names, c) == []
  {
    at := [];
    TurnIs(kickoff, c, t);
    if LastKickoff(kickoff, c, t) {
      var blocks := Blocks(c[t..]);
      at := OpenCallsAt(blocks, ResponseIds(blocks), names);
      forall i | 0 <= i < |blocks|
        ensures i in at <==> WaitingCall(blocks, names, i)
      {
        if blocks[i].ToolRequest? {
          AnsweredIds(blocks, blocks[i].id);
        }
      }
    }
  }

  /** The confirmations that are open are, in their order, those of the whole conversation without a response. */
  lemma ConfirmationsExactly(c: Conversation) returns (at: seq<nat>)
    ensures ListedAt(Blocks(c), Confirmations(c), at)
    ensures forall i :: 0 <= i < |Blocks(c)| ==> (i in at <==> WaitingConfirmation(Blocks(c), i))
  {
    var blocks := Blocks(c);
    at := OpenConfirmationsAt(blocks, ConfirmedIds(blocks));
    forall i | 0 <= i < |blocks|
      ensures i in at <==> WaitingConfirmation(blocks, i)
    {
      if blocks[i].Confirmation? {
        AnsweredIds(blocks, blocks[i].id);
      }
    }
  }
}

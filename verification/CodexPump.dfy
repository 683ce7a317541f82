/** What the pump shows and where it stops, read off the events it worked off, by their positions. */
module CodexPump {
  import opened HostTypes
  import opened Wrappers
  import opened CodexTypes
  import opened CodexSpec
  import opened CodexRuns
  import opened CodexTurns
  import Text

  // ---------------------------------------------------------------- what is shown

  /** A piece of streamed text. */
  predicate IsPiece(w: Wake) {
    w.Event? && w.msg.Delta? && w.msg.text != ""
  }

  predicate SawPiece(seen: seq<Wake>) {
    exists j :: 0 <= j < |seen| && IsPiece(seen[j])
  }

  /** Streamed text is shown, and a whole message while nothing has been streamed. */
  predicate ShowsText(streamed: bool, w: Wake) {
    IsPiece(w) || (IsMessage(w) && !streamed)
  }

  /** An event about a tool, a token count that counts something, or a compaction. */
  predicate Notable(w: Wake) {
    w.Event? && (w.msg.ExecBegin? || w.msg.ExecEnd? || w.msg.McpBegin? || w.msg.McpEnd? || w.msg.Compacted? || w.msg.ToolResponse?
                 || (w.msg.TokenCount? && w.msg.usage.Some?))
  }

  predicate ShowsWhen(streamed: bool, w: Wake) {
    Notable(w) || ShowsText(streamed, w)
  }

  /** What is shown tells the event: the same call, the tool's name, and success where there was success. */
  predicate TellsOf(w: Wake, e: HostEvent)
    requires Notable(w)
  {
    match w.msg
    case ExecBegin(callId, command) => e.ToolRequested? && e.callId == callId && e.name == "shell" && e.args == command
    case ExecEnd(callId, exitCode) => e.ToolResult? && e.callId == callId && e.name == "shell" && (e.ok <==> exitCode == 0)
    case McpBegin(callId, tool, args) => e.ToolRequested? && e.callId == callId && e.name == "mcp:" + tool && e.args == args
    case McpEnd(callId, tool, success) => e.ToolResult? && e.callId == callId && e.name == "mcp:" + tool && (e.ok <==> success)
    case ToolResponse(callId, tool, success) => e.ToolResult? && e.callId == callId && e.name == tool && (e.ok <==> success)
    case TokenCount(usage) => e.Usage? && e.inputTokens == usage.value.0 && e.outputTokens == usage.value.1
    case _ => e.ToolResult? && e.callId == "context_compacted" && e.name == "context_compacted" && e.ok
  }

  predicate Tells(w: Wake, e: HostEvent) {
    if Notable(w) then TellsOf(w, e) else w.Event? && (w.msg.Delta? || w.msg.Message?) && e == TextDelta(w.msg.text)
  }

  predicate Shows(seen: seq<Wake>, i: nat)
    requires i < |seen|
  {
    ShowsWhen(SawPiece(seen[..i]), seen[i])
  }

  /** What was emitted is told, in order, of the events at the positions `at`: of every event that is to be shown
      and found the channel open, and of no other. */
  ghost predicate EmittedAt(seen: seq<Wake>, emitted: seq<HostEvent>, at: seq<nat>) {
    && |at| == |emitted|
    && (forall k :: 0 <= k < |at| ==> at[k] < |seen| && seen[at[k]].Event? && Shows(seen, at[k]) && Tells(seen[at[k]], emitted[k]))
    && (forall k, l :: 0 <= k < l < |at| ==> at[k] < at[l])
    && (forall i :: 0 <= i < |seen| ==> (i in at <==> seen[i].Event? && Shows(seen, i) && seen[i].emitOk))
  }

  ghost predicate ShownSoFar(p: Pumping, at: seq<nat>) {
    EmittedAt(p.seen, p.emitted, at) && p.sawDelta == SawPiece(p.seen)
  }

  /** What one event adds to what is shown. */
  predicate ShownOn(streamed: bool, before: seq<HostEvent>, w: Wake, after: seq<HostEvent>) {
    if w.Event? && ShowsWhen(streamed, w) && w.emitOk then |after| == |before| + 1 && after[..|before|] == before && Tells(w, after[|before|])
    else after == before
  }

  lemma EmitShows(cfg: Config, p: Pumping, w: Wake, event: HostEvent)
    requires w.Event?
    ensures var q := Emit(cfg, p, w, event).p;
            q.sawDelta == p.sawDelta && q.emitted == if w.emitOk then p.emitted + [event] else p.emitted
  {
  }

  lemma TextShows(cfg: Config, p: Pumping, w: Wake)
    requires w.Event? && (w.msg.Delta? || w.msg.Message?)
    ensures var q := HandleText(cfg, p, w).p;
            q.sawDelta == (p.sawDelta || IsPiece(w)) && ShownOn(p.sawDelta, p.emitted, w, q.emitted)
  {
  }

  lemma ResponseShows(cfg: Config, p: Pumping, w: Wake)
    requires w.Event? && w.msg.ToolResponse?
    ensures var q := HandleResponse(cfg, p, w).p;
            q.sawDelta == p.sawDelta && ShownOn(p.sawDelta, p.emitted, w, q.emitted)
  {
  }

  lemma NoticeShows(w: Wake)
    requires w.Event? && !w.msg.ToolResponse?
    ensures Notice(w.msg).Some? <==> Notable(w)
    ensures Notable(w) ==> TellsOf(w, Notice(w.msg).value)
  {
  }

  lemma HandleShows(cfg: Config, p: Pumping, w: Wake)
    requires w.Event?
    ensures var q := Handle(cfg, p, w).p;
            q.sawDelta == (p.sawDelta || IsPiece(w)) && ShownOn(p.sawDelta, p.emitted, w, q.emitted)
  {
    if w.msg.Delta? || w.msg.Message? {
      TextShows(cfg, p, w);
    } else if w.msg.ToolResponse? {
      ResponseShows(cfg, p, w);
    } else {
      NoticeShows(w);
      if Notable(w) {
        EmitShows(cfg, p, w, Notice(w.msg).value);
      }
    }
  }

  lemma IterateShows(cfg: Config, hard: Option<Instant>, p: Pumping, w: Wake)
    ensures var q := Iterate(cfg, hard, p, w).p;
            q.seen == p.seen + [w] && q.sawDelta == (p.sawDelta || IsPiece(w)) && ShownOn(p.sawDelta, p.emitted, w, q.emitted)
  {
    if w.Event? {
      HandleShows(cfg, p.(seen := p.seen + [w]), w);
      HandleSeen(cfg, p.(seen := p.seen + [w]), w);
    }
  }

  lemma ShowsSnoc(seen: seq<Wake>, w: Wake, i: nat)
    requires i <= |seen|
    ensures Shows(seen + [w], i) <==> if i < |seen| then Shows(seen, i) else ShowsWhen(SawPiece(seen), w)
  {
    assert (seen + [w])[..i] == seen[..i];
    assert i == |seen| ==> seen[..i] == seen;
  }

  lemma NothingShown(seen: seq<Wake>, emitted: seq<HostEvent>, at: seq<nat>, w: Wake)
    requires EmittedAt(seen, emitted, at) && !(w.Event? && ShowsWhen(SawPiece(seen), w) && w.emitOk)
    ensures EmittedAt(seen + [w], emitted, at)
  {
    forall i | 0 <= i < |seen| + 1
      ensures i in at <==> (seen + [w])[i].Event? && Shows(seen + [w], i) && (seen + [w])[i].emitOk
    {
      ShowsSnoc(seen, w, i);
    }
  }

  lemma OneMoreShown(seen: seq<Wake>, emitted: seq<HostEvent>, at: seq<nat>, w: Wake, e: HostEvent)
    requires EmittedAt(seen, emitted, at) && w.Event? && ShowsWhen(SawPiece(seen), w) && w.emitOk && Tells(w, e)
    ensures EmittedAt(seen + [w], emitted + [e], at + [|seen|])
  {
    forall i | 0 <= i < |seen| + 1
      ensures Shows(seen + [w], i) <==> if i < |seen| then Shows(seen, i) else true
    {
      ShowsSnoc(seen, w, i);
    }
    forall i | 0 <= i < |seen| + 1
      ensures i in at + [|seen|] <==> (seen + [w])[i].Event? && Shows(seen + [w], i) && (seen + [w])[i].emitOk
    {
    }
  }

  lemma EmittedSnoc(seen: seq<Wake>, emitted: seq<HostEvent>, at: seq<nat>, w: Wake, emitted': seq<HostEvent>) returns (at': seq<nat>)
    requires EmittedAt(seen, emitted, at) && ShownOn(SawPiece(seen), emitted, w, emitted')
    ensures EmittedAt(seen + [w], emitted', at')
  {
    if w.Event? && ShowsWhen(SawPiece(seen), w) && w.emitOk {
      at' := at + [|seen|];
      OneMoreShown(seen, emitted, at, w, emitted'[|emitted|]);
      assert emitted' == emitted + [emitted'[|emitted|]];
    } else {
      at' := at;
      NothingShown(seen, emitted, at, w);
    }
  }

  lemma {:induction false} PumpShows(cfg: Config, hard: Option<Instant>, p: Pumping, feed: seq<Wake>, at: seq<nat>) returns (at': seq<nat>)
    requires ShownSoFar(p, at)
    ensures EmittedAt(Pump(cfg, hard, p, feed).p.seen, Pump(cfg, hard, p, feed).p.emitted, at')
    decreases |feed|
  {
    if feed == [] {
      at' := at;
    } else {
      var flow := Iterate(cfg, hard, p, feed[0]);
      IterateShows(cfg, hard, p, feed[0]);
      at' := EmittedSnoc(p.seen, p.emitted, at, feed[0], flow.p.emitted);
      assert SawPiece(p.seen + [feed[0]]) <==> SawPiece(p.seen) || IsPiece(feed[0]) by {
        assert (p.seen + [feed[0]])[|p.seen|] == feed[0];
        assert forall j :: 0 <= j < |p.seen| ==> (p.seen + [feed[0]])[j] == p.seen[j];
      }
      if flow.Next? {
        at' := PumpShows(cfg, hard, flow.p, feed[1..], at');
      }
    }
  }

  /** Whatever the feed, what the pump emits is, in order, one notice for each event worked off that is to be
      shown, with that event's contents, and nothing else. */
  lemma EmittedExactly(cfg: Config, s: Session, now: Instant, feed: seq<Wake>) returns (at: seq<nat>)
    ensures var o := PumpSession(cfg, s, now, feed);
            EmittedAt(o.seen, o.emitted, at)
  {
    assert ShownSoFar(Armed(cfg, s, now), []);
    at := PumpShows(cfg, s.slot.hardDeadline, Armed(cfg, s, now), feed, []);
  }

  // ---------------------------------------------------------------- where it stops

  /** The event parks or ends the turn. */
  predicate EndsTurn(msg: EventMsg) {
    || msg.ToolCall? || msg.ExecApprovalRequest? || msg.PatchApprovalRequest?
    || msg.TurnComplete? || msg.Error? || msg.TurnAborted? || msg.RequestUserInput? || msg.RequestPermissions?
  }

  /** What happens at `w`, behind `before`, stops the pump. */
  predicate StopsAt(cfg: Config, armed: Instant, hard: Option<Instant>, before: seq<Wake>, w: Wake) {
    match w
    case CancelFired(_) => true
    case IdleTimer(at) => cfg.idle.Some? && LastActive(armed, before) + cfg.idle.value <= at
    case HardTimer(at) => hard.Some? && hard.value <= at
    case ThreadError(_, _) => true
    case Event(_, msg, emitOk, _) => EndsTurn(msg) || (!emitOk && ShowsWhen(SawPiece(before), w))
  }

  /** The text says something. */
  predicate HasText(text: string) {
    exists i :: 0 <= i < |text| && !Text.IsWhitespace(text[i])
  }

  /** What the pump answers when an event stops it. */
  predicate EventReply(msg: EventMsg, reply: Reply) {
    match msg
    case ToolCall(callId, tool, _) => IsYield(reply) && reply.outcome.callId == callId && reply.outcome.name == tool
    case ExecApprovalRequest(callId, _, _, _, _) => reply == Done(Yielded(ActionRequiredYield, callId, "shell"))
    case PatchApprovalRequest(callId, _) => reply == Done(Yielded(ActionRequiredYield, callId, "apply_patch"))
    case TurnComplete(error, _) =>
      if error.Some? then reply == Fail(Failed(error.value))
      else IsFinish(reply) && (reply.outcome.replied <==> HasText(reply.outcome.text))
    case Error(message) => reply == Fail(Failed(message))
    case TurnAborted => reply == Done(Cancelled)
    case _ => reply.Fail? && reply.error.Failed?
  }

  /** What the pump answers when it stops at `w`. */
  predicate ReplyAt(cfg: Config, armed: Instant, before: seq<Wake>, w: Wake, reply: Reply) {
    match w
    case CancelFired(_) => reply == Done(Cancelled)
    case IdleTimer(_) => reply == Done(TimedOut(IdleTimeout))
    case HardTimer(at) => reply == Done(TimedOut(HardTimeout(at <= LastActive(armed, before) + cfg.recentlyActive)))
    case ThreadError(_, message) => reply == Fail(Failed(message))
    case Event(_, msg, _, _) => EventReply(msg, reply)
  }

  /** The pump's locals are those of the events behind it. */
  predicate Abreast(cfg: Config, armed: Instant, p: Pumping) {
    ClockKept(cfg, armed, p) && p.sawDelta == SawPiece(p.seen)
  }

  lemma TextGoesOn(cfg: Config, p: Pumping, w: Wake)
    requires w.Event? && (w.msg.Delta? || w.msg.Message?)
    ensures var flow := HandleText(cfg, p, w);
            if !w.emitOk && ShowsWhen(p.sawDelta, w) then flow.Stop? && EventReply(w.msg, flow.reply) else flow.Next?
  {
  }

  lemma NoticeGoesOn(cfg: Config, p: Pumping, w: Wake, event: HostEvent)
    requires w.Event? && !EndsTurn(w.msg)
    ensures var flow := Emit(cfg, p, w, event);
            if !w.emitOk then flow.Stop? && EventReply(w.msg, flow.reply) else flow.Next?
  {
  }

  lemma EndingReplies(p: Pumping, msg: EventMsg)
    requires !msg.IsRequest()
    ensures Ending(p, msg).Some? <==> EndsTurn(msg)
    ensures EndsTurn(msg) ==> EventReply(msg, Ending(p, msg).value)
  {
  }

  lemma HandleStops(cfg: Config, p: Pumping, w: Wake)
    requires w.Event?
    ensures var flow := Handle(cfg, p, w);
            && (flow.Stop? <==> EndsTurn(w.msg) || (!w.emitOk && ShowsWhen(p.sawDelta, w)))
            && (flow.Stop? ==> EventReply(w.msg, flow.reply))
  {
    if !w.msg.IsRequest() {
      EndingReplies(p, w.msg);
      if w.msg.Delta? || w.msg.Message? {
        TextGoesOn(cfg, p, w);
      } else if !EndsTurn(w.msg) && !w.msg.ToolResponse? {
        NoticeShows(w);
        if Notable(w) {
          NoticeGoesOn(cfg, p, w, Notice(w.msg).value);
        }
      }
    }
  }

  lemma IterateStops(cfg: Config, armed: Instant, hard: Option<Instant>, p: Pumping, w: Wake)
    requires Abreast(cfg, armed, p)
    ensures var flow := Iterate(cfg, hard, p, w);
            && flow.p.seen == p.seen + [w]
            && (flow.Stop? <==> StopsAt(cfg, armed, hard, p.seen, w))
            && (flow.Stop? ==> ReplyAt(cfg, armed, p.seen, w, flow.reply))
            && (flow.Next? ==> Abreast(cfg, armed, flow.p))
  {
    IterateShows(cfg, hard, p, w);
    IterateClock(cfg, armed, hard, p, w);
    SawPieceSnoc(p.seen, w);
    if w.Event? {
      HandleStops(cfg, p.(seen := p.seen + [w]), w);
    }
  }

  lemma SawPieceSnoc(seen: seq<Wake>, w: Wake)
    ensures SawPiece(seen + [w]) <==> SawPiece(seen) || IsPiece(w)
  {
    assert (seen + [w])[|seen|] == w;
    assert forall j :: 0 <= j < |seen| ==> (seen + [w])[j] == seen[j];
  }

  /** Nothing before position `n` stops the pump. */
  predicate GoesOn(cfg: Config, armed: Instant, hard: Option<Instant>, seen: seq<Wake>, from: nat, n: nat)
    requires n <= |seen|
  {
    forall i :: from <= i < n ==> !StopsAt(cfg, armed, hard, seen[..i], seen[i])
  }

  /** The pump worked off all of it and stopped at the last. */
  predicate StoppedAtLast(cfg: Config, armed: Instant, hard: Option<Instant>, seen: seq<Wake>, reply: Reply) {
    && seen != []
    && StopsAt(cfg, armed, hard, seen[..|seen| - 1], seen[|seen| - 1])
    && ReplyAt(cfg, armed, seen[..|seen| - 1], seen[|seen| - 1], reply)
  }

  lemma GoesOnFrom(cfg: Config, armed: Instant, hard: Option<Instant>, before: seq<Wake>, w: Wake, seen: seq<Wake>, n: nat)
    requires before + [w] <= seen && n <= |seen|
    ensures |before| < n ==>
              (GoesOn(cfg, armed, hard, seen, |before|, n) <==>
                 !StopsAt(cfg, armed, hard, before, w) && GoesOn(cfg, armed, hard, seen, |before| + 1, n))
  {
    assert seen[..|before|] == before && seen[|before|] == w by {
      assert seen[..|before| + 1] == before + [w];
      assert (before + [w])[..|before|] == before;
    }
  }

  /** A pump that worked off `seen` of `all`, from position `from` on, went as far as it goes and no further. */
  predicate EndsRightly(cfg: Config, armed: Instant, hard: Option<Instant>, from: nat, all: seq<Wake>, seen: seq<Wake>, reply: Reply) {
    && from <= |seen| && seen <= all
    && if GoesOn(cfg, armed, hard, all, from, |all|) then seen == all && reply == Dropped
       else |seen| > from && StoppedAtLast(cfg, armed, hard, seen, reply) && GoesOn(cfg, armed, hard, seen, from, |seen| - 1)
  }

  lemma EndsHere(cfg: Config, armed: Instant, hard: Option<Instant>, before: seq<Wake>, w: Wake, all: seq<Wake>, reply: Reply)
    requires before + [w] <= all
    requires StopsAt(cfg, armed, hard, before, w) && ReplyAt(cfg, armed, before, w, reply)
    ensures EndsRightly(cfg, armed, hard, |before|, all, before + [w], reply)
  {
    GoesOnFrom(cfg, armed, hard, before, w, all, |all|);
    assert (before + [w])[..|before|] == before;
  }

  lemma EndsLater(cfg: Config, armed: Instant, hard: Option<Instant>, before: seq<Wake>, w: Wake, all: seq<Wake>, seen: seq<Wake>, reply: Reply)
    requires before + [w] <= all && !StopsAt(cfg, armed, hard, before, w) && before + [w] <= seen
    requires EndsRightly(cfg, armed, hard, |before| + 1, all, seen, reply)
    ensures EndsRightly(cfg, armed, hard, |before|, all, seen, reply)
  {
    GoesOnFrom(cfg, armed, hard, before, w, all, |all|);
    GoesOnFrom(cfg, armed, hard, before, w, seen, |seen| - 1);
  }

  lemma {:induction false} PumpStops(cfg: Config, armed: Instant, hard: Option<Instant>, p: Pumping, feed: seq<Wake>)
    requires Abreast(cfg, armed, p)
    ensures var flow := Pump(cfg, hard, p, feed);
            p.seen <= flow.p.seen && EndsRightly(cfg, armed, hard, |p.seen|, p.seen + feed, flow.p.seen, flow.reply)
    decreases |feed|
  {
    if feed == [] {
      assert p.seen + feed == p.seen;
    } else {
      var w, rest := feed[0], feed[1..];
      var flow := Iterate(cfg, hard, p, w);
      IterateStops(cfg, armed, hard, p, w);
      assert p.seen + feed == (p.seen + [w]) + rest;
      if flow.Next? {
        PumpStops(cfg, armed, hard, flow.p, rest);
        EndsLater(cfg, armed, hard, p.seen, w, p.seen + feed, Pump(cfg, hard, flow.p, rest).p.seen, Pump(cfg, hard, flow.p, rest).reply);
      } else {
        EndsHere(cfg, armed, hard, p.seen, w, p.seen + feed, flow.reply);
      }
    }
  }

  /**
   * The pump works off its feed up to the first thing that stops it, and answers what that calls for: a
   * cancelled token, a timer that is due, a failed thread, an event that parks or ends the turn, or one that
   * is to be shown and finds the channel closed. It is dropped exactly if nothing in the feed stops it.
   */
  lemma StopsExactly(cfg: Config, s: Session, now: Instant, feed: seq<Wake>)
    ensures var o := PumpSession(cfg, s, now, feed);
            EndsRightly(cfg, now, s.slot.hardDeadline, 0, feed, o.seen, o.reply)
  {
    PumpStops(cfg, now, s.slot.hardDeadline, Armed(cfg, s, now), feed);
    assert [] + feed == feed;
  }
}

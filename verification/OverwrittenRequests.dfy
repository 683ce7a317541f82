/** Schedules on which no pump parks a request over an outstanding one. */
module OverwrittenRequests {
  import opened Wrappers
  import opened CodexTypes
  import opened CodexSpec
  import opened PromptInterleaving
  import opened StrandedRequests

  /** A pump parks a request over one that is outstanding. */
  predicate Overwrites(w: World, act: Act) {
    act.RunTurn? && act.how.Parked? && w.pending.Some?
  }

  predicate NeverOverwrites(acts: seq<Act>) {
    acts == [] || (NeverOverwrites(acts[..|acts| - 1]) && !Overwrites(After(acts[..|acts| - 1]), acts[|acts| - 1]))
  }

  /** A prompt's turn, or the outstanding request, is still to be read from the thread. */
  predicate Awaited(w: World, thread: ThreadId) {
    || (exists id :: id in w.tasks && w.tasks[id] == Sent(thread))
    || (w.pending.Some? && w.pending.value.thread == thread)
  }

  /** A turn ends unobserved only where nothing is still to be read from its thread: behind a pump that was
      given up, or a request that was taken out. */
  predicate InOrder(w: World, act: Act) {
    act.GoIdle? ==> !Awaited(w, act.thread)
  }

  predicate Orderly(acts: seq<Act>) {
    acts == [] || (Orderly(acts[..|acts| - 1]) && InOrder(After(acts[..|acts| - 1]), acts[|acts| - 1]))
  }

  /** A thread with a turn under way is busy, with the turn of one prompt or with the outstanding request. */
  predicate OneTurnEach(w: World) {
    && (forall id :: id in w.tasks && w.tasks[id].Sent? ==> w.tasks[id].thread in w.busy)
    && (forall id, other :: id in w.tasks && other in w.tasks && w.tasks[id].Sent? && w.tasks[id] == w.tasks[other] ==> id == other)
    && (w.pending.Some? ==>
          && w.pending.value.thread in w.busy
          && forall id :: id in w.tasks && w.tasks[id].Sent? ==> w.tasks[id].thread != w.pending.value.thread)
  }

  /** No new turn is under way, no thread went idle and no request came in. */
  lemma LessIsOneTurnEach(w: World, w': World)
    requires OneTurnEach(w) && w'.busy == w.busy && (w'.pending == w.pending || w'.pending.None?)
    requires forall id :: id in w'.tasks && w'.tasks[id].Sent? ==> id in w.tasks && w.tasks[id] == w'.tasks[id]
    ensures OneTurnEach(w')
  {
  }

  lemma AcceptOneTurnEach(w: World, id: TaskId)
    requires OneTurnEach(w) && id in w.tasks && w.tasks[id].Ready? && w.tasks[id].thread !in w.busy
    ensures OneTurnEach(Acted(w, Accept(id)))
  {
  }

  lemma PumpOneTurnEach(w: World, thread: ThreadId, how: Ending)
    requires OneTurnEach(w) && w.pending.None? && thread in w.busy
    requires forall id :: id in w.tasks && w.tasks[id].Sent? ==> w.tasks[id].thread != thread
    ensures OneTurnEach(Pumped(w, thread, how))
  {
  }

  /** A prompt's step other than submitting or pumping a turn. */
  lemma StepLeavesTurns(limits: Limits, w: World, act: Act)
    requires Enabled(limits, w, act) && IsStep(act) && !act.Accept? && !act.RunTurn?
    ensures Acted(w, act).busy == w.busy && Acted(w, act).pending == w.pending
    ensures act.id in Acted(w, act).tasks ==> !Acted(w, act).tasks[act.id].Sent?
  {
  }

  lemma StepOneTurnEach(limits: Limits, w: World, act: Act)
    requires OneTurnEach(w) && Enabled(limits, w, act) && IsStep(act) && !act.Accept? && !act.RunTurn?
    ensures OneTurnEach(Acted(w, act))
  {
    StepMoves(limits, w, act);
    StepLeavesTurns(limits, w, act);
    LessIsOneTurnEach(w, Acted(w, act));
  }

  lemma RunOneTurnEach(w: World, id: TaskId, how: Ending)
    requires Guarded(w) && OneTurnEach(w) && id in w.tasks && w.tasks[id].Sent?
    ensures OneTurnEach(Acted(w, RunTurn(id, how))) && w.pending.None?
  {
    assert Committed(w, id);
    var left := Leave(w, id).(turns := SaturatingSucc(w.turns));
    LessIsOneTurnEach(w, left);
    PumpOneTurnEach(left, w.tasks[id].thread, how);
  }

  lemma ResolveOneTurnEach(w: World, how: Ending)
    requires Guarded(w) && OneTurnEach(w) && w.pending.Some?
    ensures OneTurnEach(Acted(w, Resolve(how)))
  {
    LessIsOneTurnEach(w, w.(pending := None));
    PumpOneTurnEach(w.(pending := None), w.live.value, how);
  }

  /** A thread nothing is to be read from may go idle. */
  lemma IdleOneTurnEach(w: World, thread: ThreadId)
    requires OneTurnEach(w) && !Awaited(w, thread)
    ensures OneTurnEach(Acted(w, GoIdle(thread)))
  {
  }

  lemma NextOneTurnEach(limits: Limits, w: World, act: Act)
    requires Guarded(w) && OneTurnEach(w) && Enabled(limits, w, act) && InOrder(w, act)
    ensures OneTurnEach(Acted(w, act)) && !Overwrites(w, act)
  {
    match act
    case Accept(id) => AcceptOneTurnEach(w, id);
    case RunTurn(id, how) => RunOneTurnEach(w, id, how);
    case Resolve(how) => ResolveOneTurnEach(w, how);
    case Drop => LessIsOneTurnEach(w, Acted(w, act));
    case GoIdle(thread) => IdleOneTurnEach(w, thread);
    case Configure => LessIsOneTurnEach(w, Acted(w, act));
    case Close => LessIsOneTurnEach(w, Acted(w, act));
    case _ => StepOneTurnEach(limits, w, act);
  }

  /** On a slot used carefully, with turns that end in order, no pump overwrites a request. */
  lemma {:induction false} CarefulHasOneTurnEach(limits: Limits, acts: seq<Act>)
    requires Possible(limits, acts) && Careful(acts) && Orderly(acts)
    ensures OneTurnEach(After(acts)) && NeverOverwrites(acts)
  {
    if acts == [] {
      assert OneTurnEach(START);
    } else {
      CarefulHasOneTurnEach(limits, acts[..|acts| - 1]);
      GuardedExactly(limits, acts[..|acts| - 1]);
      NextOneTurnEach(limits, After(acts[..|acts| - 1]), acts[|acts| - 1]);
    }
  }

  lemma NeverOverwritesSnoc(acts: seq<Act>, act: Act)
    ensures NeverOverwrites(acts + [act]) <==> NeverOverwrites(acts) && !Overwrites(After(acts), act)
  {
    assert (acts + [act])[..|acts|] == acts;
  }

  lemma OrderlySnoc(acts: seq<Act>, act: Act)
    ensures Orderly(acts + [act]) <==> Orderly(acts) && InOrder(After(acts), act)
  {
    assert (acts + [act])[..|acts|] == acts;
  }

  /** `acts` goes on from `start` without a reset, its turns ending in order. */
  predicate Continues(start: seq<Act>, acts: seq<Act>) {
    start <= acts && forall i :: |start| <= i < |acts| ==> !IsReset(acts[i]) && InOrder(After(acts[..i]), acts[i])
  }

  /** Going on from here a request can come to be overwritten, without a reset and with turns that end in order. */
  ghost predicate CanOverwrite(limits: Limits, start: seq<Act>) {
    exists acts :: Continues(start, acts) && Possible(limits, acts) && !NeverOverwrites(acts)
  }

  lemma ContinuesSnoc(start: seq<Act>, acts: seq<Act>, act: Act)
    requires Continues(start, acts) && !IsReset(act) && InOrder(After(acts), act)
    ensures Continues(start, acts + [act])
  {
    assert forall i :: 0 <= i <= |acts| ==> (acts + [act])[..i] == acts[..i];
    assert acts[..|acts|] == acts;
  }

  lemma ContinuesPlainly(start: seq<Act>, acts: seq<Act>, acts': seq<Act>)
    requires Continues(start, acts) && acts <= acts' && forall i :: |acts| <= i < |acts'| ==> Plain(acts'[i])
    ensures Continues(start, acts')
  {
    assert forall i :: 0 <= i <= |acts| ==> acts'[..i] == acts[..i];
  }

  /** A schedule that ends in a pump that parks over an outstanding request. */
  lemma LastOverwrites(limits: Limits, start: seq<Act>, acts: seq<Act>, id: TaskId)
    requires Continues(start, acts) && Possible(limits, acts)
    requires After(acts).pending.Some? && id in After(acts).tasks && After(acts).tasks[id].Sent?
    ensures CanOverwrite(limits, start)
  {
    var last := RunTurn(id, Parked("b"));
    AfterSnoc(limits, acts, last);
    NeverOverwritesSnoc(acts, last);
    ContinuesSnoc(start, acts, last);
  }

  /** A state from which no request is overwritten: one turn each, or a request outstanding and no prompt in flight. */
  ghost predicate Safe(w: World) {
    Guarded(w) && (OneTurnEach(w) || (w.pending.Some? && w.tasks == map[]))
  }

  /** With no prompt in flight the request is answered or dropped before anything else can run. */
  lemma AloneIsSafe(limits: Limits, w: World, act: Act)
    requires Guarded(w) && w.pending.Some? && w.tasks == map[] && Enabled(limits, w, act) && !IsReset(act)
    ensures Acted(w, act).tasks == map[] && !Overwrites(w, act)
    ensures OneTurnEach(Acted(w, act)) || Acted(w, act).pending.Some?
  {
  }

  lemma NextSafe(limits: Limits, w: World, act: Act)
    requires Safe(w) && Enabled(limits, w, act) && !IsReset(act) && InOrder(w, act)
    ensures Safe(Acted(w, act)) && !Overwrites(w, act)
  {
    NextGuarded(limits, w, act);
    if OneTurnEach(w) {
      NextOneTurnEach(limits, w, act);
    } else {
      AloneIsSafe(limits, w, act);
    }
  }

  lemma {:induction false} SafeOn(limits: Limits, start: seq<Act>, acts: seq<Act>)
    requires Continues(start, acts) && Possible(limits, acts)
    requires Safe(After(start)) && NeverOverwrites(start)
    ensures Safe(After(acts)) && NeverOverwrites(acts)
    decreases |acts|
  {
    if |acts| == |start| {
      assert acts == start;
    } else {
      var init := acts[..|acts| - 1];
      assert forall i :: 0 <= i <= |init| ==> init[..i] == acts[..i];
      SafeOn(limits, start, init);
      NextSafe(limits, After(init), acts[|acts| - 1]);
    }
  }

  lemma SafeCannotOverwrite(limits: Limits, start: seq<Act>)
    requires Safe(After(start)) && NeverOverwrites(start)
    ensures !CanOverwrite(limits, start)
  {
    forall acts | Continues(start, acts) && Possible(limits, acts)
      ensures NeverOverwrites(acts)
    {
      SafeOn(limits, start, acts);
    }
  }
}

/** When a turn that ends with something still to be read from its thread makes it possible for a request to
    be overwritten: the thread is then free to accept another prompt's turn. */
module UnreadTurns {
  import opened Wrappers
  import opened CodexTypes
  import opened PromptInterleaving
  import opened PromptSchedules
  import opened ThreadRace
  import opened StrandedRequests
  import opened OverwrittenRequests
  import opened CarelessResets

  /** What a prompt does next, with a thread live that is not its own. */
  function Onward(pc: Pc, id: TaskId): Act
    requires !pc.Ready? && !pc.Sent?
  {
    match pc
    case Admitted => Look(id)
    case SawNone => ReadLaunch(id)
    case Launching => StartOk(id)
    case Holding(_) => Commit(id)
    case Ensured => TakeThread(id)
  }

  /** How many such steps it is from the live thread. */
  function Way(pc: Pc): nat {
    match pc
    case SawNone => 4
    case Launching => 3
    case Holding(_) => 2
    case Admitted => 2
    case Ensured => 1
    case _ => 0
  }

  lemma OnwardMoves(limits: Limits, w: World, id: TaskId)
    requires ThreadsKnown(w) && w.launched && w.live.Some? && id in w.tasks && Way(w.tasks[id]) > 0
    ensures Enabled(limits, w, Onward(w.tasks[id], id)) && Plain(Onward(w.tasks[id], id))
    ensures var w' := Acted(w, Onward(w.tasks[id], id));
            && w' == w.(tasks := w'.tasks, fates := w'.fates)
            && id in w'.tasks && Way(w'.tasks[id]) < Way(w.tasks[id])
            && (Way(w'.tasks[id]) == 0 ==> w'.tasks[id] == Ready(w.live.value))
  {
  }

  /** A prompt that holds no thread yet comes to take the live one. */
  lemma Arrive(limits: Limits, acts: seq<Act>, id: TaskId) returns (acts': seq<Act>)
    requires Possible(limits, acts) && id in After(acts).tasks
    requires var w := After(acts);
             w.launched && w.live.Some? && (Way(w.tasks[id]) == 0 ==> w.tasks[id] == Ready(w.live.value))
    ensures Possible(limits, acts') && acts <= acts' && forall i :: |acts| <= i < |acts'| ==> Plain(acts'[i])
    ensures var w, w' := After(acts), After(acts');
            w' == w.(tasks := w'.tasks, fates := w'.fates) && At(w', id, Ready(w.live.value))
    decreases Way(After(acts).tasks[id])
  {
    acts' := acts;
    var pc := After(acts).tasks[id];
    if Way(pc) > 0 {
      ThreadsAccounted(limits, acts);
      OnwardMoves(limits, After(acts), id);
      var next := Do(limits, acts, Onward(pc, id));
      acts' := Arrive(limits, next, id);
    }
  }

  /** The live thread is idle while a request of its is outstanding: any prompt in flight can overwrite it. */
  lemma OutstandingIsOverwritten(limits: Limits, start: seq<Act>, id: TaskId)
    requires Possible(limits, start) && id in After(start).tasks
    requires var w := After(start);
             && w.launched && w.live.Some? && w.live.value !in w.busy && w.pending.Some?
             && (Way(w.tasks[id]) == 0 ==> w.tasks[id] == Ready(w.live.value))
    ensures CanOverwrite(limits, start)
  {
    var acts := Arrive(limits, start, id);
    acts := Do(limits, acts, Accept(id));
    ContinuesPlainly(start, start, acts);
    LastOverwrites(limits, start, acts, id);
  }

  lemma NewcomerLooks(limits: Limits, acts: seq<Act>, other: TaskId) returns (acts': seq<Act>)
    requires Possible(limits, acts)
    requires var w := After(acts);
             w.live.Some? && w.pending.None? && HasRoom(limits, w, other)
    ensures acts' == acts + [Enter(other), Look(other)] && Possible(limits, acts')
    ensures After(acts') == After(acts).(tasks := After(acts).tasks[other := Ensured])
  {
    acts' := Do(limits, acts, Enter(other));
    acts' := Do(limits, acts', Look(other));
    assert After(acts').tasks == After(acts).tasks[other := Ensured];
  }

  /** A newcomer finds the live thread and takes it. */
  lemma NewcomerTakes(limits: Limits, acts: seq<Act>, other: TaskId) returns (acts': seq<Act>)
    requires Possible(limits, acts)
    requires var w := After(acts);
             w.live.Some? && w.pending.None? && HasRoom(limits, w, other)
    ensures Possible(limits, acts') && acts <= acts' && forall i :: |acts| <= i < |acts'| ==> Plain(acts'[i])
    ensures var w := After(acts);
            After(acts') == w.(tasks := w.tasks[other := Ready(w.live.value)])
  {
    acts' := NewcomerLooks(limits, acts, other);
    acts' := Do(limits, acts', TakeThread(other));
    var w := After(acts);
    assert After(acts').tasks == w.tasks[other := Ready(w.live.value)];
  }

  /** The thread is idle and accepts the newcomer's turn, which parks on a request. */
  lemma TakerParks(limits: Limits, acts: seq<Act>, other: TaskId) returns (acts': seq<Act>)
    requires Possible(limits, acts)
    requires var w := After(acts);
             w.live.Some? && w.live.value !in w.busy && w.pending.None? && HasRoom(limits, w, other)
    ensures Possible(limits, acts') && acts <= acts' && forall i :: |acts| <= i < |acts'| ==> Plain(acts'[i])
    ensures After(acts').pending.Some? && After(acts').tasks == After(acts).tasks
  {
    var thread := After(acts).live.value;
    acts' := NewcomerTakes(limits, acts, other);
    assert At(After(acts'), other, Ready(thread)) && thread !in After(acts').busy;
    acts' := TurnParks(limits, acts', other, thread);
  }

  /** The live thread is idle while a prompt's turn is still to be read from it. */
  lemma SentIsOvertaken(limits: Limits, start: seq<Act>, id: TaskId, other: TaskId)
    requires Possible(limits, start) && id in After(start).tasks && After(start).tasks[id].Sent?
    requires var w := After(start);
             w.live.Some? && w.live.value !in w.busy && w.pending.None? && HasRoom(limits, w, other)
    ensures CanOverwrite(limits, start)
  {
    var acts := TakerParks(limits, start, other);
    ContinuesPlainly(start, start, acts);
    LastOverwrites(limits, start, acts, id);
  }

  lemma IdleHarms(limits: Limits, acts: seq<Act>, thread: ThreadId, other: TaskId)
    requires Possible(limits, acts) && Guarded(After(acts)) && OneTurnEach(After(acts)) && After(acts).launched
    requires After(acts).pending.None? ==> HasRoom(limits, After(acts), other)
    requires Awaited(After(acts), thread) && (After(acts).pending.Some? ==> After(acts).tasks != map[])
    ensures CanOverwrite(limits, acts + [GoIdle(thread)])
  {
    var w := After(acts);
    var start := Do(limits, acts, GoIdle(thread));
    if w.pending.Some? {
      var id :| id in w.tasks;
      assert Committed(w, id) ==> w.live == Some(w.tasks[id].thread);
      assert forall p :: p in w.tasks && w.tasks[p] == Sent(thread) ==> Committed(w, p);
      OutstandingIsOverwritten(limits, start, id);
    } else {
      var id :| id in w.tasks && w.tasks[id] == Sent(thread);
      assert Committed(w, id);
      SentIsOvertaken(limits, start, id, other);
    }
  }

  lemma IdleIsSafe(limits: Limits, w: World, thread: ThreadId)
    requires Guarded(w) && OneTurnEach(w)
    requires Awaited(w, thread) ==> w.pending.Some? && w.tasks == map[]
    ensures Safe(Acted(w, GoIdle(thread)))
  {
    NextGuarded(limits, w, GoIdle(thread));
    if !Awaited(w, thread) {
      IdleOneTurnEach(w, thread);
    }
  }

  /**
   * On a slot used carefully so far, with turns that ended in order, and with room for one more prompt if no
   * request is outstanding, a turn that ends unobserved makes it possible for a request to be overwritten
   * exactly if something is still to be read from its thread, unless that is the outstanding request and no
   * prompt is in flight.
   */
  lemma IdleHarmsExactly(limits: Limits, acts: seq<Act>, thread: ThreadId, other: TaskId)
    requires Possible(limits, acts) && Careful(acts) && Orderly(acts)
    requires After(acts).pending.None? ==> HasRoom(limits, After(acts), other)
    ensures CanOverwrite(limits, acts + [GoIdle(thread)]) <==>
              Awaited(After(acts), thread) && (After(acts).pending.Some? ==> After(acts).tasks != map[])
  {
    AfterSnoc(limits, acts, GoIdle(thread));
    NeverOverwritesSnoc(acts, GoIdle(thread));
    CarefulHasOneTurnEach(limits, acts);
    GuardedExactly(limits, acts);
    if Awaited(After(acts), thread) && (After(acts).pending.Some? ==> After(acts).tasks != map[]) {
      LaunchedFirst(limits, acts);
      AwaitedIsLive(After(acts), thread);
      IdleHarms(limits, acts, thread, other);
    } else {
      IdleIsSafe(limits, After(acts), thread);
      SafeCannotOverwrite(limits, acts + [GoIdle(thread)]);
    }
  }

  lemma AwaitedIsLive(w: World, thread: ThreadId)
    requires Guarded(w) && Awaited(w, thread)
    ensures w.live == Some(thread)
  {
    if w.pending.None? || w.pending.value.thread != thread {
      var id :| id in w.tasks && w.tasks[id] == Sent(thread);
      assert Committed(w, id);
    }
  }

  /** On a slot just configured prompts 0 and 1 wait for thread 0, which is live and idle. */
  lemma Waiting(limits: Limits) returns (acts: seq<Act>)
    requires limits.sessions > 1 && limits.maxTurns > 0
    ensures Possible(limits, acts) && [Configure] <= acts && forall i :: 0 < i < |acts| ==> !IsReset(acts[i])
    ensures After(acts) == World(true, Some(0), None, 0, {}, map[0 := Ready(0), 1 := Ready(0)], After(acts).fates)
  {
    acts := Do(limits, [], Configure);
    var first := NewcomerReady(limits, acts, 0);
    assert After(first).tasks == map[0 := Ready(0)];
    acts := NewcomerTakes(limits, first, 1);
  }

  /** Prompt 0's turn parks on a request and then ends unobserved. */
  lemma Unread(limits: Limits) returns (acts: seq<Act>)
    requires limits.sessions > 1 && limits.maxTurns > 0
    ensures Possible(limits, acts) && [Configure] <= acts && forall i :: 0 < i < |acts| ==> !IsReset(acts[i])
    ensures var w := After(acts);
            w.launched && w.live == Some(0) && 0 !in w.busy && w.pending.Some? && At(w, 1, Ready(0))
  {
    var waiting := Waiting(limits);
    var parked := TurnParks(limits, waiting, 0, 0);
    acts := Do(limits, parked, GoIdle(0));
  }

  /** So a request can be overwritten although the slot is configured once, before any prompt, and never
      closed: the turn of an outstanding request ends, and a second prompt gets the thread. */
  lemma OverwrittenWithoutReset(limits: Limits) returns (acts: seq<Act>)
    requires limits.sessions > 1 && limits.maxTurns > 0
    ensures Possible(limits, acts) && Careful(acts) && !NeverOverwrites(acts)
    ensures forall i :: 0 < i < |acts| ==> !IsReset(acts[i])
  {
    var start := Unread(limits);
    OutstandingIsOverwritten(limits, start, 1);
    acts :| Continues(start, acts) && Possible(limits, acts) && !NeverOverwrites(acts);
    assert acts == [Configure] + acts[1..];
    CarefulSnoc([], Configure);
    CarefulOn(limits, [Configure], acts[1..]);
  }
}

/** When configuring or closing the slot makes it possible for a request to be overwritten. */
module CarelessResets {
  import opened Wrappers
  import opened CodexTypes
  import opened PromptInterleaving
  import opened PromptSchedules
  import opened ThreadRace
  import opened StrandedRequests
  import opened OverwrittenRequests

  /** There are launch options, or no prompt got as far as to need them. */
  predicate LaunchKnown(w: World) {
    w.launched || (w.live.None? && forall id :: id in w.tasks ==> w.tasks[id].Admitted? || w.tasks[id].SawNone?)
  }

  lemma NextLaunchKnown(limits: Limits, w: World, act: Act)
    requires LaunchKnown(w) && Enabled(limits, w, act)
    ensures LaunchKnown(Acted(w, act))
  {
  }

  lemma {:induction false} LaunchedFirst(limits: Limits, acts: seq<Act>)
    requires Possible(limits, acts)
    ensures LaunchKnown(After(acts))
  {
    if acts == [] {
    } else {
      LaunchedFirst(limits, acts[..|acts| - 1]);
      NextLaunchKnown(limits, After(acts[..|acts| - 1]), acts[|acts| - 1]);
    }
  }

  /** A prompt that is not in flight can come in. */
  predicate HasRoom(limits: Limits, w: World, other: TaskId) {
    w.turns < limits.maxTurns && other !in w.tasks && |w.tasks| < limits.sessions
  }

  /** It finds no thread. */
  predicate Vacant(limits: Limits, w: World, other: TaskId) {
    w.launched && w.live.None? && w.pending.None? && HasRoom(limits, w, other)
  }

  /** The newcomer takes the thread it started, which is idle. */
  lemma NewcomerReady(limits: Limits, acts: seq<Act>, other: TaskId) returns (acts': seq<Act>)
    requires Possible(limits, acts) && Vacant(limits, After(acts), other)
    ensures Possible(limits, acts') && acts <= acts' && forall i :: |acts| <= i < |acts'| ==> Plain(acts'[i])
    ensures var w, w' := After(acts), After(acts');
            && w' == w.(live := Some(|w.fates|), tasks := w.tasks[other := Ready(|w.fates|)], fates := w'.fates)
            && |w.fates| !in w'.busy
  {
    ThreadsInUse(limits, acts);
    var w := After(acts);
    acts' := StartThread(limits, acts, other);
    acts' := Take(limits, acts', other, |w.fates|);
    assert After(acts').tasks == w.tasks[other := Ready(|w.fates|)];
  }

  /** An idle thread accepts a prompt's turn, and the turn parks on a request. */
  lemma TurnParks(limits: Limits, acts: seq<Act>, id: TaskId, thread: ThreadId) returns (acts': seq<Act>)
    requires Possible(limits, acts) && At(After(acts), id, Ready(thread)) && thread !in After(acts).busy
    ensures acts' == acts + [Accept(id), RunTurn(id, Parked("a"))] && Possible(limits, acts')
    ensures After(acts').pending == Some(Request(thread, "a")) && After(acts').tasks == After(acts).tasks - {id}
    ensures After(acts').launched == After(acts).launched && After(acts').live == After(acts).live
  {
    acts' := Do(limits, acts, Accept(id));
    acts' := Do(limits, acts', RunTurn(id, Parked("a")));
    assert After(acts').tasks == After(acts).tasks - {id};
  }

  /** The newcomer's turn parks on a request, and nothing changed for the others. */
  lemma NewcomerParks(limits: Limits, acts: seq<Act>, other: TaskId) returns (acts': seq<Act>)
    requires Possible(limits, acts) && Vacant(limits, After(acts), other)
    ensures Possible(limits, acts') && acts <= acts' && forall i :: |acts| <= i < |acts'| ==> Plain(acts'[i])
    ensures After(acts').pending.Some? && After(acts').tasks == After(acts).tasks
  {
    acts' := NewcomerReady(limits, acts, other);
    var thread := |After(acts).fates|;
    assert At(After(acts'), other, Ready(thread));
    acts' := TurnParks(limits, acts', other, thread);
  }

  /** Some prompt's turn is under way, or one that waits gets its turn accepted: its thread goes idle first
      if what keeps it busy is nobody's to read. */
  lemma Underway(limits: Limits, start: seq<Act>, id: TaskId) returns (acts: seq<Act>, sent: TaskId)
    requires Possible(limits, start) && Committed(After(start), id) && After(start).pending.None?
    ensures Continues(start, acts) && Possible(limits, acts)
    ensures var w, w' := After(start), After(acts);
            && w' == w.(busy := w'.busy, tasks := w'.tasks) && w'.tasks.Keys == w.tasks.Keys
            && sent in w'.tasks && w'.tasks[sent].Sent? && |w'.tasks| == |w.tasks|
  {
    acts, sent := start, id;
    var pc := After(start).tasks[id];
    if pc.Ready? {
      if other :| other in After(start).tasks && After(start).tasks[other] == Sent(pc.thread) {
        sent := other;
      } else {
        ContinuesSnoc(start, acts, GoIdle(pc.thread));
        acts := Do(limits, acts, GoIdle(pc.thread));
        ContinuesSnoc(start, acts, Accept(id));
        acts := Do(limits, acts, Accept(id));
        UpdateKeepsSize(After(start).tasks, id, Sent(pc.thread));
      }
    }
  }

  /** While another prompt's turn is under way, the newcomer's request is overwritten by that prompt's pump. */
  lemma NewcomerOverwritten(limits: Limits, start: seq<Act>, acts: seq<Act>, id: TaskId, other: TaskId)
    requires Continues(start, acts) && Possible(limits, acts) && Vacant(limits, After(acts), other)
    requires id in After(acts).tasks && After(acts).tasks[id].Sent?
    ensures CanOverwrite(limits, start)
  {
    var parked := NewcomerParks(limits, acts, other);
    ContinuesPlainly(start, acts, parked);
    LastOverwrites(limits, start, parked, id);
  }

  lemma ResetHarms(limits: Limits, acts: seq<Act>, act: Act, id: TaskId, other: TaskId)
    requires Possible(limits, acts + [act]) && IsReset(act) && Committed(After(acts), id)
    requires Vacant(limits, Acted(After(acts), act), other)
    ensures CanOverwrite(limits, acts + [act])
  {
    AfterSnoc(limits, acts, act);
    var more, sent := Underway(limits, acts + [act], id);
    NewcomerOverwritten(limits, acts + [act], more, sent, other);
  }

  /** A reset with no prompt committed leaves a safe state. */
  lemma ResetIsSafe(w: World, act: Act)
    requires Guarded(w) && OneTurnEach(w) && IsReset(act) && NoneCommitted(w)
    ensures Safe(Acted(w, act))
  {
    ResetGuarded(w, act);
    LessIsOneTurnEach(w, Acted(w, act));
  }

  lemma ResetHarmless(limits: Limits, acts: seq<Act>, act: Act)
    requires Guarded(After(acts)) && OneTurnEach(After(acts)) && NeverOverwrites(acts)
    requires IsReset(act) && NoneCommitted(After(acts))
    ensures !CanOverwrite(limits, acts + [act])
  {
    AfterSnoc(limits, acts, act);
    NeverOverwritesSnoc(acts, act);
    ResetIsSafe(After(acts), act);
    SafeCannotOverwrite(limits, acts + [act]);
  }

  /** What a reset leaves is vacant for a newcomer, if a prompt was committed. */
  lemma ResetIsVacant(limits: Limits, w: World, act: Act, id: TaskId, other: TaskId)
    requires LaunchKnown(w) && Guarded(w) && Committed(w, id) && IsReset(act) && HasRoom(limits, Acted(w, act), other)
    ensures Vacant(limits, Acted(w, act), other)
  {
  }

  lemma ResetHarmful(limits: Limits, acts: seq<Act>, act: Act, other: TaskId)
    requires Possible(limits, acts) && Guarded(After(acts)) && IsReset(act) && !NoneCommitted(After(acts))
    requires HasRoom(limits, Acted(After(acts), act), other)
    ensures CanOverwrite(limits, acts + [act])
  {
    var id :| id in After(acts).tasks && Committed(After(acts), id);
    AfterSnoc(limits, acts, act);
    LaunchedFirst(limits, acts);
    ResetIsVacant(limits, After(acts), act, id, other);
    ResetHarms(limits, acts, act, id, other);
  }

  /**
   * On a slot used carefully so far, with turns that ended in order and room for one more prompt, configuring
   * or closing makes it possible for a request to be overwritten exactly if some prompt is between taking its
   * thread and its pump's end.
   */
  lemma ResetHarmsExactly(limits: Limits, acts: seq<Act>, act: Act, other: TaskId)
    requires Possible(limits, acts) && Careful(acts) && Orderly(acts) && IsReset(act)
    requires HasRoom(limits, Acted(After(acts), act), other)
    ensures CanOverwrite(limits, acts + [act]) <==> !NoneCommitted(After(acts))
  {
    CarefulHasOneTurnEach(limits, acts);
    GuardedExactly(limits, acts);
    assert AlwaysGuarded(acts) ==> Guarded(After(acts));
    if NoneCommitted(After(acts)) {
      ResetHarmless(limits, acts, act);
    } else {
      ResetHarmful(limits, acts, act, other);
    }
  }
}

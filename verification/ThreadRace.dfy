/** `ensure_live` under interleaved prompts: what becomes of the threads that are started. */
module ThreadRace {
  import opened Wrappers
  import opened CodexTypes
  import opened PromptInterleaving

  /** Every started thread is held by the one prompt that started it, live, shut down, or let go. */
  predicate ThreadsKnown(w: World) {
    && (w.live.Some? ==> w.live.value < |w.fates| && w.fates[w.live.value] == Live)
    && (forall t :: 0 <= t < |w.fates| && w.fates[t] == Live ==> w.live == Some(t))
    && (forall id :: id in w.tasks && w.tasks[id].Holding? ==>
          w.tasks[id].thread < |w.fates| && w.fates[w.tasks[id].thread] == HeldBy(id))
    && (forall t :: 0 <= t < |w.fates| && w.fates[t].HeldBy? ==> At(w, w.fates[t].task, Holding(t)))
  }

  lemma MoveKeeps(w: World, w': World, id: TaskId)
    requires ThreadsKnown(w) && (id in w.tasks ==> !w.tasks[id].Holding?)
    requires w'.live == w.live && w'.fates == w.fates
    requires forall other :: other != id ==> (other in w'.tasks <==> other in w.tasks)
    requires forall other :: other != id && other in w.tasks ==> w'.tasks[other] == w.tasks[other]
    requires id in w'.tasks ==> !w'.tasks[id].Holding?
    ensures ThreadsKnown(w')
  {
  }

  lemma StartKeeps(w: World, id: TaskId)
    requires ThreadsKnown(w) && At(w, id, Launching)
    ensures ThreadsKnown(Acted(w, StartOk(id))) && Acted(w, StartOk(id)).live == w.live
  {
  }

  lemma CommitKeeps(w: World, id: TaskId)
    requires ThreadsKnown(w) && id in w.tasks && w.tasks[id].Holding?
    ensures ThreadsKnown(Acted(w, Commit(id))) && (w.live.Some? ==> Acted(w, Commit(id)).live == w.live)
  {
  }

  lemma ReleaseKeeps(w: World, fate: Fate)
    requires ThreadsKnown(w) && (fate.ShutDown? || fate.LetGo?)
    ensures ThreadsKnown(Release(w, fate))
  {
  }

  /** A prompt's step that starts no thread and settles none leaves the threads as they are. */
  lemma StepLeavesThreads(limits: Limits, w: World, act: Act)
    requires Enabled(limits, w, act) && IsStep(act) && !act.StartOk? && !act.Commit?
    ensures Acted(w, act).live == w.live && Acted(w, act).fates == w.fates
    ensures act.id in w.tasks ==> !w.tasks[act.id].Holding?
    ensures act.id in Acted(w, act).tasks ==> !Acted(w, act).tasks[act.id].Holding?
  {
  }

  lemma StepThreads(limits: Limits, w: World, act: Act)
    requires ThreadsKnown(w) && Enabled(limits, w, act) && IsStep(act) && !act.StartOk? && !act.Commit?
    ensures ThreadsKnown(Acted(w, act)) && Acted(w, act).live == w.live
  {
    StepMoves(limits, w, act);
    StepLeavesThreads(limits, w, act);
    MoveKeeps(w, Acted(w, act), act.id);
  }

  lemma OtherThreads(limits: Limits, w: World, act: Act)
    requires ThreadsKnown(w) && Enabled(limits, w, act) && !IsStep(act) && !IsReset(act)
    ensures ThreadsKnown(Acted(w, act)) && Acted(w, act).live == w.live
  {
    assert Acted(w, act).tasks == w.tasks && Acted(w, act).fates == w.fates;
  }

  lemma NextThreads(limits: Limits, w: World, act: Act)
    requires ThreadsKnown(w) && Enabled(limits, w, act)
    ensures ThreadsKnown(Acted(w, act))
    ensures !IsReset(act) && w.live.Some? ==> Acted(w, act).live == w.live
  {
    match act
    case StartOk(id) => StartKeeps(w, id);
    case Commit(id) => CommitKeeps(w, id);
    case Configure => ReleaseKeeps(w, LetGo);
    case Close => ReleaseKeeps(w, ShutDown);
    case _ =>
      if IsStep(act) {
        StepThreads(limits, w, act);
      } else {
        OtherThreads(limits, w, act);
      }
  }

  lemma {:induction false} ThreadsAccounted(limits: Limits, acts: seq<Act>)
    requires Possible(limits, acts)
    ensures ThreadsKnown(After(acts))
  {
    if acts == [] {
    } else {
      ThreadsAccounted(limits, acts[..|acts| - 1]);
      NextThreads(limits, After(acts[..|acts| - 1]), acts[|acts| - 1]);
    }
  }

  /** Under every interleaving `ensure_live` never replaces a live thread. */
  lemma LiveIsNotReplaced(limits: Limits, acts: seq<Act>, act: Act)
    requires Possible(limits, acts + [act]) && !IsReset(act)
    ensures After(acts).live.Some? ==> After(acts + [act]).live == After(acts).live
  {
    AfterSnoc(limits, acts, act);
    ThreadsAccounted(limits, acts);
    NextThreads(limits, After(acts), act);
  }

  /** The slot is not configured or closed once a thread was started. */
  predicate Undisturbed(acts: seq<Act>) {
    acts == [] ||
    (Undisturbed(acts[..|acts| - 1]) && (IsReset(acts[|acts| - 1]) ==> After(acts[..|acts| - 1]).fates == []))
  }

  /** No thread was let go, and if any was shut down another is live. */
  predicate OneWins(w: World) {
    && (forall t :: 0 <= t < |w.fates| ==> !w.fates[t].LetGo?)
    && (forall t :: 0 <= t < |w.fates| && w.fates[t].ShutDown? ==> w.live.Some?)
  }

  lemma {:induction false} UndisturbedOneWins(limits: Limits, acts: seq<Act>)
    requires Possible(limits, acts) && Undisturbed(acts)
    ensures OneWins(After(acts))
  {
    if acts == [] {
    } else {
      UndisturbedOneWins(limits, acts[..|acts| - 1]);
      ThreadsAccounted(limits, acts[..|acts| - 1]);
      OneWinsNext(limits, After(acts[..|acts| - 1]), acts[|acts| - 1]);
    }
  }

  lemma OneWinsNext(limits: Limits, w: World, act: Act)
    requires OneWins(w) && ThreadsKnown(w) && Enabled(limits, w, act) && (IsReset(act) ==> w.fates == [])
    ensures OneWins(Acted(w, act))
  {
  }

  /** Once all prompts that raced to start a thread are through, exactly one of the started threads is
      live, and every other one was shut down. */
  lemma ExactlyOneThreadWins(limits: Limits, acts: seq<Act>)
    requires Possible(limits, acts) && Undisturbed(acts)
    requires After(acts).tasks == map[] && After(acts).fates != []
    ensures var w := After(acts);
            && w.live.Some? && w.live.value < |w.fates|
            && forall t :: 0 <= t < |w.fates| ==> w.fates[t] == if t == w.live.value then Live else ShutDown
  {
    ThreadsAccounted(limits, acts);
    UndisturbedOneWins(limits, acts);
    var w := After(acts);
    assert w.fates[0] == Live || w.fates[0] == ShutDown;
  }

  /** The threads in use are threads that were started. */
  ghost predicate InUse(w: World) {
    && (forall t :: t in w.busy ==> t < |w.fates|)
    && (forall id :: Committed(w, id) ==> w.tasks[id].thread < |w.fates|)
  }

  lemma {:induction false} ThreadsInUse(limits: Limits, acts: seq<Act>)
    requires Possible(limits, acts)
    ensures InUse(After(acts))
  {
    if acts == [] {
      assert InUse(START);
    } else {
      ThreadsInUse(limits, acts[..|acts| - 1]);
      ThreadsAccounted(limits, acts[..|acts| - 1]);
      NextInUse(limits, After(acts[..|acts| - 1]), acts[|acts| - 1]);
    }
  }

  lemma NextInUse(limits: Limits, w: World, act: Act)
    requires InUse(w) && ThreadsKnown(w) && Enabled(limits, w, act)
    ensures InUse(Acted(w, act))
  {
    var w' := Acted(w, act);
    if IsStep(act) {
      StepMoves(limits, w, act);
      StepCommits(limits, w, act);
      assert forall id :: Committed(w', id) && id != act.id ==> Committed(w, id) && w.tasks[id] == w'.tasks[id];
    } else {
      assert w'.tasks == w.tasks && w'.busy <= w.busy && |w'.fates| == |w.fates|;
      assert forall id :: Committed(w', id) ==> Committed(w, id);
    }
  }
}

/** Schedules built act by act: the steps that more than one construction takes. */
module PromptSchedules {
  import opened Wrappers
  import opened CodexTypes
  import opened PromptInterleaving

  lemma Do(limits: Limits, acts: seq<Act>, act: Act) returns (acts': seq<Act>)
    requires Possible(limits, acts) && Enabled(limits, After(acts), act)
    ensures acts' == acts + [act]
    ensures Possible(limits, acts') && After(acts') == Acted(After(acts), act)
  {
    acts' := acts + [act];
    AfterSnoc(limits, acts, act);
  }

  lemma LookInVain(limits: Limits, acts: seq<Act>, id: TaskId) returns (acts': seq<Act>)
    requires Possible(limits, acts)
    requires var w := After(acts);
             w.live.None? && w.pending.None? && w.turns < limits.maxTurns && id !in w.tasks && |w.tasks| < limits.sessions
    ensures acts' == acts + [Enter(id), Look(id)] && Possible(limits, acts')
    ensures After(acts') == After(acts).(tasks := After(acts).tasks[id := SawNone])
  {
    acts' := Do(limits, acts, Enter(id));
    acts' := Do(limits, acts', Look(id));
    assert After(acts').tasks == After(acts).tasks[id := SawNone];
  }

  /** With no thread live a prompt starts one. */
  lemma StartThread(limits: Limits, acts: seq<Act>, id: TaskId) returns (acts': seq<Act>)
    requires Possible(limits, acts)
    requires var w := After(acts);
             && w.launched && w.live.None? && w.pending.None? && w.turns < limits.maxTurns
             && id !in w.tasks && |w.tasks| < limits.sessions
    ensures Possible(limits, acts') && |acts'| == |acts| + 4 && acts'[..|acts|] == acts
    ensures forall i :: |acts| <= i < |acts'| ==> Plain(acts'[i])
    ensures var w := After(acts);
            After(acts') == w.(tasks := w.tasks[id := Holding(|w.fates|)], fates := w.fates + [HeldBy(id)])
  {
    acts' := LookInVain(limits, acts, id);
    acts' := Do(limits, acts', ReadLaunch(id));
    acts' := Do(limits, acts', StartOk(id));
    var w := After(acts);
    assert After(acts').tasks == w.tasks[id := Holding(|w.fates|)];
  }

  /** The thread it started becomes the live one, and the prompt takes it. */
  lemma Take(limits: Limits, acts: seq<Act>, id: TaskId, thread: ThreadId) returns (acts': seq<Act>)
    requires Possible(limits, acts) && After(acts).live.None?
    requires At(After(acts), id, Holding(thread)) && thread < |After(acts).fates|
    ensures acts' == acts + [Commit(id), TakeThread(id)] && Possible(limits, acts')
    ensures var w := After(acts);
            After(acts') == w.(live := Some(thread), tasks := w.tasks[id := Ready(thread)], fates := w.fates[thread := Live])
  {
    acts' := Do(limits, acts, Commit(id));
    acts' := Do(limits, acts', TakeThread(id));
    var w := After(acts);
    assert After(acts').tasks == w.tasks[id := Ready(thread)];
  }
}

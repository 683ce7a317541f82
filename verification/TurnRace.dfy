/** The turn limit under interleaved prompts: checked under one hold of the lock, counted under a later one. */
module TurnRace {
  import opened Wrappers
  import opened CodexTypes
  import opened CodexSpec
  import opened PromptInterleaving
  import opened PromptSchedules

  predicate TurnsWithin(limits: Limits, w: World) {
    && |w.tasks| <= limits.sessions
    && (w.tasks != map[] ==> limits.maxTurns > 0)
    && w.turns + |w.tasks| < limits.maxTurns + limits.sessions
  }

  lemma StepTurns(limits: Limits, w: World, act: Act)
    requires Enabled(limits, w, act) && IsStep(act)
    ensures Acted(w, act).turns == if act.RunTurn? then SaturatingSucc(w.turns) else w.turns
    ensures act.RunTurn? ==> Acted(w, act).tasks == w.tasks - {act.id}
  {
  }

  lemma NextWithin(limits: Limits, w: World, act: Act)
    requires limits.sessions > 0 && TurnsWithin(limits, w) && Enabled(limits, w, act)
    ensures TurnsWithin(limits, Acted(w, act))
  {
    if IsStep(act) {
      var tasks := Acted(w, act).tasks;
      StepMoves(limits, w, act);
      StepTurns(limits, w, act);
      RemovalShrinks(w, act.id);
      if act.id in tasks {
        UpdateKeepsSize(w.tasks, act.id, tasks[act.id]);
      }
    }
  }

  /** With up to `sessions` prompts interleaved, the counter exceeds the limit by less than that many. */
  lemma {:induction false} TurnsOvershootBounded(limits: Limits, acts: seq<Act>)
    requires limits.sessions > 0 && Possible(limits, acts)
    ensures TurnsWithin(limits, After(acts))
    ensures After(acts).turns <= limits.maxTurns + limits.sessions - 1
  {
    if acts == [] {
    } else {
      TurnsOvershootBounded(limits, acts[..|acts| - 1]);
      NextWithin(limits, After(acts[..|acts| - 1]), acts[|acts| - 1]);
    }
  }

  /** Prompts 0 to `k - 1`, each past the check of the limit. */
  function Flock(k: nat): (tasks: map<TaskId, Pc>)
    ensures |tasks| == k
    ensures forall id :: id in tasks <==> 0 <= id < k
  {
    if k == 0 then map[] else Flock(k - 1)[k - 1 := Admitted]
  }

  /** A schedule with `n` turns spent, thread 0 live and idle, and prompts 0 to `k - 1` past the check. */
  predicate Poised(limits: Limits, acts: seq<Act>, n: nat, k: nat) {
    && Possible(limits, acts)
    && var w := After(acts);
       && w.launched && w.live == Some(0) && w.pending.None? && w.turns == n && w.busy == {}
       && w.tasks == Flock(k)
  }

  lemma Opening(limits: Limits) returns (acts: seq<Act>)
    requires limits.sessions > 0 && limits.maxTurns > 0
    ensures Poised(limits, acts, 0, 0)
  {
    acts := [];
    acts := Do(limits, acts, Configure);
    acts := StartThread(limits, acts, 0);
    acts := Take(limits, acts, 0, 0);
    acts := Do(limits, acts, Reject(0));
    assert After(acts).tasks == Flock(0);
  }

  /** One more prompt passes the check. */
  lemma Admit(limits: Limits, acts: seq<Act>, n: nat, k: nat) returns (acts': seq<Act>)
    requires Poised(limits, acts, n, k) && k < limits.sessions && n < limits.maxTurns
    ensures Poised(limits, acts', n, k + 1)
  {
    acts' := Do(limits, acts, Enter(k));
  }

  /** A prompt past the check gets its turn accepted by the idle thread. */
  lemma Submit(limits: Limits, acts: seq<Act>, n: nat, k: nat) returns (acts': seq<Act>)
    requires Poised(limits, acts, n, k) && k > 0
    ensures Possible(limits, acts')
    ensures After(acts') == After(acts).(tasks := Flock(k)[k - 1 := Sent(0)], busy := {0})
  {
    acts' := Do(limits, acts, Look(k - 1));
    acts' := Do(limits, acts', TakeThread(k - 1));
    acts' := Do(limits, acts', Accept(k - 1));
    assert After(acts').tasks == Flock(k)[k - 1 := Sent(0)];
  }

  /** The last of the prompts past the check runs its turn from beginning to end. */
  lemma Land(limits: Limits, acts: seq<Act>, n: nat, k: nat) returns (acts': seq<Act>)
    requires Poised(limits, acts, n, k) && k > 0 && n < U32_MAX
    ensures Poised(limits, acts', n + 1, k - 1)
  {
    acts' := Submit(limits, acts, n, k);
    acts' := Do(limits, acts', RunTurn(k - 1, Over));
    assert After(acts').tasks == Flock(k - 1);
  }

  lemma Spend(limits: Limits, n: nat) returns (acts: seq<Act>)
    requires limits.sessions > 0 && n < limits.maxTurns
    ensures Poised(limits, acts, n, 0)
  {
    if n == 0 {
      acts := Opening(limits);
    } else {
      acts := Spend(limits, n - 1);
      acts := Admit(limits, acts, n - 1, 0);
      acts := Land(limits, acts, n - 1, 1);
    }
  }

  lemma Fill(limits: Limits, k: nat) returns (acts: seq<Act>)
    requires limits.maxTurns > 0 && 0 < limits.sessions && k <= limits.sessions
    ensures Poised(limits, acts, limits.maxTurns - 1, k)
  {
    if k == 0 {
      acts := Spend(limits, limits.maxTurns - 1);
    } else {
      acts := Fill(limits, k - 1);
      acts := Admit(limits, acts, limits.maxTurns - 1, k - 1);
    }
  }

  lemma Drain(limits: Limits, acts: seq<Act>, n: nat, k: nat) returns (acts': seq<Act>)
    requires Poised(limits, acts, n, k) && n + k <= U32_MAX
    ensures Poised(limits, acts', n + k, 0)
    decreases k
  {
    if k == 0 {
      acts' := acts;
    } else {
      acts' := Land(limits, acts, n, k);
      acts' := Drain(limits, acts', n + 1, k - 1);
    }
  }

  /** The bound is attained: with one turn left all sessions pass the check, and then each runs its turn on
      the idle thread, one after the other. */
  lemma TurnsOvershootAttained(limits: Limits) returns (acts: seq<Act>)
    requires limits.sessions > 0 && limits.maxTurns > 0 && limits.maxTurns + limits.sessions - 1 <= U32_MAX
    ensures Possible(limits, acts)
    ensures After(acts).turns == limits.maxTurns + limits.sessions - 1
  {
    acts := Fill(limits, limits.sessions);
    acts := Drain(limits, acts, limits.maxTurns - 1, limits.sessions);
  }
}

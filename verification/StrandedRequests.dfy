/** When an outstanding request has a live thread to be answered on, and what becomes of one that has none. */
module StrandedRequests {
  import opened Wrappers
  import opened CodexTypes
  import opened CodexSpec
  import opened CodexGate
  import opened PromptInterleaving
  import opened PromptSchedules
  import opened TurnRace

  predicate NoneCommitted(w: World) {
    forall id :: id in w.tasks ==> !Committed(w, id)
  }

  /** The slot is configured or closed only while no prompt is between taking its thread and its pump's end. */
  predicate Careful(acts: seq<Act>) {
    acts == [] ||
    (Careful(acts[..|acts| - 1]) && (IsReset(acts[|acts| - 1]) ==> NoneCommitted(After(acts[..|acts| - 1]))))
  }

  /** What is outstanding, or about to be, has a live thread to be answered on. */
  ghost predicate Answerable(w: World) {
    && (w.pending.Some? ==> w.live.Some?)
    && (forall id :: Committed(w, id) ==> w.live.Some?)
  }

  /** Moreover that thread is the one the request comes from, or will come from. */
  ghost predicate Guarded(w: World) {
    && (w.pending.Some? ==> w.live == Some(w.pending.value.thread))
    && (forall id :: Committed(w, id) ==> w.live == Some(w.tasks[id].thread))
  }

  ghost predicate AlwaysAnswerable(acts: seq<Act>) {
    Answerable(After(acts)) && (acts != [] ==> AlwaysAnswerable(acts[..|acts| - 1]))
  }

  ghost predicate AlwaysGuarded(acts: seq<Act>) {
    Guarded(After(acts)) && (acts != [] ==> AlwaysGuarded(acts[..|acts| - 1]))
  }

  lemma StepLeavesRequest(limits: Limits, w: World, act: Act)
    requires Enabled(limits, w, act) && IsStep(act)
    ensures w.live.Some? ==> Acted(w, act).live == w.live
    ensures Acted(w, act).pending == w.pending
            || (Committed(w, act.id) && Acted(w, act).pending.Some? && Acted(w, act).pending.value.thread == w.tasks[act.id].thread)
  {
  }

  lemma NextGuarded(limits: Limits, w: World, act: Act)
    requires Guarded(w) && Enabled(limits, w, act) && !IsReset(act)
    ensures Guarded(Acted(w, act))
  {
    var w' := Acted(w, act);
    if IsStep(act) {
      StepMoves(limits, w, act);
      StepCommits(limits, w, act);
      StepLeavesRequest(limits, w, act);
      assert forall id :: Committed(w', id) && id != act.id ==> Committed(w, id) && w.tasks[id] == w'.tasks[id];
    } else {
      assert w'.tasks == w.tasks && w'.live == w.live;
      assert forall id :: Committed(w', id) ==> Committed(w, id);
    }
  }

  /** A reset leaves the guard standing only without a committed prompt. */
  lemma ResetGuarded(w: World, act: Act)
    requires Guarded(w) && IsReset(act)
    ensures NoneCommitted(w) ==> Guarded(Acted(w, act)) && Answerable(Acted(w, act))
    ensures !NoneCommitted(w) ==> !Guarded(Acted(w, act)) && !Answerable(Acted(w, act))
  {
    assert Acted(w, act).tasks == w.tasks;
    if !NoneCommitted(w) {
      var id :| id in w.tasks && Committed(w, id);
      assert Committed(Acted(w, act), id);
    }
  }

  /**
   * Exactly the careful schedules keep every outstanding or coming request on the live thread at all times,
   * and exactly they keep some thread live for it.
   */
  lemma {:induction false} GuardedExactly(limits: Limits, acts: seq<Act>)
    requires Possible(limits, acts)
    ensures AlwaysGuarded(acts) <==> Careful(acts)
    ensures AlwaysAnswerable(acts) <==> Careful(acts)
  {
    if acts == [] {
      assert Guarded(START) && Answerable(START);
    } else {
      var init, act := acts[..|acts| - 1], acts[|acts| - 1];
      GuardedExactly(limits, init);
      if Careful(init) {
        if IsReset(act) {
          ResetGuarded(After(init), act);
        } else {
          NextGuarded(limits, After(init), act);
        }
      }
    }
  }

  /** A careless schedule: the slot is configured anew between a prompt's submission and its pump, and a
      request is left outstanding with no thread live. */
  lemma RequestCanBeStranded(limits: Limits) returns (acts: seq<Act>)
    requires limits.sessions > 0 && limits.maxTurns > 0
    ensures Possible(limits, acts) && After(acts).pending.Some? && After(acts).live.None?
  {
    acts := Opening(limits);
    acts := Admit(limits, acts, 0, 0);
    acts := Submit(limits, acts, 0, 1);
    acts := Do(limits, acts, Configure);
    acts := Do(limits, acts, RunTurn(0, Parked("a")));
  }

  predicate NoResets(acts: seq<Act>) {
    forall i :: 0 <= i < |acts| ==> !IsReset(acts[i])
  }

  /** The outstanding request is not the live thread's. */
  predicate Strayed(w: World) {
    w.pending.Some? && w.live != Some(w.pending.value.thread)
  }

  /** Without a further reset a request comes to be outstanding off the live thread. */
  ghost predicate CanStray(limits: Limits, start: seq<Act>) {
    exists more :: NoResets(more) && Possible(limits, start + more) && Strayed(After(start + more))
  }

  lemma {:induction false} CarefulOn(limits: Limits, start: seq<Act>, more: seq<Act>)
    requires Careful(start) && NoResets(more)
    ensures Careful(start + more)
    decreases |more|
  {
    if more == [] {
      assert start + more == start;
    } else {
      CarefulOn(limits, start, more[..|more| - 1]);
      assert (start + more)[..|start + more| - 1] == start + more[..|more| - 1];
    }
  }

  lemma CarefulSnoc(acts: seq<Act>, act: Act)
    ensures Careful(acts + [act]) <==> Careful(acts) && (IsReset(act) ==> NoneCommitted(After(acts)))
  {
    assert (acts + [act])[..|acts|] == acts;
  }

  /** With no thread live a committed prompt can still park a request of the thread it took. */
  lemma CommittedStrays(limits: Limits, start: seq<Act>, id: TaskId) returns (more: seq<Act>)
    requires Possible(limits, start) && After(start).live.None? && Committed(After(start), id)
    ensures NoResets(more) && Possible(limits, start + more) && Strayed(After(start + more))
  {
    var acts, thread := start, After(start).tasks[id].thread;
    more := [];
    if After(start).tasks[id].Ready? {
      acts := Do(limits, acts, GoIdle(thread));
      acts := Do(limits, acts, Accept(id));
      more := [GoIdle(thread), Accept(id)];
    }
    acts := Do(limits, acts, RunTurn(id, Parked("a")));
    more := more + [RunTurn(id, Parked("a"))];
    assert start + more == acts;
  }

  /** On a slot used carefully so far, a reset makes it possible for a request to be outstanding off the live
      thread exactly if some prompt is between taking its thread and its pump's end. */
  lemma ResetStraysExactly(limits: Limits, acts: seq<Act>, act: Act)
    requires Possible(limits, acts) && Careful(acts) && IsReset(act)
    ensures CanStray(limits, acts + [act]) <==> !NoneCommitted(After(acts))
  {
    AfterSnoc(limits, acts, act);
    CarefulSnoc(acts, act);
    if NoneCommitted(After(acts)) {
      forall more | NoResets(more) && Possible(limits, acts + [act] + more)
        ensures !Strayed(After(acts + [act] + more))
      {
        CarefulOn(limits, acts + [act], more);
        GuardedExactly(limits, acts + [act] + more);
      }
    } else {
      var id :| id in After(acts).tasks && Committed(After(acts), id);
      var more := CommittedStrays(limits, acts + [act], id);
    }
  }

  /** And then the call meant for the request loses it: a completion or permission reply takes the request
      out of the slot without answering it exactly when no thread is live, unless it merely confirms. */
  lemma StrandedRequestIsLostExactly(cfg: Config, s: Session, call: Call)
    requires (call.CompleteTool? || call.Respond?) && MeantFor(s.slot, call)
    ensures Step(cfg, s, call).session == DropPending(s) <==>
            s.slot.live.None? && !(s.slot.pending.value.Confirm? && IsAllow(call.permission))
  {
    assert DropPending(s).log[|s.log|] == Discarded;
    if s.slot.live.Some? {
      match s.slot.pending.value
      case Execute(id, name, _) =>
        var ok := cfg.outputOk(call.output);
        AnswerExtends(cfg, s, s.slot.sendOk || (name == "send_message" && ok), Result(name),
                      DynamicToolResponse(call.callId, call.output, ok), call.delivered, call.now, call.feed);
      case Confirm(id, _, _, _) =>
        AnswerExtends(cfg, s, s.slot.sendOk, Refusal, DynamicToolResponse(id, "denied by user", false), call.delivered, call.now, call.feed);
      case Exec(id, turnId, _, _, _) =>
        AnswerExtends(cfg, s, s.slot.sendOk, Verdict(call.permission), ExecApproval(id, turnId, Review(call.permission)),
                      call.delivered, call.now, call.feed);
      case Patch(id, _, _, _) =>
        AnswerExtends(cfg, s, s.slot.sendOk, Verdict(call.permission), PatchApproval(id, Review(call.permission)),
                      call.delivered, call.now, call.feed);
    }
  }
}

/** When a prompt starts a turn and when a thread is live, over whole runs. */
module CodexStarts {
  import opened HostTypes
  import opened Wrappers
  import opened CodexTypes
  import opened CodexSpec
  import opened CodexRuns
  import opened CodexGate
  import opened CodexAnswers

  // ---------------------------------------------------------------- prompts

  /** Nothing is outstanding and a turn is left: fewer were started since the last configuration than the limit. */
  predicate HasTurnLeft(cfg: Config, s: Session) {
    s.slot.pending.None? && (cfg.maxTurns.None? || TurnsSpent(s.log) < cfg.maxTurns.value)
  }

  /** The thread a prompt runs on: the live one, or else the one it starts for the launch configured. */
  predicate FindsThread(s: Session, world: PromptWorld, thread: ThreadId) {
    s.slot.live == Some(thread) || (s.slot.live.None? && s.slot.launch.Some? && world.start == Started(thread))
  }

  predicate Starts(cfg: Config, s: Session, world: PromptWorld) {
    && HasTurnLeft(cfg, s) && !world.cancelled && world.submission.Submitted?
    && (s.slot.live.Some? || (s.slot.launch.Some? && world.start.Started?))
  }

  /** The slot as a turn finds it: one more turn is counted, nothing is sent yet, and the hard deadline is new. */
  predicate Entered(cfg: Config, s: Session, world: PromptWorld, t: Session) {
    && t.log == s.log + [TurnStarted(world.now)]
    && t.slot.launch == s.slot.launch && t.slot.pending.None? && !t.slot.sendOk
    && t.slot.live.Some? && FindsThread(s, world, t.slot.live.value)
    && (cfg.maxTurns.Some? ==> t.slot.turns == s.slot.turns + 1)
    && (cfg.hard.None? ==> t.slot.hardDeadline == None)
    && (cfg.hard.Some? ==> t.slot.hardDeadline == Some(world.now + cfg.hard.value))
  }

  /** A prompt that starts no turn leaves everything but a thread it started, and only a cancelled one is no failure. */
  predicate LeftAlone(cfg: Config, s: Session, world: PromptWorld, o: Outcome) {
    && o.session.log == s.log && o.session.slot == s.slot.(live := o.session.slot.live)
    && (o.session.slot.live == s.slot.live
        || (HasTurnLeft(cfg, s) && o.session.slot.live.Some? && FindsThread(s, world, o.session.slot.live.value)))
    && (o.reply.Fail? || o.reply == Done(Cancelled))
    && (o.reply == Done(Cancelled) <==>
          && HasTurnLeft(cfg, s) && (s.slot.live.Some? || (s.slot.launch.Some? && world.start.Started?))
          && (world.cancelled || world.submission.SubmitCancelled?))
  }

  lemma TurnLeftExactly(cfg: Config, s: Session)
    requires Inv(cfg, s)
    ensures MayStart(cfg, s.slot) <==> HasTurnLeft(cfg, s)
  {
  }

  lemma StartedTurnEnters(cfg: Config, s: Session, world: PromptWorld)
    requires Inv(cfg, s) && Starts(cfg, s, world)
    ensures var t := StartTurn(cfg, s.(slot := EnsureLiveSpec(s.slot, world.start).0), world.now);
            Entered(cfg, s, world, t) && PromptSpec(cfg, s, world) == PumpSession(cfg, t, world.now, world.feed)
  {
  }

  lemma PumpExtends(cfg: Config, t: Session, now: Instant, feed: seq<Wake>)
    ensures t.log <= PumpSession(cfg, t, now, feed).session.log
  {
    PumpPumps(cfg, t.slot.hardDeadline, Armed(cfg, t, now), feed);
  }

  lemma UnreadyIsLeftAlone(cfg: Config, s: Session, world: PromptWorld)
    requires Inv(cfg, s) && !HasTurnLeft(cfg, s)
    ensures LeftAlone(cfg, s, world, PromptSpec(cfg, s, world))
  {
    TurnLeftExactly(cfg, s);
  }

  lemma RefusedIsLeftAlone(cfg: Config, s: Session, world: PromptWorld)
    requires Inv(cfg, s) && !Starts(cfg, s, world)
    ensures LeftAlone(cfg, s, world, PromptSpec(cfg, s, world))
  {
    if HasTurnLeft(cfg, s) {
      TurnLeftExactly(cfg, s);
      var t := s.(slot := EnsureLiveSpec(s.slot, world.start).0);
      assert s.slot.live.Some? ==> t.slot == s.slot;
    } else {
      UnreadyIsLeftAlone(cfg, s, world);
    }
  }

  /**
   * A prompt starts a turn exactly if nothing is outstanding, a turn is left, a thread is live or can be
   * started, and its input is submitted before it is cancelled. The turn then runs on that thread; otherwise
   * no more than a thread it started is left of the prompt.
   */
  lemma PromptStartsExactly(cfg: Config, calls: seq<Call>, world: PromptWorld) returns (t: Session)
    ensures var s, o := Run(cfg, calls), Step(cfg, Run(cfg, calls), Call.Prompt(world));
            && (s.log + [TurnStarted(world.now)] <= o.session.log <==> Starts(cfg, s, world))
            && if Starts(cfg, s, world) then Entered(cfg, s, world, t) && o == PumpSession(cfg, t, world.now, world.feed)
               else LeftAlone(cfg, s, world, o)
  {
    RunKeeps(cfg, calls);
    var s := Run(cfg, calls);
    t := StartTurn(cfg, s.(slot := EnsureLiveSpec(s.slot, world.start).0), world.now);
    if Starts(cfg, s, world) {
      StartedTurnEnters(cfg, s, world);
      PumpExtends(cfg, t, world.now, world.feed);
    } else {
      RefusedIsLeftAlone(cfg, s, world);
    }
  }

  /** Options the checks of `use_codex` accept. */
  predicate Accepted(launch: Launch) {
    !launch.apiKeyBlank && launch.helperUsable && launch.sandboxUsable && launch.homeCreated
  }

  const LAUNCH := Launch(false, true, true, true)

  /** A prompt whose turn completes at once. */
  const QUICK := Call.Prompt(PromptWorld(Started(0), false, Submitted, 0, [Event(0, TurnComplete(None, None), true, 0)]))

  lemma QuickTurn(cfg: Config, t: Session)
    requires t.slot.pending.None?
    ensures var o := PumpSession(cfg, t, 0, QUICK.world.feed);
            o.session.log == t.log + [Ended(true)] && o.session.slot.pending.None? && o.session.slot.live == t.slot.live
  {
    var p := Armed(cfg, t, 0);
    var w := QUICK.world.feed[0];
    assert Iterate(cfg, t.slot.hardDeadline, p, w).Stop?;
    assert Pump(cfg, t.slot.hardDeadline, p, QUICK.world.feed) == Iterate(cfg, t.slot.hardDeadline, p, w);
  }

  /** One more prompt, while a turn is left. */
  lemma OneMoreTurn(cfg: Config, calls: seq<Call>)
    requires HasTurnLeft(cfg, Run(cfg, calls)) && Run(cfg, calls).slot.launch.Some?
    ensures var s, t := Run(cfg, calls), Run(cfg, calls + [QUICK]);
            t.slot.pending.None? && t.slot.launch == s.slot.launch && TurnsSpent(t.log) == TurnsSpent(s.log) + 1
  {
    var s := Run(cfg, calls);
    assert (calls + [QUICK])[..|calls|] == calls;
    var t := PromptStartsExactly(cfg, calls, QUICK.world);
    QuickTurn(cfg, t);
    TurnsSpentSnoc(s.log, TurnStarted(0));
    TurnsSpentSnoc(t.log, Ended(true));
  }

  lemma JustConfigured(cfg: Config)
    ensures Run(cfg, [UseCodex(LAUNCH)]) == Session(Slot(Some(LAUNCH), None, None, 0, None, false), [Configured])
  {
    assert [UseCodex(LAUNCH)][..0] == [];
    assert Run(cfg, []) == FRESH;
  }

  /** The limit is reached: any number of turns up to it is spent by some run. */
  lemma {:induction false} TurnsAttained(cfg: Config, n: nat) returns (calls: seq<Call>)
    requires cfg.maxTurns.Some? ==> n <= cfg.maxTurns.value
    ensures var s := Run(cfg, calls);
            TurnsSpent(s.log) == n && s.slot.pending.None? && s.slot.launch.Some?
  {
    if n == 0 {
      calls := [UseCodex(LAUNCH)];
      JustConfigured(cfg);
    } else {
      var before := TurnsAttained(cfg, n - 1);
      OneMoreTurn(cfg, before);
      calls := before + [QUICK];
    }
  }

  // ---------------------------------------------------------------- resets

  /** Configuring succeeds exactly with usable options; the slot then has those, and neither thread nor request
      nor turns of its former life. */
  lemma ConfiguredExactly(cfg: Config, calls: seq<Call>, launch: Launch)
    ensures var s, o := Run(cfg, calls), Step(cfg, Run(cfg, calls), UseCodex(launch));
            && (o.reply == Ack <==> Accepted(launch))
            && (o.reply != Ack ==> o.reply.Fail? && o.session == s)
            && (o.reply == Ack ==>
                  && o.session.slot.launch == Some(launch) && o.session.slot.live.None? && o.session.slot.pending.None?
                  && o.session.slot.turns == 0 && TurnsSpent(o.session.log) == 0 && !o.session.slot.sendOk)
  {
    if Accepted(launch) {
      TurnsSpentSnoc(DropPending(Run(cfg, calls)).log, Configured);
    }
  }

  /** Closing leaves neither thread nor request; options and turns stay. */
  lemma ClosedExactly(cfg: Config, calls: seq<Call>)
    ensures var s, o := Run(cfg, calls), Step(cfg, Run(cfg, calls), Shutdown);
            o.reply == Ack && o.session.slot == s.slot.(live := None, pending := None)
  {
  }

  /** The call lets go of whatever thread is live. */
  predicate Resets(call: Call) {
    call.Shutdown? || (call.UseCodex? && Accepted(call.launch))
  }

  /** Thread `t` was started by the prompt at `k`, when none was live, and nothing was reset since. */
  predicate StartedAt(cfg: Config, calls: seq<Call>, thread: ThreadId, k: nat) {
    && k < |calls| && calls[k].Prompt? && calls[k].world.start == Started(thread) && Run(cfg, calls[..k]).slot.live.None?
    && forall j :: k < j < |calls| ==> !Resets(calls[j])
  }

  /** What a step does to the live thread. */
  lemma StepThread(cfg: Config, s: Session, call: Call)
    ensures var t := Step(cfg, s, call).session;
            && (Resets(call) ==> t.slot.live.None?)
            && (!Resets(call) && s.slot.live.Some? ==> t.slot.live == s.slot.live)
            && (!Resets(call) && s.slot.live.None? && t.slot.live.Some? ==> call.Prompt? && call.world.start == Started(t.slot.live.value))
  {
  }

  lemma StillStarted(cfg: Config, init: seq<Call>, last: Call, thread: ThreadId, k: nat)
    requires StartedAt(cfg, init, thread, k) && !Resets(last)
    ensures StartedAt(cfg, init + [last], thread, k)
  {
    assert (init + [last])[..k] == init[..k];
  }

  lemma JustStarted(cfg: Config, init: seq<Call>, last: Call, thread: ThreadId)
    requires Run(cfg, init).slot.live.None? && last.Prompt? && last.world.start == Started(thread)
    ensures StartedAt(cfg, init + [last], thread, |init|)
  {
    assert (init + [last])[..|init|] == init;
  }

  /** A live thread was started by a prompt since the slot was last configured or closed: no turn behind a reset
      runs on a thread from before it. */
  lemma {:induction false} LiveIsStartedSince(cfg: Config, calls: seq<Call>) returns (k: nat)
    requires Run(cfg, calls).slot.live.Some?
    ensures StartedAt(cfg, calls, Run(cfg, calls).slot.live.value, k)
  {
    var init, last := calls[..|calls| - 1], calls[|calls| - 1];
    var thread := Run(cfg, calls).slot.live.value;
    StepThread(cfg, Run(cfg, init), last);
    assert calls == init + [last];
    if Run(cfg, init).slot.live.Some? {
      k := LiveIsStartedSince(cfg, init);
      StillStarted(cfg, init, last, thread, k);
    } else {
      k := |init|;
      JustStarted(cfg, init, last, thread);
    }
  }

  /** The options in use are those of the last configuration that was accepted. */
  predicate LastAccepted(calls: seq<Call>, launch: Launch, k: nat) {
    && k < |calls| && calls[k] == UseCodex(launch) && Accepted(launch)
    && forall j :: k < j < |calls| && calls[j].UseCodex? ==> !Accepted(calls[j].launch)
  }

  lemma StepLaunch(cfg: Config, s: Session, call: Call)
    ensures var t := Step(cfg, s, call).session;
            t.slot.launch == if call.UseCodex? && Accepted(call.launch) then Some(call.launch) else s.slot.launch
  {
  }

  lemma {:induction false} LaunchIsLastAccepted(cfg: Config, calls: seq<Call>) returns (k: nat)
    ensures var launch := Run(cfg, calls).slot.launch;
            if launch.Some? then LastAccepted(calls, launch.value, k)
            else forall j :: 0 <= j < |calls| && calls[j].UseCodex? ==> !Accepted(calls[j].launch)
  {
    k := 0;
    if calls == [] {
    } else {
      var init, last := calls[..|calls| - 1], calls[|calls| - 1];
      StepLaunch(cfg, Run(cfg, init), last);
      k := LaunchIsLastAccepted(cfg, init);
      if last.UseCodex? && Accepted(last.launch) {
        k := |calls| - 1;
      }
    }
  }
}

/** Prompts of several sessions on one host, interleaved at every release of the slot's lock. Inside
    `codex_prompt` the turn limit is checked under one hold of the lock and the counter raised under a
    later one, and `ensure_live` looks for a live thread, starts one without the lock, and looks again. */
module PromptInterleaving {
  import opened Wrappers
  import opened CodexTypes
  import opened CodexSpec

  type TaskId = nat

  /** How far a prompt has got, between two holds of the lock. */
  datatype Pc =
    | Admitted
    | SawNone
    | Launching
    | Holding(thread: ThreadId)
    | Ensured
    | Ready(thread: ThreadId)
    | Sent(thread: ThreadId)

  /** What became of a started thread. */
  datatype Fate = HeldBy(task: TaskId) | Live | ShutDown | LetGo

  /** A request the slot holds: the thread that made it, and which call it is for. */
  datatype Request = Request(thread: ThreadId, callId: string)

  /** How a pump leaves its thread's turn: over, parked on a request, or running on without it. */
  datatype Ending = Over | Parked(callId: string) | Left

  /** `busy` holds the threads with a turn under way. */
  datatype World = World(
    launched: bool,
    live: Option<ThreadId>,
    pending: Option<Request>,
    turns: u32,
    busy: set<ThreadId>,
    tasks: map<TaskId, Pc>,
    fates: seq<Fate>)

  /** `maxTurns` turns at most; at most `sessions` prompts in flight, one for each session of the host. */
  datatype Limits = Limits(maxTurns: u32, sessions: nat)

  /** `Reject` is a prompt that gives up: cancelled, or its turn not submitted. `Resolve` answers the
      outstanding request on the live thread and pumps it, `Drop` takes the request out without a pump.
      `GoIdle` is a thread whose turn comes to its end while nobody pumps it. */
  datatype Act =
    | Enter(id: TaskId)
    | Look(id: TaskId)
    | ReadLaunch(id: TaskId)
    | StartOk(id: TaskId)
    | StartFails(id: TaskId)
    | Commit(id: TaskId)
    | TakeThread(id: TaskId)
    | Accept(id: TaskId)
    | Reject(id: TaskId)
    | RunTurn(id: TaskId, how: Ending)
    | Resolve(how: Ending)
    | Drop
    | GoIdle(thread: ThreadId)
    | Configure
    | Close

  /** The act touches the slot for everyone: `use_codex` or `shutdown_codex`. */
  predicate IsReset(act: Act) {
    act.Configure? || act.Close?
  }

  /** The act belongs to one prompt. */
  predicate IsStep(act: Act) {
    !IsReset(act) && !act.Resolve? && !act.Drop? && !act.GoIdle?
  }

  predicate Plain(act: Act) {
    !IsReset(act) && !act.GoIdle?
  }

  function Leave(w: World, id: TaskId): World {
    w.(tasks := w.tasks - {id})
  }

  predicate At(w: World, id: TaskId, pc: Pc) {
    id in w.tasks && w.tasks[id] == pc
  }

  predicate Enabled(limits: Limits, w: World, act: Act) {
    match act
    case Enter(id) => id !in w.tasks && |w.tasks| < limits.sessions && w.pending.None? && w.turns < limits.maxTurns
    case Look(id) => At(w, id, Admitted)
    case ReadLaunch(id) => At(w, id, SawNone)
    case StartOk(id) => At(w, id, Launching)
    case StartFails(id) => At(w, id, Launching)
    case Commit(id) => id in w.tasks && w.tasks[id].Holding?
    case TakeThread(id) => At(w, id, Ensured)
    case Accept(id) => id in w.tasks && w.tasks[id].Ready? && w.tasks[id].thread !in w.busy
    case Reject(id) => id in w.tasks && (w.tasks[id].Ensured? || w.tasks[id].Ready?)
    case RunTurn(id, _) => id in w.tasks && w.tasks[id].Sent?
    case Resolve(_) => w.pending.Some? && w.live.Some?
    case Drop => w.pending.Some?
    case GoIdle(_) => true
    case Configure => true
    case Close => true
  }

  /** Lets go of the live thread, leaving it to `fate`. */
  function Release(w: World, fate: Fate): World {
    w.(live := None, pending := None,
       fates := if w.live.Some? && w.live.value < |w.fates| then w.fates[w.live.value := fate] else w.fates)
  }

  function Pumped(w: World, thread: ThreadId, how: Ending): World {
    match how
    case Over => w.(busy := w.busy - {thread})
    case Parked(callId) => w.(pending := Some(Request(thread, callId)))
    case Left => w
  }

  function Acted(w: World, act: Act): World {
    match act
    case Enter(id) => w.(tasks := w.tasks[id := Admitted])
    case Look(id) => w.(tasks := w.tasks[id := if w.live.Some? then Ensured else SawNone])
    case ReadLaunch(id) => if w.launched then w.(tasks := w.tasks[id := Launching]) else Leave(w, id)
    case StartOk(id) => w.(tasks := w.tasks[id := Holding(|w.fates|)], fates := w.fates + [HeldBy(id)])
    case StartFails(id) => Leave(w, id)
    case Commit(id) =>
      if id in w.tasks && w.tasks[id].Holding? && w.tasks[id].thread < |w.fates| then
        var thread := w.tasks[id].thread;
        if w.live.Some? then w.(tasks := w.tasks[id := Ensured], fates := w.fates[thread := ShutDown])
        else w.(live := Some(thread), tasks := w.tasks[id := Ensured], fates := w.fates[thread := Live])
      else w
    case TakeThread(id) => if w.live.Some? then w.(tasks := w.tasks[id := Ready(w.live.value)]) else Leave(w, id)
    case Accept(id) =>
      if id in w.tasks && w.tasks[id].Ready? then
        w.(tasks := w.tasks[id := Sent(w.tasks[id].thread)], busy := w.busy + {w.tasks[id].thread})
      else w
    case Reject(id) => Leave(w, id)
    case RunTurn(id, how) =>
      if id in w.tasks && w.tasks[id].Sent? then
        Pumped(Leave(w, id).(turns := SaturatingSucc(w.turns)), w.tasks[id].thread, how)
      else w
    case Resolve(how) => if w.live.Some? then Pumped(w.(pending := None), w.live.value, how) else w
    case Drop => w.(pending := None)
    case GoIdle(thread) => w.(busy := w.busy - {thread})
    case Configure => Release(w, LetGo).(launched := true, turns := 0)
    case Close => Release(w, ShutDown)
  }

  const START := World(false, None, None, 0, {}, map[], [])

  /** Every act of the schedule was possible when it came. */
  predicate Possible(limits: Limits, acts: seq<Act>) {
    acts == [] || (Possible(limits, acts[..|acts| - 1]) && Enabled(limits, After(acts[..|acts| - 1]), acts[|acts| - 1]))
  }

  function After(acts: seq<Act>): World {
    if acts == [] then START else Acted(After(acts[..|acts| - 1]), acts[|acts| - 1])
  }

  lemma AfterSnoc(limits: Limits, acts: seq<Act>, act: Act)
    ensures After(acts + [act]) == Acted(After(acts), act)
    ensures Possible(limits, acts + [act]) <==> Possible(limits, acts) && Enabled(limits, After(acts), act)
  {
    assert (acts + [act])[..|acts|] == acts;
  }

  lemma RemovalShrinks(w: World, id: TaskId)
    ensures |Leave(w, id).tasks| == |w.tasks| - if id in w.tasks then 1 else 0
  {
    var rest := w.tasks - {id};
    assert rest.Keys == w.tasks.Keys - {id};
    assert |rest| == |rest.Keys| && |w.tasks| == |w.tasks.Keys|;
  }

  lemma UpdateKeepsSize(tasks: map<TaskId, Pc>, id: TaskId, pc: Pc)
    ensures |tasks[id := pc]| == |tasks| + if id in tasks then 0 else 1
  {
    var more := tasks[id := pc];
    assert more.Keys == tasks.Keys + {id};
    assert |more| == |more.Keys| && |tasks| == |tasks.Keys|;
  }

  /** `tasks'` is `tasks` with one prompt moved on, come in, or gone. */
  predicate Moved(tasks: map<TaskId, Pc>, tasks': map<TaskId, Pc>, id: TaskId) {
    || tasks' == tasks
    || tasks' == tasks - {id}
    || (id in tasks' && tasks' == tasks[id := tasks'[id]])
  }

  /** What a prompt's step does to the prompts and the counter. */
  lemma StepMoves(limits: Limits, w: World, act: Act)
    requires Enabled(limits, w, act) && IsStep(act)
    ensures Moved(w.tasks, Acted(w, act).tasks, act.id)
    ensures act.Enter? <==> act.id !in w.tasks
  {
    match act
    case Enter(id) => PutMoves(w.tasks, id, Admitted);
    case Look(id) => PutMoves(w.tasks, id, if w.live.Some? then Ensured else SawNone);
    case ReadLaunch(id) => PutMoves(w.tasks, id, Launching);
    case StartOk(id) => PutMoves(w.tasks, id, Holding(|w.fates|));
    case Commit(id) => PutMoves(w.tasks, id, Ensured);
    case TakeThread(id) =>
      if w.live.Some? {
        PutMoves(w.tasks, id, Ready(w.live.value));
      }
    case Accept(id) => PutMoves(w.tasks, id, Sent(w.tasks[id].thread));
    case _ =>
  }

  lemma PutMoves(tasks: map<TaskId, Pc>, id: TaskId, pc: Pc)
    ensures Moved(tasks, tasks[id := pc], id)
  {
  }

  /** The prompt holds a thread it will run, or is running, a turn on. */
  predicate Committed(w: World, id: TaskId) {
    id in w.tasks && (w.tasks[id].Ready? || w.tasks[id].Sent?)
  }

  /** A prompt's step commits it only to a thread that is live, or that it was committed to. */
  lemma StepCommits(limits: Limits, w: World, act: Act)
    requires Enabled(limits, w, act) && IsStep(act)
    ensures Committed(Acted(w, act), act.id) ==>
              (Committed(w, act.id) && w.tasks[act.id].thread == Acted(w, act).tasks[act.id].thread)
              || w.live == Some(Acted(w, act).tasks[act.id].thread)
    ensures forall t :: t in Acted(w, act).busy ==> t in w.busy || (Committed(w, act.id) && w.tasks[act.id].thread == t)
    ensures |Acted(w, act).fates| >= |w.fates|
  {
  }
}

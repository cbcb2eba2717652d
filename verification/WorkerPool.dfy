/**
 In-memory jobs: the enqueuer's bounded channel, the workers that drain it, and the shutdown
 protocol, as steps that interleave freely.
 */
module WorkerPool {
  import opened Options
  import JobQueue
  import JobTable

  // ----- The enqueuer -----

  datatype JobOption = WithQueue(name: string) | WithPersist | WithPriority(value: int)
  datatype JobOptions = JobOptions(queue: string, persist: bool, priority: int)

  const DEFAULTS := JobOptions("default", false, 0)

  function ApplyOption(o: JobOptions, opt: JobOption): JobOptions {
    match opt
    case WithQueue(name) => o.(queue := name)
    case WithPersist => o.(persist := true)
    case WithPriority(value) => o.(priority := value)
  }

  /** What the options of one Enqueue call come to: the last of each kind wins. */
  function LastQueue(opts: seq<JobOption>): string {
    if opts == [] then DEFAULTS.queue
    else if opts[|opts| - 1].WithQueue? then opts[|opts| - 1].name
    else LastQueue(opts[..|opts| - 1])
  }

  function LastPriority(opts: seq<JobOption>): int {
    if opts == [] then DEFAULTS.priority
    else if opts[|opts| - 1].WithPriority? then opts[|opts| - 1].value
    else LastPriority(opts[..|opts| - 1])
  }

  function Resolve(opts: seq<JobOption>): JobOptions {
    JobOptions(LastQueue(opts), WithPersist in opts, LastPriority(opts))
  }

  /** What the last option of each kind says, and what holds without one. */
  lemma {:induction false} LastOptionWins(opts: seq<JobOption>)
    ensures forall i | 0 <= i < |opts| && opts[i].WithQueue? ::
      (forall j :: i < j < |opts| ==> !opts[j].WithQueue?) ==> Resolve(opts).queue == opts[i].name
    ensures forall i | 0 <= i < |opts| && opts[i].WithPriority? ::
      (forall j :: i < j < |opts| ==> !opts[j].WithPriority?) ==> Resolve(opts).priority == opts[i].value
    ensures (forall i :: 0 <= i < |opts| ==> !opts[i].WithQueue?) ==> Resolve(opts).queue == "default"
    ensures (forall i :: 0 <= i < |opts| ==> !opts[i].WithPriority?) ==> Resolve(opts).priority == 0
    ensures Resolve(opts).persist <==> WithPersist in opts
    decreases |opts|
  {
    if opts != [] {
      LastOptionWins(opts[..|opts| - 1]);
    }
  }

  /** A job with its payload, None when it does not marshal. */
  datatype Job = Job(name: string, payload: Option<string>)
  datatype Envelope = Envelope(job: Job, opts: JobOptions)

  /** `Waits`: the call blocks until another step makes room or ends its context. */
  datatype Answer = Queued | Refused | Waits

  class Enqueuer {
    var memQueue: seq<Envelope>
    const capacity: nat
    const backend: Option<JobQueue.PgBackend>

    constructor (backend: Option<JobQueue.PgBackend>, capacity: nat := 1000)
      ensures memQueue == [] && this.capacity == capacity && this.backend == backend
    {
      memQueue, this.capacity, this.backend := [], capacity, backend;
    }

    /** `done`: whether the caller's context is done. The select waits until the channel has room or
        the context is done, and takes either branch when both hold. */
    method Enqueue(job: Job, opts: seq<JobOption>, done: bool, now: int) returns (answer: Answer)
      requires backend.Some? ==> backend.value.Valid()
      modifies `memQueue, if backend.Some? then {backend.value} else {}
      ensures backend.Some? ==> backend.value.Valid()
      ensures WithPersist in opts ==>
        && memQueue == old(memQueue)
        && var stored := backend.Some? && job.payload.Some?
             && JobTable.Fits(job.name, LastQueue(opts), LastPriority(opts));
           answer == if stored then Queued else Refused
      ensures WithPersist in opts && backend.Some? ==>
        var b := backend.value;
        && (answer == Refused ==> b.rows == old(b.rows))
        && (answer == Queued ==>
          && b.lastId !in old(b.rows)
          && b.rows == old(b.rows)[b.lastId :=
              JobTable.NewRow(job.name, LastQueue(opts), job.payload.value, LastPriority(opts), now)])
      ensures WithPersist !in opts ==>
        && (backend.Some? ==> backend.value.rows == old(backend.value.rows))
        && memQueue == old(memQueue) + (if answer == Queued then [Envelope(job, Resolve(opts))] else [])
        && (answer == Queued ==> |old(memQueue)| < capacity)
        && (answer == Refused ==> done)
        && (answer == Waits <==> |old(memQueue)| >= capacity && !done)
        && var p, send := PoolWith(capacity, old(memQueue)), Send(Envelope(job, Resolve(opts)));
        && (answer == Waits <==> !Possible(p, send) && !done)
        && (answer == Queued ==> Possible(p, send) && memQueue == Do(p, send).queue)
    {
      var o := DEFAULTS;
      for i := 0 to |opts|
        invariant o == Resolve(opts[..i])
      {
        assert opts[..i + 1][..i] == opts[..i];
        o := ApplyOption(o, opts[i]);
      }
      assert opts[..|opts|] == opts;
      if o.persist {
        if backend.None? {
          return Refused;
        }
        var ok := backend.value.Enqueue(job.name, o.queue, job.payload, o.priority, now);
        return if ok then Queued else Refused;
      }
      var room := |memQueue| < capacity;
      if !room && !done {
        return Waits;
      }
      if room && done {
        if * { room := false; }
      }
      if !room {
        return Refused;
      }
      memQueue := memQueue + [Envelope(job, o)];
      return Queued;
    }
  }

  /** A pool with no worker and that channel. */
  function PoolWith(capacity: nat, queue: seq<Envelope>): Pool {
    Pool(capacity, queue, [], false, false, [], [], [], false)
  }

  // ----- The pool -----

  datatype Worker = Unborn | Idle | Executing(env: Envelope) | Exited

  /** `queue`, `workers`, `stopped` (stopCh closed) and `cancelled` (the workers' context) are the
      program's state; `accepted`, `begun` and `finished` record what happened, in order, and
      `down` that Shutdown has returned nil. */
  datatype Pool = Pool(capacity: nat, queue: seq<Envelope>, workers: seq<Worker>, stopped: bool, cancelled: bool,
                       accepted: seq<Envelope>, begun: seq<Envelope>, finished: seq<Envelope>, down: bool)

  datatype Step =
    | Launch(w: nat)                // Start: wg.Add(1) and a new goroutine
    | Send(env: Envelope)
    | HandOver(env: Envelope, w: nat) // a send that meets a waiting worker; the only one without a buffer
    | GiveUp(env: Envelope)         // Enqueue returns the context's error
    | Receive(w: nat)
    | Finish(w: nat)
    | Exit(w: nat)
    | CloseStop                     // Shutdown, which is called once
    | Cancel
    | ShutdownNil

  predicate At(p: Pool, w: nat, worker: Worker) {
    w < |p.workers| && p.workers[w] == worker
  }

  /** wg.Wait returns: every goroutine that was started has ended. */
  predicate AllDone(p: Pool) {
    forall w :: 0 <= w < |p.workers| ==> p.workers[w] == Exited || p.workers[w] == Unborn
  }

  /** A worker whose stop channel is closed may still receive: its select picks any ready case. */
  predicate Possible(p: Pool, step: Step) {
    match step
    case Launch(w) => At(p, w, Unborn)
    case Send(_) => |p.queue| < p.capacity
    case HandOver(_, w) => At(p, w, Idle) && p.queue == []
    case GiveUp(_) => true
    case Receive(w) => At(p, w, Idle) && p.queue != []
    case Finish(w) => w < |p.workers| && p.workers[w].Executing?
    case Exit(w) => At(p, w, Idle) && (p.stopped || p.cancelled)
    case CloseStop => !p.stopped
    case Cancel => true
    case ShutdownNil => p.stopped && AllDone(p)
  }

  function Do(p: Pool, step: Step): Pool
    requires Possible(p, step)
  {
    match step
    case Launch(w) => p.(workers := p.workers[w := Idle])
    case Send(env) => p.(queue := p.queue + [env], accepted := p.accepted + [env])
    case HandOver(env, w) =>
      p.(workers := p.workers[w := Executing(env)], accepted := p.accepted + [env], begun := p.begun + [env])
    case GiveUp(_) => p
    case Receive(w) =>
      p.(workers := p.workers[w := Executing(p.queue[0])], queue := p.queue[1..], begun := p.begun + [p.queue[0]])
    case Finish(w) =>
      p.(workers := p.workers[w := Idle], finished := p.finished + [p.workers[w].env])
    case Exit(w) => p.(workers := p.workers[w := Exited])
    case CloseStop => p.(stopped := true)
    case Cancel => p.(cancelled := true)
    case ShutdownNil => p.(down := true)
  }

  predicate Init(p: Pool) {
    && p.queue == [] && p.accepted == [] && p.begun == [] && p.finished == []
    && !p.stopped && !p.cancelled && !p.down
    && forall w :: 0 <= w < |p.workers| ==> p.workers[w] == Unborn
  }

  /** How many workers have that job in their hands. */
  function Held(workers: seq<Worker>, env: Envelope): nat {
    if workers == [] then 0 else Held(workers[1..], env) + (if workers[0] == Executing(env) then 1 else 0)
  }

  lemma {:induction false} HeldUpdate(workers: seq<Worker>, w: nat, worker: Worker, env: Envelope)
    requires w < |workers|
    ensures Held(workers[w := worker], env) + (if workers[w] == Executing(env) then 1 else 0)
      == Held(workers, env) + (if worker == Executing(env) then 1 else 0)
  {
    if w > 0 {
      HeldUpdate(workers[1..], w - 1, worker, env);
      assert workers[w := worker][1..] == workers[1..][w - 1 := worker];
    } else {
      assert workers[0 := worker][1..] == workers[1..];
    }
  }

  /** Accepted jobs leave the channel in the order they were accepted, and each one that left is in
      one worker's hands or finished. */
  ghost predicate Conserved(p: Pool) {
    InOrder(p) && Placed(p)
  }

  ghost predicate InOrder(p: Pool) {
    p.accepted == p.begun + p.queue && |p.queue| <= p.capacity && (p.down ==> p.stopped)
  }

  ghost predicate Placed(p: Pool) {
    forall env :: multiset(p.begun)[env] == Held(p.workers, env) + multiset(p.finished)[env]
  }

  lemma StepKeepsOrder(p: Pool, step: Step)
    requires InOrder(p) && Possible(p, step)
    ensures InOrder(Do(p, step)) && |Do(p, step).workers| == |p.workers|
  {
    match step
    case HandOver(env, w) => assert p.begun + p.queue + [env] == p.begun + [env] + p.queue;
    case Receive(w) => assert p.begun + p.queue == p.begun + [p.queue[0]] + p.queue[1..];
    case _ =>
  }

  lemma StepKeepsPlaces(p: Pool, step: Step)
    requires Placed(p) && Possible(p, step)
    ensures Placed(Do(p, step))
  {
    var q := Do(p, step);
    forall env
      ensures multiset(q.begun)[env] == Held(q.workers, env) + multiset(q.finished)[env]
    {
      if WorkerStep(step) || step.HandOver? {
        HeldUpdate(p.workers, step.w, q.workers[step.w], env);
      }
    }
  }

  ghost predicate Run(ps: seq<Pool>, steps: seq<Step>) {
    && |ps| == |steps| + 1
    && Init(ps[0])
    && forall i :: 0 <= i < |steps| ==> Possible(ps[i], steps[i]) && ps[i + 1] == Do(ps[i], steps[i])
  }

  lemma {:induction false} NobodyHolds(workers: seq<Worker>, env: Envelope)
    requires forall w :: 0 <= w < |workers| ==> !workers[w].Executing?
    ensures Held(workers, env) == 0
  {
    if workers != [] {
      NobodyHolds(workers[1..], env);
    }
  }

  /** Over any interleaving jobs are begun in the order they were accepted. */
  lemma {:induction false} RunConserves(ps: seq<Pool>, steps: seq<Step>, i: nat)
    requires Run(ps, steps) && i < |ps|
    ensures Conserved(ps[i]) && |ps[i].workers| == |ps[0].workers|
    decreases i
  {
    if i > 0 {
      RunConserves(ps, steps, i - 1);
      StepKeepsOrder(ps[i - 1], steps[i - 1]);
      StepKeepsPlaces(ps[i - 1], steps[i - 1]);
    } else {
      forall env ensures Held(ps[0].workers, env) == 0 {
        NobodyHolds(ps[0].workers, env);
      }
    }
  }

  /** Every accepted job is in exactly one place: in the channel, in one worker's hands, or finished. */
  lemma InOnePlace(ps: seq<Pool>, steps: seq<Step>, i: nat, env: Envelope)
    requires Run(ps, steps) && i < |ps|
    ensures multiset(ps[i].accepted)[env]
      == multiset(ps[i].queue)[env] + Held(ps[i].workers, env) + multiset(ps[i].finished)[env]
  {
    RunConserves(ps, steps, i);
  }

  // ----- Shutdown -----

  predicate AllExited(p: Pool) {
    forall w :: 0 <= w < |p.workers| ==> p.workers[w] == Exited
  }

  lemma ExitedStays(p: Pool, step: Step)
    requires AllExited(p) && Possible(p, step)
    ensures AllExited(Do(p, step)) && Do(p, step).begun == p.begun
  {
  }

  lemma AllFinished(p: Pool)
    requires AllExited(p) && Placed(p)
    ensures multiset(p.begun) == multiset(p.finished)
  {
    forall env ensures multiset(p.begun)[env] == multiset(p.finished)[env] {
      NobodyHolds(p.workers, env);
    }
  }

  lemma {:induction false} NobodyReturns(ps: seq<Pool>, steps: seq<Step>, i: nat, j: nat)
    requires Run(ps, steps) && i <= j < |ps| && AllExited(ps[i])
    ensures AllExited(ps[j]) && ps[j].begun == ps[i].begun
    decreases j
  {
    if i < j {
      NobodyReturns(ps, steps, i, j - 1);
      ExitedStays(ps[j - 1], steps[j - 1]);
    }
  }

  /** When Start had launched every worker before Shutdown returned nil, no job runs any more, ever:
      each one that was begun has finished, and the others stay in the channel. */
  lemma NothingRunsAfterNil(ps: seq<Pool>, steps: seq<Step>, i: nat, j: nat)
    requires Run(ps, steps) && i < j < |ps| && steps[i] == ShutdownNil
    requires forall w :: 0 <= w < |ps[i].workers| ==> ps[i].workers[w] != Unborn
    ensures AllExited(ps[j]) && ps[j].begun == ps[i].begun
    ensures multiset(ps[j].begun) == multiset(ps[j].finished)
  {
    NobodyReturns(ps, steps, i, j);
    RunConserves(ps, steps, j);
    AllFinished(ps[j]);
  }

  /** The condition is exact: a worker that Start launches later still picks a job up, with the stop
      channel closed and a nil Shutdown behind it. */
  lemma LateStartRunsJobs(p: Pool, w: nat, env: Envelope) returns (q: Pool)
    requires p.down && p.stopped && At(p, w, Unborn)
    ensures q == if p.queue == [] then Do(Do(p, Launch(w)), HandOver(env, w)) else Do(Do(p, Launch(w)), Receive(w))
    ensures q.down && q.stopped && q.workers[w].Executing?
  {
    var started := Do(p, Launch(w));
    q := if p.queue == [] then Do(started, HandOver(env, w)) else Do(started, Receive(w));
  }

  /** One more step of a run. */
  lemma Next(ps: seq<Pool>, steps: seq<Step>, step: Step) returns (qs: seq<Pool>, more: seq<Step>)
    requires Run(ps, steps) && Possible(ps[|steps|], step)
    ensures Run(qs, more) && qs == ps + [Do(ps[|steps|], step)] && more == steps + [step]
  {
    qs, more := ps + [Do(ps[|steps|], step)], steps + [step];
  }

  /** Such a run: Shutdown overtakes Start, and the first worker then runs a job. */
  lemma LateStartHappens(p: Pool, env: Envelope) returns (ps: seq<Pool>, steps: seq<Step>)
    requires Init(p) && p.workers != []
    ensures Run(ps, steps) && ps[0] == p && steps == [CloseStop, ShutdownNil, Launch(0), HandOver(env, 0)]
    ensures ps[4].down && At(ps[4], 0, Executing(env)) && ps[4].begun == [env]
  {
    ps, steps := [p], [];
    ps, steps := Next(ps, steps, CloseStop);
    ps, steps := Next(ps, steps, ShutdownNil);
    ps, steps := Next(ps, steps, Launch(0));
    ps, steps := Next(ps, steps, HandOver(env, 0));
  }

  predicate WorkerStep(step: Step) {
    step.Launch? || step.Receive? || step.Finish? || step.Exit?
  }

  function Weight(worker: Worker): nat {
    match worker case Unborn => 2 case Executing(_) => 2 case Idle => 1 case Exited => 0
  }

  function Weights(workers: seq<Worker>): nat {
    if workers == [] then 0 else Weight(workers[0]) + Weights(workers[1..])
  }

  function Measure(p: Pool): nat {
    3 * |p.queue| + Weights(p.workers)
  }

  lemma {:induction false} WeightsUpdate(workers: seq<Worker>, w: nat, worker: Worker)
    requires w < |workers|
    ensures Weights(workers[w := worker]) + Weight(workers[w]) == Weights(workers) + Weight(worker)
  {
    if w > 0 {
      WeightsUpdate(workers[1..], w - 1, worker);
      assert workers[w := worker][1..] == workers[1..][w - 1 := worker];
    } else {
      assert workers[0 := worker][1..] == workers[1..];
    }
  }

  /** Each step of a worker makes the measure smaller, also when it still takes a queued job. */
  lemma WorkerStepProgresses(p: Pool, step: Step)
    requires Possible(p, step) && WorkerStep(step)
    ensures Measure(Do(p, step)) < Measure(p)
  {
    var worker := Do(p, step).workers[step.w];
    WeightsUpdate(p.workers, step.w, worker);
  }

  /** After the stop channel is closed or the context cancelled, a pool that is not done has a worker that
      can step. */
  lemma StoppedNeverStuck(p: Pool) returns (step: Step)
    requires (p.stopped || p.cancelled) && !AllDone(p)
    ensures WorkerStep(step) && !step.Launch? && Possible(p, step)
  {
    var w :| 0 <= w < |p.workers| && p.workers[w] != Exited && p.workers[w] != Unborn;
    step := if p.workers[w].Idle? then Exit(w) else Finish(w);
  }

  predicate Stops(step: Step) {
    step == CloseStop || step == Cancel
  }

  /** A worker is gone only after somebody closed the stop channel or cancelled the context, and from then
      on some worker can step until all are gone. */
  lemma {:induction false} GoneAfterStop(ps: seq<Pool>, steps: seq<Step>, i: nat)
    requires Run(ps, steps) && i < |ps|
    ensures ps[i].stopped || ps[i].cancelled <==> exists k :: 0 <= k < i && Stops(steps[k])
    ensures (exists w :: At(ps[i], w, Exited)) ==> exists k :: 0 <= k < i && Stops(steps[k])
    decreases i
  {
    if i > 0 {
      GoneAfterStop(ps, steps, i - 1);
      if exists w :: At(ps[i], w, Exited) {
        var w :| At(ps[i], w, Exited);
        assert At(ps[i - 1], w, Exited) || ps[i - 1].stopped || ps[i - 1].cancelled;
      }
    }
  }

  /** The stop channel is never closed twice. */
  lemma ClosedOnce(ps: seq<Pool>, steps: seq<Step>, i: nat, j: nat)
    requires Run(ps, steps) && i < j < |steps| && steps[i] == CloseStop
    ensures steps[j] != CloseStop
  {
    StaysStopped(ps, steps, i + 1, j);
  }

  lemma {:induction false} StaysStopped(ps: seq<Pool>, steps: seq<Step>, i: nat, j: nat)
    requires Run(ps, steps) && i <= j < |ps| && ps[i].stopped
    ensures ps[j].stopped
    decreases j
  {
    if i < j {
      StaysStopped(ps, steps, i, j - 1);
    }
  }

  lemma NeverStuckAfterStop(ps: seq<Pool>, steps: seq<Step>, k: nat, i: nat) returns (step: Step)
    requires Run(ps, steps) && k < i < |ps| && Stops(steps[k]) && !AllDone(ps[i])
    ensures WorkerStep(step) && !step.Launch? && Possible(ps[i], step)
  {
    GoneAfterStop(ps, steps, i);
    step := StoppedNeverStuck(ps[i]);
  }

  function WorkerSteps(steps: seq<Step>, i: nat, j: nat): nat
    requires i <= j <= |steps|
  {
    if i == j then 0 else WorkerSteps(steps, i, j - 1) + (if WorkerStep(steps[j - 1]) then 1 else 0)
  }

  /** What a step that enqueues a job adds to the measure. */
  function Added(step: Step): nat {
    if step.Send? then 3 else if step.HandOver? then 1 else 0
  }

  function AddedBy(steps: seq<Step>, i: nat, j: nat): nat
    requires i <= j <= |steps|
  {
    if i == j then 0 else AddedBy(steps, i, j - 1) + Added(steps[j - 1])
  }

  lemma OtherStepsCost(p: Pool, step: Step)
    requires Possible(p, step) && !WorkerStep(step)
    ensures Measure(Do(p, step)) == Measure(p) + Added(step)
  {
    if step.HandOver? {
      WeightsUpdate(p.workers, step.w, Executing(step.env));
    }
  }

  /** So the wait of Shutdown ends: whatever else happens meanwhile, the steps the workers can still take
      are bounded by the measure and by what is still enqueued, whichever jobs they take. */
  lemma {:induction false} ShutdownEnds(ps: seq<Pool>, steps: seq<Step>, i: nat, j: nat)
    requires Run(ps, steps) && i <= j < |ps|
    ensures WorkerSteps(steps, i, j) + Measure(ps[j]) <= Measure(ps[i]) + AddedBy(steps, i, j)
    decreases j - i
  {
    if i < j {
      ShutdownEnds(ps, steps, i, j - 1);
      if WorkerStep(steps[j - 1]) {
        WorkerStepProgresses(ps[j - 1], steps[j - 1]);
      } else {
        OtherStepsCost(ps[j - 1], steps[j - 1]);
      }
    }
  }
}

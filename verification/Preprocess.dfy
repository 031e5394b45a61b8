/** internal/preprocess/daemon.go: a worker pool behind a bounded queue, as steps that callers and
    workers interleave. Each critical section and each channel operation is one step; Start, Submit
    and Stop are several, because the code unlocks between them. */
module Preprocess {

  datatype Job = Job(id: string, sessionId: string, branchId: string, text: string)

  datatype Result = Result(job: Job, ok: bool)

  datatype Worker = Idle | Busy(job: Job) | Exited

  /** Where the call of Stop that found the daemon running has got to. */
  datatype Stopping = NotStopping | Flagged | Closed | Returned

  datatype State = State(
    started: bool,
    running: bool,
    queue: seq<Job>,
    pending: multiset<Job>,   // Submit calls that read running == true and have not sent yet
    workers: seq<Worker>,
    stopping: Stopping,
    results: seq<Result>,
    totalJobs: nat,
    totalOk: nat,
    totalErr: nat,
    crashed: bool)            // a send met the closed queue

  datatype Config = Config(maxWorkers: nat, queueSize: nat)
  {
    /** NewDaemon replaces non-positive values by defaults. */
    ghost predicate Valid() {
      maxWorkers >= 1 && queueSize >= 1
    }
  }

  datatype Step =
    | Start
    | Spawn
    | SubmitCheck(job: Job)
    | SubmitSend(job: Job)
    | Take(w: nat)
    | Record(w: nat, ok: bool)
    | Exit(w: nat)
    | StopFlag
    | StopClose
    | StopReturn

  const INITIAL := State(false, false, [], multiset{}, [], NotStopping, [], 0, 0, 0, false)

  predicate QueueClosed(s: State) {
    s.stopping == Closed || s.stopping == Returned
  }

  predicate AllExited(workers: seq<Worker>) {
    forall i | 0 <= i < |workers| :: workers[i].Exited?
  }

  /** A stopped daemon is not started again. */
  predicate Enabled(c: Config, s: State, step: Step) {
    && !s.crashed
    && match step
       case Start => !s.started
       case Spawn => s.started && |s.workers| < c.maxWorkers
       case SubmitCheck(_) => s.running
       case SubmitSend(job) => job in s.pending
       case Take(w) => w < |s.workers| && s.workers[w].Idle? && s.queue != []
       case Record(w, _) => w < |s.workers| && s.workers[w].Busy?
       case Exit(w) => w < |s.workers| && s.workers[w].Idle? && s.queue == [] && QueueClosed(s)
       case StopFlag => s.running
       case StopClose => s.stopping == Flagged
       case StopReturn => s.stopping == Closed && AllExited(s.workers)
  }

  predicate Accepts(c: Config, s: State) {
    !QueueClosed(s) && |s.queue| < c.queueSize
  }

  function Do(c: Config, s: State, step: Step): State
    requires Enabled(c, s, step)
  {
    match step
    case Start => s.(started := true, running := true)
    case Spawn => s.(workers := s.workers + [Idle])
    case SubmitCheck(job) => s.(pending := s.pending + multiset{job})
    case SubmitSend(job) =>
      var t := s.(pending := s.pending - multiset{job});
      if QueueClosed(s) then t.(crashed := true)
      else if Accepts(c, s) then t.(queue := s.queue + [job])
      else t
    case Take(w) => s.(queue := s.queue[1..], workers := s.workers[w := Busy(s.queue[0])])
    case Record(w, ok) =>
      s.(results := s.results + [Result(s.workers[w].job, ok)], totalJobs := s.totalJobs + 1,
         totalOk := s.totalOk + (if ok then 1 else 0), totalErr := s.totalErr + (if ok then 0 else 1),
         workers := s.workers[w := Idle])
    case Exit(w) => s.(workers := s.workers[w := Exited])
    case StopFlag => s.(running := false, stopping := Flagged)
    case StopClose => s.(stopping := Closed)
    case StopReturn => s.(stopping := Returned)
  }

  /** The job that the step makes Submit accept. */
  function Gained(c: Config, s: State, step: Step): multiset<Job> {
    if step.SubmitSend? && Accepts(c, s) then multiset{step.job} else multiset{}
  }

  // ----- Runs -----

  predicate Feasible(c: Config, steps: seq<Step>)
    decreases |steps|, 0
  {
    if steps == [] then true
    else
      var init, last := steps[..|steps| - 1], steps[|steps| - 1];
      Feasible(c, init) && Enabled(c, After(c, init), last)
  }

  function After(c: Config, steps: seq<Step>): State
    requires Feasible(c, steps)
    decreases |steps|, 1
  {
    if steps == [] then INITIAL
    else Do(c, After(c, steps[..|steps| - 1]), steps[|steps| - 1])
  }

  /** The jobs that Submit accepted, by returning true. */
  function Accepted(c: Config, steps: seq<Step>): multiset<Job>
    requires Feasible(c, steps)
  {
    if steps == [] then multiset{}
    else
      var init, last := steps[..|steps| - 1], steps[|steps| - 1];
      Accepted(c, init) + Gained(c, After(c, init), last)
  }

  function InFlight(workers: seq<Worker>): multiset<Job> {
    if workers == [] then multiset{}
    else InFlight(workers[..|workers| - 1]) + Held(workers[|workers| - 1])
  }

  function Recorded(results: seq<Result>): multiset<Job> {
    if results == [] then multiset{}
    else Recorded(results[..|results| - 1]) + multiset{results[|results| - 1].job}
  }

  function CountOk(results: seq<Result>): nat {
    if results == [] then 0 else CountOk(results[..|results| - 1]) + (if results[|results| - 1].ok then 1 else 0)
  }

  /** No job is lost or doubled, and the counters tell the truth. */
  ghost predicate Conserved(s: State, accepted: multiset<Job>) {
    && accepted == multiset(s.queue) + InFlight(s.workers) + Recorded(s.results)
    && |s.results| == s.totalJobs == s.totalOk + s.totalErr
    && s.totalOk == CountOk(s.results)
  }

  ghost predicate WellPhased(c: Config, s: State) {
    && |s.queue| <= c.queueSize
    && |s.workers| <= c.maxWorkers
    && (s.running <==> s.started && s.stopping == NotStopping)
    && (!s.started ==> s.workers == [] && s.stopping == NotStopping)
    && (forall i | 0 <= i < |s.workers| && s.workers[i].Exited? :: QueueClosed(s) && s.queue == [])
  }

  function Held(w: Worker): multiset<Job> {
    if w.Busy? then multiset{w.job} else multiset{}
  }

  lemma {:induction false} InFlightUpdate(workers: seq<Worker>, w: nat, x: Worker)
    requires w < |workers|
    ensures InFlight(workers[w := x]) + Held(workers[w]) == InFlight(workers) + Held(x)
  {
    var (n, changed) := (|workers| - 1, workers[w := x]);
    if w == n {
      assert changed[..n] == workers[..n];
      SwapLast(InFlight(workers[..n]), Held(workers[n]), Held(x));
    } else {
      InFlightUpdate(workers[..n], w, x);
      assert changed[..n] == workers[..n][w := x];
      MoveAcross(InFlight(changed[..n]), Held(workers[w]), InFlight(workers[..n]), Held(x), Held(workers[n]));
    }
  }

  lemma SwapLast<T>(a: multiset<T>, b: multiset<T>, c: multiset<T>)
    ensures a + c + b == a + b + c
  {
  }

  lemma {:induction false} MoveAcross<T>(a: multiset<T>, b: multiset<T>, c: multiset<T>, d: multiset<T>, l: multiset<T>)
    requires a + b == c + d
    ensures (a + l) + b == (c + l) + d
  {
    assert (a + l) + b == (a + b) + l;
    assert (c + l) + d == (c + d) + l;
  }

  /** A job moves from the queue to a worker. */
  lemma {:induction false} TakeConserves(queue: seq<Job>, workers: seq<Worker>, w: nat, recorded: multiset<Job>)
    requires w < |workers| && workers[w].Idle? && queue != []
    ensures multiset(queue[1..]) + InFlight(workers[w := Busy(queue[0])]) + recorded
      == multiset(queue) + InFlight(workers) + recorded
  {
    InFlightUpdate(workers, w, Busy(queue[0]));
    hide InFlight;
    assert queue == [queue[0]] + queue[1..];
    assert InFlight(workers[w := Busy(queue[0])]) == InFlight(workers) + multiset{queue[0]};
  }

  /** A job moves from a worker to the results. */
  lemma {:induction false} RecordConserves(queue: multiset<Job>, workers: seq<Worker>, w: nat, recorded: multiset<Job>)
    requires w < |workers| && workers[w].Busy?
    ensures queue + InFlight(workers[w := Idle]) + (recorded + multiset{workers[w].job})
      == queue + InFlight(workers) + recorded
  {
    InFlightUpdate(workers, w, Idle);
    hide InFlight;
    assert InFlight(workers) == InFlight(workers[w := Idle]) + multiset{workers[w].job};
  }

  lemma {:induction false} RecordedSnoc(results: seq<Result>, r: Result)
    ensures Recorded(results + [r]) == Recorded(results) + multiset{r.job}
    ensures CountOk(results + [r]) == CountOk(results) + (if r.ok then 1 else 0)
  {
    assert (results + [r])[..|results|] == results;
  }

  lemma {:induction false} IdleWorker(workers: seq<Worker>, w: nat, x: Worker)
    requires w < |workers| && !workers[w].Busy? && !x.Busy?
    ensures InFlight(workers[w := x]) == InFlight(workers)
  {
    InFlightUpdate(workers, w, x);
    hide InFlight;
    assert InFlight(workers[w := x]) + multiset{} == InFlight(workers[w := x]);
    assert InFlight(workers) + multiset{} == InFlight(workers);
  }

  lemma {:induction false} SpawnIdle(workers: seq<Worker>)
    ensures InFlight(workers + [Idle]) == InFlight(workers)
  {
    assert (workers + [Idle])[..|workers|] == workers;
  }

  lemma {:induction false} WorkerStepConserves(c: Config, s: State, step: Step, accepted: multiset<Job>)
    requires Enabled(c, s, step) && !step.SubmitSend? && Conserved(s, accepted)
    ensures Conserved(Do(c, s, step), accepted)
  {
    hide InFlight, Recorded, CountOk;
    match step {
      case Spawn =>
        SpawnIdle(s.workers);
      case Take(w) =>
        TakeConserves(s.queue, s.workers, w, Recorded(s.results));
      case Record(w, ok) =>
        RecordConserves(multiset(s.queue), s.workers, w, Recorded(s.results));
        RecordedSnoc(s.results, Result(s.workers[w].job, ok));
      case Exit(w) =>
        IdleWorker(s.workers, w, Exited);
      case _ =>
    }
  }

  lemma {:induction false} SendConserves(c: Config, s: State, job: Job, accepted: multiset<Job>)
    requires Enabled(c, s, SubmitSend(job)) && Conserved(s, accepted)
    ensures Conserved(Do(c, s, SubmitSend(job)), accepted + Gained(c, s, SubmitSend(job)))
  {
    hide InFlight, Recorded, CountOk;
    var t := Do(c, s, SubmitSend(job));
    if Accepts(c, s) {
      MoveAcross(multiset(s.queue), InFlight(s.workers) + Recorded(s.results), accepted, multiset{}, multiset{job});
      assert multiset(t.queue) == multiset(s.queue) + multiset{job};
    } else {
      assert accepted + multiset{} == accepted;
    }
  }

  lemma {:induction false} StepConserves(c: Config, s: State, step: Step, accepted: multiset<Job>)
    requires Enabled(c, s, step) && Conserved(s, accepted)
    ensures Conserved(Do(c, s, step), accepted + Gained(c, s, step))
  {
    hide Enabled, Do, Conserved;
    if step.SubmitSend? {
      SendConserves(c, s, step.job, accepted);
    } else {
      WorkerStepConserves(c, s, step, accepted);
      assert accepted + multiset{} == accepted;
    }
  }

  lemma {:induction false} StepKeepsPhases(c: Config, s: State, step: Step)
    requires Enabled(c, s, step) && WellPhased(c, s)
    ensures WellPhased(c, Do(c, s, step))
  {
    var t := Do(c, s, step);
    forall i | 0 <= i < |t.workers| && t.workers[i].Exited?
      ensures QueueClosed(t) && t.queue == []
    {
      if i < |s.workers| && s.workers[i].Exited? {
        assert QueueClosed(s) && s.queue == [];
      }
    }
  }

  /** In every interleaving, up to a crash: accepted jobs are queued, in flight or recorded, each
      once; results, job total and the two outcome counters agree; the queue stays bounded. */
  lemma {:induction false} RunsConserveJobs(c: Config, steps: seq<Step>)
    requires c.Valid() && Feasible(c, steps)
    ensures Conserved(After(c, steps), Accepted(c, steps))
    ensures WellPhased(c, After(c, steps))
  {
    hide Enabled, Do, WellPhased, Conserved;
    if steps == [] {
      InitialConserves();
      InitialPhases(c);
    } else {
      var init := steps[..|steps| - 1];
      RunsConserveJobs(c, init);
      StepConserves(c, After(c, init), steps[|steps| - 1], Accepted(c, init));
      StepKeepsPhases(c, After(c, init), steps[|steps| - 1]);
    }
  }

  lemma {:induction false} InitialConserves()
    ensures Conserved(INITIAL, multiset{})
  {
    assert InFlight([]) == multiset{} && Recorded([]) == multiset{};
  }

  lemma InitialPhases(c: Config)
    ensures WellPhased(c, INITIAL)
  {
  }

  lemma {:induction false} NothingInFlight(workers: seq<Worker>)
    requires AllExited(workers)
    ensures InFlight(workers) == multiset{}
  {
    if workers != [] {
      NothingInFlight(workers[..|workers| - 1]);
    }
  }

  lemma {:induction false} SomeRecorded(results: seq<Result>)
    ensures Recorded(results) == multiset{} <==> results == []
  {
    if results != [] {
      assert results[|results| - 1].job in Recorded(results);
    }
  }

  /** When Stop returns every accepted job has exactly one result, unless Stop overtook Start: with
      no worker spawned yet there is nothing to wait for, and what was accepted still waits. */
  lemma {:induction false} StopReturnsCleanIff(c: Config, steps: seq<Step>)
    requires c.Valid() && Feasible(c, steps) && Enabled(c, After(c, steps), StopReturn)
    ensures Accepted(c, steps) == Recorded(After(c, steps).results)
            <==> After(c, steps).workers != [] || Accepted(c, steps) == multiset{}
  {
    hide Feasible, After, Accepted, InFlight, Recorded, CountOk, Conserved, WellPhased;
    RunsConserveJobs(c, steps);
    var s := After(c, steps);
    if s.workers == [] {
      NoWorkerNoResult(c, steps);
    }
    hide Config.Valid;
    assert AllExited(s.workers);
    hide Enabled, AllExited;
    CleanOnceExited(c, s, Accepted(c, steps));
  }

  lemma {:induction false} CleanOnceExited(c: Config, s: State, accepted: multiset<Job>)
    requires Conserved(s, accepted) && WellPhased(c, s) && AllExited(s.workers)
    requires s.workers == [] ==> s.results == []
    ensures accepted == Recorded(s.results) <==> s.workers != [] || accepted == multiset{}
  {
    hide InFlight, Recorded, CountOk;
    NothingInFlight(s.workers);
    SomeRecorded(s.results);
    if s.workers != [] {
      assert s.workers[0].Exited?;
    }
  }

  lemma StepWithoutWorkers(c: Config, s: State, step: Step)
    requires Enabled(c, s, step) && Do(c, s, step).workers == []
    ensures s.workers == [] && Do(c, s, step).results == s.results
  {
  }

  lemma {:induction false} NoWorkerNoResult(c: Config, steps: seq<Step>)
    requires Feasible(c, steps) && After(c, steps).workers == []
    ensures After(c, steps).results == []
  {
    hide Enabled, Do;
    if steps != [] {
      var init := steps[..|steps| - 1];
      StepWithoutWorkers(c, After(c, init), steps[|steps| - 1]);
      NoWorkerNoResult(c, init);
    }
  }

  // ----- Stop is not blocked -----

  function WorkerRank(w: Worker): nat {
    match w
    case Idle => 1
    case Busy(_) => 2
    case Exited => 0
  }

  function Rank(workers: seq<Worker>): nat {
    if workers == [] then 0 else Rank(workers[..|workers| - 1]) + WorkerRank(workers[|workers| - 1])
  }

  function Remaining(s: State): nat {
    3 * |s.queue| + Rank(s.workers)
  }

  lemma {:induction false} RankUpdate(workers: seq<Worker>, w: nat, x: Worker)
    requires w < |workers|
    ensures Rank(workers[w := x]) + WorkerRank(workers[w]) == Rank(workers) + WorkerRank(x)
  {
    var (n, changed) := (|workers| - 1, workers[w := x]);
    if w == n {
      assert changed[..n] == workers[..n];
    } else {
      RankUpdate(workers[..n], w, x);
      assert changed[..n] == workers[..n][w := x];
    }
  }

  predicate IsWorkerStep(step: Step) {
    step.Take? || step.Record? || step.Exit?
  }

  /** Once the queue is closed each worker step brings the end nearer, and until Stop can return
      some worker can make one. */
  lemma {:induction false} ClosedQueueDrains(c: Config, s: State) returns (step: Step)
    requires s.stopping == Closed && !s.crashed
    ensures Enabled(c, s, StopReturn) || (IsWorkerStep(step) && Enabled(c, s, step))
    ensures forall t | IsWorkerStep(t) && Enabled(c, s, t) :: Remaining(Do(c, s, t)) < Remaining(s)
  {
    step := StopReturn;
    if !AllExited(s.workers) {
      var w: nat :| w < |s.workers| && !s.workers[w].Exited?;
      var x := s.workers[w];
      step := if x.Busy? then Record(w, true) else if s.queue == [] then Exit(w) else Take(w);
    }
    forall t | IsWorkerStep(t) && Enabled(c, s, t)
      ensures Remaining(Do(c, s, t)) < Remaining(s)
    {
      RankUpdate(s.workers, t.w, Do(c, s, t).workers[t.w]);
    }
  }

  // ----- What can go wrong -----

  lemma {:induction false} Extend(c: Config, steps: seq<Step>, step: Step)
    requires Feasible(c, steps) && Enabled(c, After(c, steps), step)
    ensures Feasible(c, steps + [step])
    ensures After(c, steps + [step]) == Do(c, After(c, steps), step)
    ensures Accepted(c, steps + [step]) == Accepted(c, steps) + Gained(c, After(c, steps), step)
  {
    hide Enabled, Do, Accepts;
    assert (steps + [step])[..|steps|] == steps;
  }

  /** Once Stop has taken over, no further Submit passes the flag check. */
  predicate StopSettled(s: State) {
    (s.running ==> s.started) && (s.stopping != NotStopping ==> s.started && !s.running)
  }

  lemma StepSettles(c: Config, s: State, step: Step)
    requires StopSettled(s) && Enabled(c, s, step)
    ensures StopSettled(Do(c, s, step))
  {
  }

  lemma {:induction false} RunsSettle(c: Config, steps: seq<Step>)
    requires Feasible(c, steps)
    ensures StopSettled(After(c, steps))
  {
    hide Enabled, Do;
    if steps != [] {
      var init := steps[..|steps| - 1];
      RunsSettle(c, init);
      StepSettles(c, After(c, init), steps[|steps| - 1]);
    }
  }

  /** Stop has taken over, and no Submit is between its flag check and its send. */
  predicate Safe(s: State) {
    s.stopping != NotStopping && !s.crashed && s.pending == multiset{}
  }

  lemma StepStaysSafe(c: Config, s: State, step: Step)
    requires StopSettled(s) && Safe(s) && Enabled(c, s, step)
    ensures Safe(Do(c, s, step))
  {
  }

  lemma {:induction false} StaysSafe(c: Config, steps: seq<Step>, more: seq<Step>)
    requires Feasible(c, steps) && Safe(After(c, steps)) && Feasible(c, steps + more)
    ensures Safe(After(c, steps + more))
  {
    hide Enabled, Do, Safe, StopSettled;
    if more == [] {
      assert steps + more == steps;
    } else {
      var init := steps + more[..|more| - 1];
      assert (steps + more)[..|steps + more| - 1] == init;
      StaysSafe(c, steps, more[..|more| - 1]);
      RunsSettle(c, init);
      StepStaysSafe(c, After(c, init), (steps + more)[|steps + more| - 1]);
    }
  }

  /** The run with which a waiting Submit meets the closed queue. */
  lemma {:induction false} PendingCrashes(c: Config, steps: seq<Step>, job: Job) returns (more: seq<Step>)
    requires Feasible(c, steps) && After(c, steps).stopping != NotStopping && !After(c, steps).crashed
    requires job in After(c, steps).pending
    ensures Feasible(c, steps + more) && After(c, steps + more).crashed
  {
    hide Feasible, After;
    more := [];
    assert steps + more == steps;
    if After(c, steps).stopping == Flagged {
      more := [StopClose];
      Extend(c, steps, StopClose);
    }
    var run := steps + more;
    assert steps + (more + [SubmitSend(job)]) == run + [SubmitSend(job)];
    assert QueueClosed(After(c, run));
    Extend(c, run, SubmitSend(job));
    more := more + [SubmitSend(job)];
  }

  /** Exactly when a send can still meet the closed queue, once Stop has taken over: some Submit has
      read the flag and not sent yet. Stopping while no Submit is under way is safe, and nothing
      less is. */
  lemma {:induction false} CrashPossibleIff(c: Config, steps: seq<Step>)
    requires Feasible(c, steps) && After(c, steps).stopping != NotStopping && !After(c, steps).crashed
    ensures (exists more: seq<Step> :: Feasible(c, steps + more) && After(c, steps + more).crashed)
            <==> After(c, steps).pending != multiset{}
  {
    hide Feasible, After;
    if After(c, steps).pending != multiset{} {
      var job :| job in After(c, steps).pending;
      var more := PendingCrashes(c, steps, job);
    } else if more: seq<Step> :| Feasible(c, steps + more) && After(c, steps + more).crashed {
      StaysSafe(c, steps, more);
    }
  }

  /** A Submit that read the flag before Stop can send after the queue is closed, and panic. */
  lemma {:induction false} CrashIsReachable(c: Config, job: Job) returns (steps: seq<Step>)
    requires c.Valid()
    ensures Feasible(c, steps) && After(c, steps).crashed
  {
    steps := [];
    assert After(c, []) == INITIAL;
    hide Feasible, After;
    Extend(c, steps, Start);
    steps := steps + [Start];
    Extend(c, steps, SubmitCheck(job));
    steps := steps + [SubmitCheck(job)];
    Extend(c, steps, StopFlag);
    steps := steps + [StopFlag];
    Extend(c, steps, StopClose);
    steps := steps + [StopClose];
    Extend(c, steps, SubmitSend(job));
    steps := steps + [SubmitSend(job)];
  }

  /** A Stop that overtakes Start returns with an accepted job that has no result. */
  lemma {:induction false} StopCanReturnEarly(c: Config, job: Job) returns (steps: seq<Step>)
    requires c.Valid()
    ensures Feasible(c, steps) && After(c, steps).stopping == Returned
    ensures Accepted(c, steps) == multiset{job} && After(c, steps).results == []
  {
    steps := [];
    assert After(c, []) == INITIAL && Accepted(c, []) == multiset{};
    hide Feasible, After, Accepted;
    Extend(c, steps, Start);
    steps := steps + [Start];
    Extend(c, steps, SubmitCheck(job));
    steps := steps + [SubmitCheck(job)];
    Extend(c, steps, SubmitSend(job));
    steps := steps + [SubmitSend(job)];
    assert Accepted(c, steps) == multiset{job};
    steps := StopUnwaited(c, steps);
  }

  lemma {:induction false} StopUnwaited(c: Config, before: seq<Step>) returns (steps: seq<Step>)
    requires Feasible(c, before) && After(c, before).running && After(c, before).workers == []
      && !After(c, before).crashed
    ensures Feasible(c, steps) && After(c, steps).stopping == Returned
    ensures Accepted(c, steps) == Accepted(c, before) && After(c, steps).results == After(c, before).results
  {
    hide Feasible, After, Accepted;
    steps := before;
    Extend(c, steps, StopFlag);
    steps := steps + [StopFlag];
    Extend(c, steps, StopClose);
    steps := steps + [StopClose];
    Extend(c, steps, StopReturn);
    steps := steps + [StopReturn];
  }

  // ----- The daemon object -----

  /** Its fields change by the steps above; `state` adds what only the goroutines know. */
  class Daemon {
    const cfg: Config
    var running: bool
    var queue: seq<Job>
    var closed: bool
    var results: seq<Result>
    var totalJobs: nat
    var totalOk: nat
    var totalErr: nat
    ghost var state: State

    ghost predicate Valid()
      reads this
    {
      && cfg.Valid() && WellPhased(cfg, state) && !state.crashed && closed == QueueClosed(state)
      && (running, queue, results) == (state.running, state.queue, state.results)
      && (totalJobs, totalOk, totalErr) == (state.totalJobs, state.totalOk, state.totalErr)
    }

    constructor (maxWorkers: int, queueSize: int)
      ensures Valid() && state == INITIAL
      ensures cfg.maxWorkers == (if maxWorkers <= 0 then 2 else maxWorkers)
      ensures cfg.queueSize == (if queueSize <= 0 then 64 else queueSize)
    {
      cfg := Config(if maxWorkers <= 0 then 2 else maxWorkers, if queueSize <= 0 then 64 else queueSize);
      running, queue, closed, results := false, [], false, [];
      totalJobs, totalOk, totalErr := 0, 0, 0;
      state := INITIAL;
    }

    /** The locked part of Start; `spawn` tells the caller to go on and spawn the workers. */
    method BeginStart() returns (spawn: bool)
      requires Valid() && (state.started ==> running)
      modifies this
      ensures Valid() && spawn == !old(state).started
      ensures state == if spawn then Do(cfg, old(state), Start) else old(state)
    {
      if running {
        return false;
      }
      spawn := true;
      StepKeepsPhases(cfg, state, Start);
      state := Do(cfg, state, Start);
      running := true;
    }

    /** The locked part of Submit. */
    method CheckRunning(job: Job) returns (go: bool)
      requires Valid()
      modifies this`state
      ensures Valid() && go == old(state).running
      ensures state == if go then Do(cfg, old(state), SubmitCheck(job)) else old(state)
    {
      go := running;
      if go {
        StepKeepsPhases(cfg, state, SubmitCheck(job));
        state := Do(cfg, state, SubmitCheck(job));
      }
    }

    /** The send of Submit; sending on the closed queue panics. */
    method TrySend(job: Job) returns (accepted: bool)
      requires Valid() && job in state.pending && !closed
      modifies this`queue, this`state
      ensures Valid() && state == Do(cfg, old(state), SubmitSend(job))
      ensures accepted == Accepts(cfg, old(state)) == (queue == old(queue) + [job])
    {
      accepted := |queue| < cfg.queueSize;
      StepKeepsPhases(cfg, state, SubmitSend(job));
      state := Do(cfg, state, SubmitSend(job));
      if accepted {
        queue := queue + [job];
      }
    }

    /** A worker receives from the queue. */
    method Receive(ghost w: nat) returns (job: Job)
      requires Valid() && Enabled(cfg, state, Take(w))
      modifies this`queue, this`state
      ensures Valid() && state == Do(cfg, old(state), Take(w)) && state.workers[w] == Busy(job)
    {
      job := queue[0];
      queue := queue[1..];
      StepKeepsPhases(cfg, state, Take(w));
      state := Do(cfg, state, Take(w));
    }

    /** The locked part of a worker's round. */
    method RecordResult(ghost w: nat, job: Job, ok: bool)
      requires Valid() && w < |state.workers| && state.workers[w] == Busy(job)
      modifies this
      ensures Valid() && state == Do(cfg, old(state), Record(w, ok))
    {
      results := results + [Result(job, ok)];
      totalJobs := totalJobs + 1;
      if ok {
        totalOk := totalOk + 1;
      } else {
        totalErr := totalErr + 1;
      }
      StepKeepsPhases(cfg, state, Record(w, ok));
      state := Do(cfg, state, Record(w, ok));
    }

    /** The locked part of Stop; `found` is false for every Stop but the one that stops the daemon. */
    method BeginStop() returns (found: bool)
      requires Valid()
      modifies this`running, this`state
      ensures Valid() && found == old(state).running
      ensures state == if found then Do(cfg, old(state), StopFlag) else old(state)
    {
      found := running;
      if found {
        StepKeepsPhases(cfg, state, StopFlag);
        state := Do(cfg, state, StopFlag);
        running := false;
      }
    }

    method CloseQueue()
      requires Valid() && state.stopping == Flagged
      modifies this`closed, this`state
      ensures Valid() && state == Do(cfg, old(state), StopClose)
    {
      StepKeepsPhases(cfg, state, StopClose);
      state := Do(cfg, state, StopClose);
      closed := true;
    }
  }
}

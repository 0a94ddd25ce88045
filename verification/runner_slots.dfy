/**
 The runner's HTTP slots as a step system: the tick thread acquires slots and
 hands jobs to the pool, workers run them, and every slot comes back once. Each
 step is one critical section or one semaphore operation; any thread may be next.
 */
module RunnerSlots {
  import opened FiniteSets

  type Job = nat

  /** Where one acquired slot is on its way. */
  datatype Stage =
    | Held         // acquired by the tick thread, nothing counted yet
    | Counted      // pending raised, not yet given to the pool
    | Queued       // in the pool
    | Running
    | Ended        // the job returned or raised
    | Refused      // the pool raised
    | Uncounted    // pending lowered, slot not yet released
    | Released

  datatype Sys = Sys(capacity: nat, permits: int, pending: int, stage: map<Job, Stage>)

  function Start(capacity: nat): Sys {
    Sys(capacity, capacity, 0, map[])
  }

  /** How many jobs are at a stage that `p` accepts. */
  ghost function Those(stage: map<Job, Stage>, p: Stage -> bool): set<Job> {
    set j | j in stage && p(stage[j])
  }

  predicate HoldsSlot(s: Stage) {
    !s.Released?
  }

  predicate IsPending(s: Stage) {
    s.Counted? || s.Queued? || s.Running? || s.Ended? || s.Refused?
  }

  predicate IsRunning(s: Stage) {
    s.Running?
  }

  datatype Step =
    | Acquire(j: Job)     // the semaphore grants a slot
    | GiveBack(j: Job)    // the participant had no intents
    | Count(j: Job)       // pending is raised under the lock
    | Enqueue(j: Job)     // the pool takes the job
    | Refuse(j: Job)      // the pool raises instead
    | Begin(j: Job)
    | End(j: Job)
    | Uncount(j: Job)     // pending is lowered under the lock
    | Release(j: Job)

  ghost predicate Possible(s: Sys, step: Step) {
    match step
    case Acquire(j) => s.permits > 0 && j !in s.stage
    case GiveBack(j) => j in s.stage && s.stage[j] == Held
    case Count(j) => j in s.stage && s.stage[j] == Held
    case Enqueue(j) => j in s.stage && s.stage[j] == Counted
    case Refuse(j) => j in s.stage && s.stage[j] == Counted
    case Begin(j) => j in s.stage && s.stage[j] == Queued
    case End(j) => j in s.stage && s.stage[j] == Running
    case Uncount(j) => j in s.stage && (s.stage[j] == Ended || s.stage[j] == Refused)
    case Release(j) => j in s.stage && s.stage[j] == Uncounted
  }

  function Moved(s: Sys, j: Job, stage: Stage): Sys {
    s.(stage := s.stage[j := stage])
  }

  function Do(s: Sys, step: Step): Sys {
    match step
    case Acquire(j) => Moved(s, j, Held).(permits := s.permits - 1)
    case GiveBack(j) => Moved(s, j, Released).(permits := s.permits + 1)
    case Count(j) => Moved(s, j, Counted).(pending := s.pending + 1)
    case Enqueue(j) => Moved(s, j, Queued)
    case Refuse(j) => Moved(s, j, Refused)
    case Begin(j) => Moved(s, j, Running)
    case End(j) => Moved(s, j, Ended)
    case Uncount(j) => Moved(s, j, Uncounted).(pending := s.pending - 1)
    case Release(j) => Moved(s, j, Released).(permits := s.permits + 1)
  }

  /** The semaphore and the counter say exactly how many slots are out and how many jobs are pending. */
  ghost predicate Inv(s: Sys) {
    && s.permits >= 0
    && s.permits + |Those(s.stage, HoldsSlot)| == s.capacity
    && s.pending == |Those(s.stage, IsPending)|
  }

  function One(b: bool): int {
    if b then 1 else 0
  }

  /** Moving one job changes a count by what it was and what it is. */
  lemma {:induction false} Recount(stage: map<Job, Stage>, j: Job, to: Stage, p: Stage -> bool)
    ensures |Those(stage[j := to], p)| == |Those(stage, p)| - One(j in stage && p(stage[j])) + One(p(to))
  {
    var a, b := Those(stage, p), Those(stage[j := to], p);
    assert j in a <==> j in stage && p(stage[j]);
    assert j in b <==> p(to);
    assert b - {j} == a - {j};
    hide Those;
    SizeWithout(a, j);
    SizeWithout(b, j);
  }

  lemma {:induction false} SizeWithout(a: set<Job>, j: Job)
    ensures |a| == |a - {j}| + One(j in a)
  {
    if j in a {
      assert a == (a - {j}) + {j};
    } else {
      assert a == a - {j};
    }
  }

  lemma {:induction false} StepKeeps(s: Sys, step: Step)
    requires Inv(s) && Possible(s, step)
    ensures Inv(Do(s, step))
  {
    hide Those;
    var s' := Do(s, step);
    var j := step.j;
    Recount(s.stage, j, s'.stage[j], HoldsSlot);
    Recount(s.stage, j, s'.stage[j], IsPending);
  }

  ghost predicate Run(s: Sys, steps: seq<Step>, s': Sys)
    decreases |steps|
  {
    if steps == [] then s' == s else Possible(s, steps[0]) && Run(Do(s, steps[0]), steps[1..], s')
  }

  lemma {:induction false} RunKeeps(s: Sys, steps: seq<Step>, s': Sys)
    requires Inv(s) && Run(s, steps, s')
    ensures Inv(s') && s'.capacity == s.capacity
    decreases |steps|
  {
    if steps != [] {
      hide Inv;
      StepKeeps(s, steps[0]);
      RunKeeps(Do(s, steps[0]), steps[1..], s');
    }
  }

  lemma {:induction false} StartOk(capacity: nat)
    ensures Inv(Start(capacity))
  {
    assert Those(map[], HoldsSlot) == {};
    assert Those(map[], IsPending) == {};
  }

  /** At every moment: running jobs, pending jobs, slots out, the limit, in that order. */
  lemma {:induction false} WithinTheLimit(capacity: nat, steps: seq<Step>, s: Sys)
    requires Run(Start(capacity), steps, s)
    ensures |Those(s.stage, IsRunning)| <= s.pending <= |Those(s.stage, HoldsSlot)| <= capacity
    ensures s.pending == capacity ==> s.permits == 0
  {
    StartOk(capacity);
    RunKeeps(Start(capacity), steps, s);
    SubsetSize(Those(s.stage, IsRunning), Those(s.stage, IsPending));
    SubsetSize(Those(s.stage, IsPending), Those(s.stage, HoldsSlot));
  }

  /** When nothing is pending, nothing runs or waits to run: what an idle wait relies on. */
  lemma {:induction false} IdleMeansIdle(capacity: nat, steps: seq<Step>, s: Sys, j: Job)
    requires Run(Start(capacity), steps, s) && s.pending == 0 && j in s.stage
    ensures !IsPending(s.stage[j])
  {
    StartOk(capacity);
    RunKeeps(Start(capacity), steps, s);
    assert j !in Those(s.stage, IsPending);
  }

  /** All slots are back exactly when every job has released its own. */
  lemma {:induction false} AllBack(capacity: nat, steps: seq<Step>, s: Sys)
    requires Run(Start(capacity), steps, s)
    ensures s.permits == capacity <==> forall j | j in s.stage :: s.stage[j] == Released
  {
    StartOk(capacity);
    RunKeeps(Start(capacity), steps, s);
    if s.permits == capacity {
      forall j | j in s.stage
        ensures s.stage[j] == Released
      {
        assert j !in Those(s.stage, HoldsSlot);
      }
    } else {
      assert Those(s.stage, HoldsSlot) != {};
      var j :| j in Those(s.stage, HoldsSlot);
    }
  }

  /** The releases of job j in a run. */
  function Releases(steps: seq<Step>, j: Job): nat {
    if steps == [] then 0
    else (if steps[0] == Release(j) || steps[0] == GiveBack(j) then 1 else 0) + Releases(steps[1..], j)
  }

  function Acquires(steps: seq<Step>, j: Job): nat {
    if steps == [] then 0 else (if steps[0] == Acquire(j) then 1 else 0) + Acquires(steps[1..], j)
  }

  /** Each acquired slot is released at most once, and exactly once when its job is done with. */
  lemma {:induction false} ReleasedOnce(s: Sys, steps: seq<Step>, s': Sys, j: Job)
    requires Run(s, steps, s')
    ensures j in s.stage ==>
              && j in s'.stage && Acquires(steps, j) == 0
              && Releases(steps, j) == One(s'.stage[j] == Released) - One(s.stage[j] == Released)
    ensures j !in s.stage ==>
              && Acquires(steps, j) == One(j in s'.stage)
              && Releases(steps, j) == One(j in s'.stage && s'.stage[j] == Released)
    decreases |steps|
  {
    if steps != [] {
      ReleasedOnce(Do(s, steps[0]), steps[1..], s', j);
    }
  }

  // ----- Progress -----

  /** How many steps a job takes at most from here. */
  function StepsLeft(s: Stage): nat {
    match s
    case Held => 6
    case Counted => 5
    case Queued => 4
    case Running => 3
    case Ended => 2
    case Refused => 2
    case Uncounted => 1
    case Released => 0
  }

  function AtLeast(k: nat): Stage -> bool {
    (s: Stage) => StepsLeft(s) >= k
  }

  /** The steps left over all jobs, counted by how many jobs have at least k of them. */
  ghost function LeftUpTo(stage: map<Job, Stage>, k: nat): nat {
    if k == 0 then 0 else LeftUpTo(stage, k - 1) + |Those(stage, AtLeast(k))|
  }

  ghost function Left(s: Sys): nat {
    LeftUpTo(s.stage, 6)
  }

  function Least(a: nat, b: nat): nat {
    if a <= b then a else b
  }

  lemma {:induction false} LeftMoves(stage: map<Job, Stage>, j: Job, to: Stage, k: nat)
    ensures LeftUpTo(stage[j := to], k) ==
              LeftUpTo(stage, k) - (if j in stage then Least(StepsLeft(stage[j]), k) else 0) + Least(StepsLeft(to), k)
  {
    hide Those, StepsLeft;
    if k > 0 {
      LeftMoves(stage, j, to, k - 1);
      Recount(stage, j, to, AtLeast(k));
    }
  }

  /** An acquired slot brings six steps; every other step uses up at least one. */
  lemma {:induction false} StepDescends(s: Sys, step: Step)
    requires Possible(s, step)
    ensures if step.Acquire? then Left(Do(s, step)) == Left(s) + 6 else Left(Do(s, step)) < Left(s)
  {
    hide LeftUpTo;
    LeftMoves(s.stage, step.j, Do(s, step).stage[step.j], 6);
  }

  function Acquired(steps: seq<Step>): nat {
    if steps == [] then 0 else (if steps[0].Acquire? then 1 else 0) + Acquired(steps[1..])
  }

  lemma {:induction false} RunIsBounded(s: Sys, steps: seq<Step>, s': Sys)
    requires Run(s, steps, s')
    ensures |steps| + Left(s') <= Left(s) + 7 * Acquired(steps)
    decreases |steps|
  {
    hide Left, Possible, Do;
    if steps != [] {
      StepDescends(s, steps[0]);
      RunIsBounded(Do(s, steps[0]), steps[1..], s');
    }
  }

  /** The next step of a job whose slot is out. */
  function Next(s: Sys, j: Job): Step
    requires j in s.stage && s.stage[j] != Released
  {
    match s.stage[j]
    case Held => GiveBack(j)
    case Counted => Enqueue(j)
    case Queued => Begin(j)
    case Running => End(j)
    case Uncounted => Release(j)
    case _ => Uncount(j)
  }

  /**
   Any run takes at most seven steps per slot it acquires. When only another acquisition
   could follow, every slot is back and nothing is pending; and conversely.
   */
  lemma {:induction false} EverySlotComesBack(capacity: nat, steps: seq<Step>, s: Sys)
    requires Run(Start(capacity), steps, s)
    ensures |steps| <= 7 * Acquired(steps)
    ensures (forall step | Possible(s, step) :: step.Acquire?) <==> s.permits == capacity
    ensures s.permits == capacity ==> s.pending == 0
  {
    hide Those;
    RunIsBounded(Start(capacity), steps, s);
    NothingLeft(capacity);
    AllBack(capacity, steps, s);
    WithinTheLimit(capacity, steps, s);
    StartOk(capacity);
    RunKeeps(Start(capacity), steps, s);
    forall j | j in s.stage && s.stage[j] != Released
      ensures Possible(s, Next(s, j)) && !Next(s, j).Acquire?
    {
    }
  }

  lemma NothingLeft(capacity: nat)
    ensures Left(Start(capacity)) == 0
  {
    assert forall k: nat :: Those(map[], AtLeast(k)) == {};
  }
}

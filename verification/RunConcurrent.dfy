/** The bounded task runner as a state machine. The dispatching goroutine adds to the wait
    group, takes a slot of the semaphore channel and launches one goroutine per task; each
    task goroutine runs its task, then gives its slot back, then signals the wait group.
    Any enabled step may be taken next. */
module RunConcurrent {
  datatype Dispatcher = Adding(task: nat) | Acquiring(task: nat) | Launching(task: nat) | Waiting | Returned

  datatype Stage = Unborn | Launched | Running | Finished | Released | Done

  /** slots is the number of values in the channel; runs counts completed runs of each task. */
  datatype State = State(main: Dispatcher, stages: seq<Stage>, slots: nat, pending: nat, runs: seq<nat>)

  datatype Step = Add | Acquire | Launch | Return | Begin(k: nat) | Finish(k: nat) | Release(k: nat) | Signal(k: nat)

  function Limit(maxConcurrent: int): (limit: nat)
    ensures limit >= 1 && limit >= maxConcurrent
  {
    if maxConcurrent < 1 then 1 else maxConcurrent
  }

  /** The dispatcher once it is about to take up task i of n. */
  function From(i: nat, n: nat): Dispatcher {
    if i < n then Adding(i) else Waiting
  }

  function Init(n: nat): State {
    State(From(0, n), seq(n, _ => Unborn), 0, 0, seq(n, _ => 0))
  }

  predicate At(s: State, k: nat, stage: Stage) {
    k < |s.stages| && s.stages[k] == stage
  }

  predicate Enabled(s: State, step: Step, limit: nat) {
    match step
    case Add => s.main.Adding?
    case Acquire => s.main.Acquiring? && s.slots < limit
    case Launch => s.main.Launching? && At(s, s.main.task, Unborn)
    case Return => s.main.Waiting? && s.pending == 0
    case Begin(k) => At(s, k, Launched)
    case Finish(k) => At(s, k, Running) && k < |s.runs|
    case Release(k) => At(s, k, Finished) && s.slots > 0
    case Signal(k) => At(s, k, Released) && s.pending > 0
  }

  function Next(s: State, step: Step, limit: nat): State
    requires Enabled(s, step, limit)
  {
    match step
    case Add => s.(main := Acquiring(s.main.task), pending := s.pending + 1)
    case Acquire => s.(main := Launching(s.main.task), slots := s.slots + 1)
    case Launch => s.(main := From(s.main.task + 1, |s.stages|), stages := s.stages[s.main.task := Launched])
    case Return => s.(main := Returned)
    case Begin(k) => s.(stages := s.stages[k := Running])
    case Finish(k) => s.(stages := s.stages[k := Finished], runs := s.runs[k := s.runs[k] + 1])
    case Release(k) => s.(stages := s.stages[k := Released], slots := s.slots - 1)
    case Signal(k) => s.(stages := s.stages[k := Done], pending := s.pending - 1)
  }

  ghost predicate IsRun(s: State, steps: seq<Step>, limit: nat, end: State)
    decreases |steps|
  {
    if steps == [] then s == end
    else Enabled(s, steps[0], limit) && IsRun(Next(s, steps[0], limit), steps[1..], limit, end)
  }

  // ----- sums over the stages -----

  datatype Weight = Slot | Group | Work | Active

  function Weigh(w: Weight, stage: Stage): nat {
    match w
    case Slot => if stage.Launched? || stage.Running? || stage.Finished? then 1 else 0
    case Group => if stage.Unborn? || stage.Done? then 0 else 1
    case Active => if stage.Running? then 1 else 0
    case Work => match stage case Unborn => 7 case Launched => 4 case Running => 3 case Finished => 2 case Released => 1 case Done => 0
  }

  function Sum(w: Weight, stages: seq<Stage>): nat {
    if stages == [] then 0 else Sum(w, stages[..|stages| - 1]) + Weigh(w, stages[|stages| - 1])
  }

  lemma {:induction false} SumUpdate(w: Weight, stages: seq<Stage>, k: nat, stage: Stage)
    requires k < |stages|
    ensures Sum(w, stages[k := stage]) == Sum(w, stages) - Weigh(w, stages[k]) + Weigh(w, stage)
  {
    var n := |stages| - 1;
    if k == n {
      assert stages[k := stage][..n] == stages[..n];
    } else {
      assert stages[k := stage][..n] == stages[..n][k := stage];
      SumUpdate(w, stages[..n], k, stage);
    }
  }

  lemma {:induction false} SumUnborn(w: Weight, stages: seq<Stage>)
    requires forall i :: 0 <= i < |stages| ==> stages[i] == Unborn
    ensures Sum(w, stages) == |stages| * Weigh(w, Unborn)
  {
    if stages != [] {
      SumUnborn(w, stages[..|stages| - 1]);
    }
  }

  lemma {:induction false} SumZero(w: Weight, stages: seq<Stage>)
    requires Sum(w, stages) == 0
    ensures forall i :: 0 <= i < |stages| ==> Weigh(w, stages[i]) == 0
  {
    if stages != [] {
      SumZero(w, stages[..|stages| - 1]);
    }
  }

  lemma {:induction false} ActiveHoldASlot(stages: seq<Stage>)
    ensures Sum(Active, stages) <= Sum(Slot, stages)
  {
    if stages != [] {
      ActiveHoldASlot(stages[..|stages| - 1]);
    }
  }

  // ----- the invariant -----

  predicate HasRun(stage: Stage) {
    stage.Finished? || stage.Released? || stage.Done?
  }

  /** The first task the dispatcher has not launched. */
  function Launchable(s: State): nat {
    if s.main.Waiting? || s.main.Returned? then |s.stages| else s.main.task
  }

  ghost predicate Inv(s: State, limit: nat) {
    && |s.runs| == |s.stages|
    && (s.main.Waiting? || s.main.Returned? || s.main.task < |s.stages|)
    && s.slots == Sum(Slot, s.stages) + (if s.main.Launching? then 1 else 0)
    && s.pending == Sum(Group, s.stages) + (if s.main.Acquiring? || s.main.Launching? then 1 else 0)
    && s.slots <= limit
    && (forall k :: 0 <= k < |s.stages| ==> (s.stages[k] == Unborn <==> k >= Launchable(s)))
    && (forall k :: 0 <= k < |s.stages| ==> s.runs[k] == if HasRun(s.stages[k]) then 1 else 0)
    && (s.main.Returned? ==> s.pending == 0)
  }

  lemma InitInv(n: nat, limit: nat)
    ensures Inv(Init(n), limit)
  {
    SumUnborn(Slot, Init(n).stages);
    SumUnborn(Group, Init(n).stages);
  }

  lemma DispatcherStepInv(s: State, step: Step, limit: nat)
    requires Inv(s, limit) && Enabled(s, step, limit) && (step.Add? || step.Acquire? || step.Launch? || step.Return?)
    ensures Inv(Next(s, step, limit), limit)
  {
    if step.Launch? {
      SumUpdate(Slot, s.stages, s.main.task, Launched);
      SumUpdate(Group, s.stages, s.main.task, Launched);
    }
  }

  lemma TaskMoves(s: State, k: nat, stage: Stage, s': State, limit: nat)
    requires Inv(s, limit) && k < |s.stages| && !s.stages[k].Unborn? && !stage.Unborn? && !s.main.Returned?
    requires s'.main == s.main && s'.stages == s.stages[k := stage]
    requires s'.slots == s.slots - Weigh(Slot, s.stages[k]) + Weigh(Slot, stage) <= limit
    requires s'.pending == s.pending - Weigh(Group, s.stages[k]) + Weigh(Group, stage)
    requires s'.runs == s.runs[k := if HasRun(stage) then 1 else 0]
    ensures Inv(s', limit)
  {
    SumUpdate(Slot, s.stages, k, stage);
    SumUpdate(Group, s.stages, k, stage);
  }

  lemma TaskStepInv(s: State, step: Step, limit: nat)
    requires Inv(s, limit) && Enabled(s, step, limit) && (step.Begin? || step.Finish? || step.Release? || step.Signal?)
    ensures Inv(Next(s, step, limit), limit)
  {
    var s' := Next(s, step, limit);
    SumHas(Group, s.stages, step.k);
    match step
    case Begin(k) => TaskMoves(s, k, Running, s', limit);
    case Finish(k) => TaskMoves(s, k, Finished, s', limit);
    case Release(k) => TaskMoves(s, k, Released, s', limit);
    case Signal(k) => TaskMoves(s, k, Done, s', limit);
  }

  lemma StepInv(s: State, step: Step, limit: nat)
    requires Inv(s, limit) && Enabled(s, step, limit)
    ensures Inv(Next(s, step, limit), limit)
  {
    if step.Add? || step.Acquire? || step.Launch? || step.Return? {
      DispatcherStepInv(s, step, limit);
    } else {
      TaskStepInv(s, step, limit);
    }
  }

  // ----- how much is left to do -----

  /** The number of steps still to come. */
  function Left(s: State): int {
    Sum(Work, s.stages) + (match s.main case Returned => 0 case Acquiring(_) => 0 case Launching(_) => -1 case _ => 1)
  }

  lemma DispatcherStepLeavesOneLess(s: State, step: Step, limit: nat)
    requires Inv(s, limit) && Enabled(s, step, limit) && (step.Add? || step.Acquire? || step.Launch? || step.Return?)
    ensures Left(Next(s, step, limit)) == Left(s) - 1
  {
    if step.Launch? {
      SumUpdate(Work, s.stages, s.main.task, Launched);
    }
  }

  lemma TaskStepLeavesOneLess(s: State, step: Step, limit: nat)
    requires Enabled(s, step, limit) && (step.Begin? || step.Finish? || step.Release? || step.Signal?)
    ensures Left(Next(s, step, limit)) == Left(s) - 1
  {
    var stage := match step case Begin(_) => Running case Finish(_) => Finished case Release(_) => Released case _ => Done;
    SumUpdate(Work, s.stages, step.k, stage);
    assert Next(s, step, limit).stages == s.stages[step.k := stage] && Next(s, step, limit).main == s.main;
  }

  lemma StepLeavesOneLess(s: State, step: Step, limit: nat)
    requires Inv(s, limit) && Enabled(s, step, limit)
    ensures Left(Next(s, step, limit)) == Left(s) - 1
  {
    if step.Add? || step.Acquire? || step.Launch? || step.Return? {
      DispatcherStepLeavesOneLess(s, step, limit);
    } else {
      TaskStepLeavesOneLess(s, step, limit);
    }
  }

  lemma {:induction false} RunFrom(s: State, steps: seq<Step>, limit: nat, end: State)
    requires Inv(s, limit) && IsRun(s, steps, limit, end)
    ensures Inv(end, limit) && |end.stages| == |s.stages| && Left(end) == Left(s) - |steps|
    decreases |steps|
  {
    if steps != [] {
      StepInv(s, steps[0], limit);
      StepLeavesOneLess(s, steps[0], limit);
      RunFrom(Next(s, steps[0], limit), steps[1..], limit, end);
    }
  }

  lemma Reached(n: nat, steps: seq<Step>, limit: nat, s: State)
    requires IsRun(Init(n), steps, limit, s)
    ensures Inv(s, limit) && |s.stages| == n && Left(s) == 7 * n + 1 - |steps|
  {
    InitInv(n, limit);
    SumUnborn(Work, Init(n).stages);
    RunFrom(Init(n), steps, limit, s);
  }

  // ----- the results -----

  /** At most max(1, maxConcurrent) tasks are running in any reachable state. */
  lemma AtMostLimitRunning(n: nat, maxConcurrent: int, steps: seq<Step>, s: State)
    requires IsRun(Init(n), steps, Limit(maxConcurrent), s)
    ensures Sum(Active, s.stages) <= Limit(maxConcurrent)
  {
    Reached(n, steps, Limit(maxConcurrent), s);
    ActiveHoldASlot(s.stages);
  }

  /** On return every task has run exactly once, every slot is free and nothing is pending. */
  lemma EachTaskRanOnce(n: nat, maxConcurrent: int, steps: seq<Step>, s: State)
    requires IsRun(Init(n), steps, Limit(maxConcurrent), s) && s.main.Returned?
    ensures s.runs == seq(n, _ => 1) && s.slots == 0 && s.pending == 0
  {
    Reached(n, steps, Limit(maxConcurrent), s);
    SumZero(Group, s.stages);
    AllDone(s, Limit(maxConcurrent));
  }

  lemma AllDone(s: State, limit: nat)
    requires Inv(s, limit) && s.main.Returned?
    ensures forall k :: 0 <= k < |s.stages| ==> s.stages[k] == Done
    ensures Sum(Slot, s.stages) == 0 && Sum(Work, s.stages) == 0
  {
    SumZero(Group, s.stages);
    SumDone(Slot, s.stages);
    SumDone(Work, s.stages);
  }

  lemma {:induction false} SumDone(w: Weight, stages: seq<Stage>)
    requires forall i :: 0 <= i < |stages| ==> stages[i] == Done
    ensures Sum(w, stages) == 0
  {
    if stages != [] {
      SumDone(w, stages[..|stages| - 1]);
    }
  }

  ghost predicate CanStep(s: State, limit: nat, stuck: set<nat>) {
    exists step :: Enabled(s, step, limit) && !(step.Finish? && step.k in stuck)
  }

  /** Nothing else can be done once only stuck tasks and the dispatcher's final wait are left. */
  predicate OnlyStuckLeft(s: State, stuck: set<nat>) {
    s.main.Waiting? && forall k :: 0 <= k < |s.stages| ==> s.stages[k] == Done || (s.stages[k] == Running && k in stuck)
  }

  lemma {:induction false} StuckSlots(stages: seq<Stage>, stuck: set<nat>)
    requires forall k :: 0 <= k < |stages| ==> Weigh(Slot, stages[k]) == 0 || k in stuck
    ensures Sum(Slot, stages) <= |stuck|
  {
    if stages != [] {
      var n := |stages| - 1;
      if n in stuck {
        StuckSlots(stages[..n], stuck - {n});
      } else {
        StuckSlots(stages[..n], stuck);
      }
    }
  }

  /** While fewer tasks than slots are stuck, every other task keeps going: some step other than
      the end of a stuck task is possible until only stuck tasks remain. */
  lemma StuckTasksDoNotBlockOthers(n: nat, maxConcurrent: int, steps: seq<Step>, s: State, stuck: set<nat>)
    requires IsRun(Init(n), steps, Limit(maxConcurrent), s) && |stuck| < Limit(maxConcurrent)
    ensures CanStep(s, Limit(maxConcurrent), stuck) || s.main.Returned? || (OnlyStuckLeft(s, stuck) && stuck != {})
  {
    var limit := Limit(maxConcurrent);
    Reached(n, steps, limit, s);
    if k :| 0 <= k < n && !s.stages[k].Unborn? && !s.stages[k].Done? && !(s.stages[k] == Running && k in stuck) {
      TaskCanStep(s, limit, stuck, k);
    } else {
      DispatcherCanStep(s, limit, stuck);
    }
  }

  lemma {:induction false} SumHas(w: Weight, stages: seq<Stage>, k: nat)
    requires k < |stages|
    ensures Sum(w, stages) >= Weigh(w, stages[k])
  {
    if k < |stages| - 1 {
      SumHas(w, stages[..|stages| - 1], k);
    }
  }

  lemma TaskCanStep(s: State, limit: nat, stuck: set<nat>, k: nat)
    requires Inv(s, limit) && k < |s.stages|
    requires !s.stages[k].Unborn? && !s.stages[k].Done? && !(s.stages[k] == Running && k in stuck)
    ensures CanStep(s, limit, stuck)
  {
    SumHas(Slot, s.stages, k);
    SumHas(Group, s.stages, k);
    match s.stages[k]
    case Launched => assert Enabled(s, Begin(k), limit);
    case Running => assert Enabled(s, Finish(k), limit);
    case Finished => assert Enabled(s, Release(k), limit);
    case Released => assert Enabled(s, Signal(k), limit);
  }

  lemma DispatcherCanStep(s: State, limit: nat, stuck: set<nat>)
    requires Inv(s, limit) && |stuck| < limit
    requires forall k :: 0 <= k < |s.stages| ==> s.stages[k].Unborn? || s.stages[k].Done? || (s.stages[k] == Running && k in stuck)
    ensures CanStep(s, limit, stuck) || s.main.Returned? || (OnlyStuckLeft(s, stuck) && stuck != {})
  {
    StuckSlots(s.stages, stuck);
    match s.main
    case Adding(_) => assert Enabled(s, Add, limit);
    case Acquiring(_) => assert Enabled(s, Acquire, limit);
    case Launching(_) => assert Enabled(s, Launch, limit);
    case Returned =>
    case Waiting =>
      if stuck == {} {
        SumDone(Group, s.stages);
        assert Enabled(s, Return, limit);
      }
  }

  /** When every task terminates no state before the return is stuck, and every schedule is finite
      and of the same length: a run has returned exactly when it has taken 7n + 1 steps. */
  lemma EveryScheduleReturns(n: nat, maxConcurrent: int, steps: seq<Step>, s: State)
    requires IsRun(Init(n), steps, Limit(maxConcurrent), s)
    ensures !s.main.Returned? <==> CanStep(s, Limit(maxConcurrent), {})
    ensures |steps| <= 7 * n + 1
    ensures s.main.Returned? <==> |steps| == 7 * n + 1
  {
    var limit := Limit(maxConcurrent);
    Reached(n, steps, limit, s);
    StuckTasksDoNotBlockOthers(n, maxConcurrent, steps, s, {});
    if s.main.Returned? {
      AllDone(s, limit);
    } else {
      MoreToDo(s, limit);
    }
  }

  lemma MoreToDo(s: State, limit: nat)
    requires Inv(s, limit) && !s.main.Returned?
    ensures Left(s) > 0
  {
  }

  // ----- splitting ids into batches -----

  ghost function Concat(chunks: seq<seq<string>>): seq<string> {
    if chunks == [] then [] else Concat(chunks[..|chunks| - 1]) + chunks[|chunks| - 1]
  }

  /** Splits ids, in order, into groups of max(1, size); only the last may be smaller, none is empty. */
  method Chunk(ids: seq<string>, size: int) returns (chunks: seq<seq<string>>)
    ensures Concat(chunks) == ids
    ensures forall i :: 0 <= i < |chunks| ==> 1 <= |chunks[i]| <= Limit(size)
    ensures forall i :: 0 <= i < |chunks| - 1 ==> |chunks[i]| == Limit(size)
  {
    chunks := [];
    if |ids| == 0 {
      return;
    }
    var group := if size <= 0 then 1 else size;
    var i := 0;
    while i < |ids|
      invariant 0 <= i && Concat(chunks) == ids[..if i < |ids| then i else |ids|]
      invariant forall j :: 0 <= j < |chunks| ==> 1 <= |chunks[j]| <= group
      invariant forall j :: 0 <= j < |chunks| - (if i <= |ids| then 0 else 1) ==> |chunks[j]| == group
      invariant i > |ids| ==> chunks != []
    {
      var end := if i + group < |ids| then i + group else |ids|;
      ghost var was := chunks;
      chunks := chunks + [ids[i..end]];
      assert chunks[..|chunks| - 1] == was;
      assert ids[..i] + ids[i..end] == ids[..end];
      i := i + group;
    }
    assert ids[..|ids|] == ids;
  }
}

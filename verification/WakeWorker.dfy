/**
 The background worker base (controllers/_wake_worker.py): a pending set, a wake
 event, an idle event and a start/stop lifecycle, run on one event loop.

 A step below is one stretch of code between two awaits; steps of requesters,
 stoppers and worker tasks interleave freely.  `request` and `start` are single
 steps; `stop` is two (cancel, then resume once the awaited task is done).
 Both subclasses queue file names.
 */
module WakeWorker {
  import opened Optional

  type Item = string
  type TaskId = nat

  /** Where a worker task stands.  `batch` is the set object its drain swapped out. */
  datatype Phase =
    | Created
    | Starting
    | Waiting
    | Draining(batch: set<Item>, busy: Option<Item>)
    | Finished

  datatype Loop = Loop(phase: Phase, cancelled: bool)

  /**
   `owner` names the task whose `batch` the field `_draining` refers to, `None`
   for a set nobody iterates.  `stops` holds the awaited task of every `stop` call in flight.
   */
  datatype State = State(
    pending: set<Item>, owner: Option<TaskId>, wake: bool, idle: bool,
    task: Option<TaskId>, loops: map<TaskId, Loop>, stops: map<nat, TaskId>)

  function Init(): State {
    State({}, None, false, true, None, map[], map[])
  }

  function DrainingSet(s: State): set<Item> {
    if s.owner.Some? && s.owner.value in s.loops && s.loops[s.owner.value].phase.Draining?
    then s.loops[s.owner.value].phase.batch else {}
  }

  predicate Live(s: State, id: TaskId) {
    id in s.loops && !s.loops[id].phase.Finished?
  }

  predicate Spawns(s: State) {
    s.task.None? || !Live(s, s.task.value)
  }

  datatype Step =
    | Request(item: Item)
    | Start(id: TaskId)
    | StopBegin(call: nat)
    | StopEnd(call: nat)
    | Begin(id: TaskId)
    | StartDone(id: TaskId)
    | Wake(id: TaskId)
    | Swap(id: TaskId)
    | Take(id: TaskId, item: Item)
    | TakePending(id: TaskId, item: Item)
    | CycleEnd(id: TaskId)
    | Die(id: TaskId)

  predicate Enabled(s: State, step: Step) {
    match step
    case Request(_) => true
    case Start(id) => id !in s.loops
    case StopBegin(call) => call !in s.stops
    case StopEnd(call) => call in s.stops && s.stops[call] in s.loops && s.loops[s.stops[call]].phase.Finished?
    case Begin(id) => id in s.loops && s.loops[id] == Loop(Created, false)
    case StartDone(id) => id in s.loops && s.loops[id] == Loop(Starting, false)
    case Wake(id) => id in s.loops && s.loops[id] == Loop(Waiting, false) && s.wake
    case Swap(id) => id in s.loops && s.loops[id].phase == Phase.Draining({}, None) && !s.loops[id].cancelled
    case Take(id, x) => id in s.loops && s.loops[id].phase.Draining? && x in s.loops[id].phase.batch
      && !s.loops[id].cancelled
    case TakePending(id, x) => id in s.loops && s.loops[id].phase.Draining? && x in s.pending && !s.loops[id].cancelled
    case CycleEnd(id) => id in s.loops && s.loops[id].phase.Draining? && !s.loops[id].cancelled
    case Die(id) => Live(s, id)
  }

  function SetPhase(s: State, id: TaskId, phase: Phase): State
    requires id in s.loops
  {
    s.(loops := s.loops[id := s.loops[id].(phase := phase)])
  }

  /** The cycle's `finally`: re-queue what was not processed, then set idle or re-arm the wake. */
  function Requeue(s: State): State {
    var pending := s.pending + DrainingSet(s);
    if pending == {} then s.(pending := pending, owner := None, idle := true)
    else s.(pending := pending, owner := None, wake := true)
  }

  function Apply(s: State, step: Step): State
    requires Enabled(s, step)
  {
    match step
    case Request(x) =>
      if x in DrainingSet(s) then s else s.(pending := s.pending + {x}, idle := false, wake := true)
    case Start(id) =>
      if Spawns(s) then s.(idle := false, task := Some(id), loops := s.loops[id := Loop(Created, false)]) else s
    case StopBegin(call) =>
      if s.task.None? then s
      else if Live(s, s.task.value) then
        s.(loops := s.loops[s.task.value := s.loops[s.task.value].(cancelled := true)],
           stops := s.stops[call := s.task.value])
      else s.(task := None, idle := true)
    case StopEnd(call) => s.(stops := s.stops - {call}, task := None, idle := true)
    case Begin(id) => SetPhase(s, id, Starting)
    case StartDone(id) => SetPhase(s.(idle := s.idle || s.pending == {}), id, Waiting)
    case Wake(id) => SetPhase(s.(wake := false), id, Phase.Draining({}, None))
    case Swap(id) => SetPhase(s.(pending := {}, owner := Some(id)), id, Phase.Draining(s.pending, None))
    case Take(id, x) => SetPhase(s, id, Phase.Draining(s.loops[id].phase.batch - {x}, Some(x)))
    case TakePending(id, x) => SetPhase(s.(pending := s.pending - {x}), id, s.loops[id].phase.(busy := Some(x)))
    case CycleEnd(id) => SetPhase(Requeue(s), id, Waiting)
    case Die(id) => SetPhase(if s.loops[id].phase.Draining? then Requeue(s) else s, id, Finished)
  }

  // ----- Runs -----

  ghost predicate IsRun(states: seq<State>, steps: seq<Step>) {
    && |states| == |steps| + 1
    && states[0] == Init()
    && forall i {:trigger steps[i]} :: 0 <= i < |steps| ==>
      Enabled(states[i], steps[i]) && states[i + 1] == Apply(states[i], steps[i])
  }

  /** The one discipline the class needs: no `start` spawns a task while a `stop` is still awaiting one. */
  predicate Clean(s: State, step: Step) {
    step.Start? && Spawns(s) ==> s.stops == map[]
  }

  ghost predicate CleanRun(states: seq<State>, steps: seq<Step>) {
    IsRun(states, steps) && forall i {:trigger steps[i]} :: 0 <= i < |steps| ==> Clean(states[i], steps[i])
  }

  predicate Pops(step: Step, x: Item) {
    (step.Take? || step.TakePending?) && step.item == x
  }

  // ----- The invariant of clean runs -----

  ghost predicate OneWorker(s: State) {
    && (s.task.Some? ==> s.task.value in s.loops)
    && (forall id: TaskId :: Live(s, id) ==> s.task == Some(id))
    && (forall call: nat :: call in s.stops ==>
      s.stops[call] in s.loops && (s.task.None? || s.task == Some(s.stops[call])))
  }

  ghost predicate BatchIsDraining(s: State) {
    && (s.owner.Some? ==> Live(s, s.owner.value) && s.loops[s.owner.value].phase.Draining?)
    && (forall id: TaskId :: id in s.loops && s.loops[id].phase.Draining? && s.loops[id].phase.batch != {} ==>
      s.owner == Some(id))
  }

  ghost predicate InCycle(s: State) {
    exists id: TaskId :: id in s.loops && s.loops[id].phase.Draining?
  }

  ghost predicate Quiet(s: State) {
    s.pending == {} && DrainingSet(s) == {} &&
    forall id: TaskId :: id in s.loops && s.loops[id].phase.Draining? ==> s.loops[id].phase.busy.None?
  }

  ghost predicate Inv(s: State) {
    && OneWorker(s)
    && BatchIsDraining(s)
    && s.pending !! DrainingSet(s)
    && (!InCycle(s) ==> DrainingSet(s) == {} && (s.pending != {} ==> s.wake))
    && (s.task.Some? && s.idle ==> Quiet(s))
    && Rested(s)
  }

  /**
   A worker back at its wait, or one that was stopped, leaves nobody waiting for
   nothing; a worker that has not come up keeps them waiting.
   */
  ghost predicate Rested(s: State) {
    && (s.task.None? && s.pending == {} ==> s.idle)
    && (forall id: TaskId :: id in s.loops && s.loops[id].phase.Waiting? && s.pending == {} ==> s.idle)
    && (forall id: TaskId :: id in s.loops && (s.loops[id].phase.Created? || s.loops[id].phase.Starting?) ==> !s.idle)
  }

  /** A step changes at most the phase of the one task it names, or adds or cancels one. */
  lemma OthersKept(s: State, step: Step, id: TaskId)
    requires Inv(s) && Enabled(s, step) && id in Apply(s, step).loops
    ensures (id in s.loops && Apply(s, step).loops[id].phase == s.loops[id].phase) || (step == Start(id) && Spawns(s))
         || (!step.Request? && !step.StopBegin? && !step.StopEnd? && !step.Start? && step.id == id && Live(s, id))
  {
  }

  lemma LiveKept(s: State, step: Step)
    requires Inv(s) && Enabled(s, step) && Clean(s, step)
    ensures var t := Apply(s, step);
            (t.task.Some? ==> t.task.value in t.loops) && forall id: TaskId :: Live(t, id) ==> t.task == Some(id)
  {
    var t := Apply(s, step);
    forall id: TaskId | Live(t, id) ensures t.task == Some(id) {
      OthersKept(s, step, id);
      if step != Start(id) {
        assert Live(s, id);
        if step.StopEnd? {
          assert s.task == Some(id);
        }
      }
    }
  }

  lemma StopsKept(s: State, step: Step)
    requires Inv(s) && Enabled(s, step) && Clean(s, step)
    ensures var t := Apply(s, step);
            forall call: nat :: call in t.stops ==>
              t.stops[call] in t.loops && (t.task.None? || t.task == Some(t.stops[call]))
  {
    var t := Apply(s, step);
    forall call: nat | call in t.stops
      ensures t.stops[call] in t.loops && (t.task.None? || t.task == Some(t.stops[call]))
    {
      if call in s.stops {
        assert s.stops[call] in s.loops && (s.task.None? || s.task == Some(s.stops[call]));
      }
    }
  }

  /** Outside the named task nothing is draining. */
  lemma NamedIsAlone(s: State, step: Step, id: TaskId)
    requires Inv(s) && Enabled(s, step) && Clean(s, step)
    requires id in Apply(s, step).loops && Apply(s, step).loops[id].phase.Draining?
    ensures Live(s, id) && !step.CycleEnd? && !step.Die?
    ensures step.Wake? || step.Swap? || step.Take? || step.TakePending? ==> step.id == id
    ensures !(step.Wake? || step.Swap? || step.Take? || step.TakePending?) ==>
            s.loops[id].phase == Apply(s, step).loops[id].phase
  {
    OthersKept(s, step, id);
    assert Live(s, id);
    if step.Wake? || step.Swap? || step.Take? || step.TakePending? || step.CycleEnd? || step.Die? {
      assert Live(s, step.id);
    }
  }

  lemma BatchKept(s: State, step: Step)
    requires Inv(s) && Enabled(s, step) && Clean(s, step)
    ensures BatchIsDraining(Apply(s, step))
  {
    var t := Apply(s, step);
    forall id: TaskId | id in t.loops && t.loops[id].phase.Draining? && t.loops[id].phase.batch != {}
      ensures t.owner == Some(id)
    {
      NamedIsAlone(s, step, id);
    }
  }

  lemma DisjointKept(s: State, step: Step)
    requires Inv(s) && Enabled(s, step) && Clean(s, step)
    ensures Apply(s, step).pending !! DrainingSet(Apply(s, step))
  {
  }

  lemma CycleKept(s: State, step: Step)
    requires Inv(s) && Enabled(s, step) && Clean(s, step)
    ensures !InCycle(Apply(s, step)) ==>
            DrainingSet(Apply(s, step)) == {} && (Apply(s, step).pending != {} ==> Apply(s, step).wake)
  {
    var t := Apply(s, step);
    if InCycle(s) && !step.CycleEnd? && !step.Die? {
      var id: TaskId :| id in s.loops && s.loops[id].phase.Draining?;
      assert Live(s, id);
      assert id in t.loops && t.loops[id].phase.Draining?;
    } else if step.Wake? {
      assert t.loops[step.id].phase.Draining?;
    } else if InCycle(s) {
      var id: TaskId :| id in s.loops && s.loops[id].phase.Draining?;
      assert Live(s, id) && Live(s, step.id);
    }
  }

  lemma IdleKept(s: State, step: Step)
    requires Inv(s) && Enabled(s, step) && Clean(s, step)
    ensures var t := Apply(s, step); t.task.Some? && t.idle ==> Quiet(t)
  {
    var t := Apply(s, step);
    if t.task.Some? && t.idle {
      if step.StartDone? {
        assert Live(s, step.id);
        assert s.owner.Some? ==> Live(s, s.owner.value);
        forall id: TaskId | id in s.loops && s.loops[id].phase.Draining? ensures id == step.id {
          assert Live(s, id);
        }
      }
      forall id: TaskId | id in t.loops && t.loops[id].phase.Draining? ensures t.loops[id].phase.busy.None? {
        NamedIsAlone(s, step, id);
      }
    }
  }

  lemma RestedKept(s: State, step: Step)
    requires Inv(s) && Enabled(s, step) && Clean(s, step)
    ensures Rested(Apply(s, step))
  {
    var t := Apply(s, step);
    if step.Begin? || step.StartDone? || step.Wake? || step.Swap? || step.Take? || step.TakePending?
      || step.CycleEnd? || step.Die?
    {
      assert Live(s, step.id);
    }
    forall id: TaskId | Live(t, id) && !t.loops[id].phase.Draining?
      ensures if t.loops[id].phase.Waiting? then t.pending == {} ==> t.idle else !t.idle
    {
      OthersKept(s, step, id);
      assert step == Start(id) || Live(s, id);
    }
  }

  lemma InvKept(s: State, step: Step)
    requires Inv(s) && Enabled(s, step) && Clean(s, step)
    ensures Inv(Apply(s, step))
  {
    LiveKept(s, step);
    StopsKept(s, step);
    BatchKept(s, step);
    DisjointKept(s, step);
    CycleKept(s, step);
    IdleKept(s, step);
    RestedKept(s, step);
  }

  lemma {:induction false} RunInv(states: seq<State>, steps: seq<Step>, i: nat)
    requires CleanRun(states, steps) && i < |states|
    ensures Inv(states[i])
  {
    if i > 0 {
      RunInv(states, steps, i - 1);
      InvKept(states[i - 1], steps[i - 1]);
    }
  }

  // ----- No request is ever lost -----

  ghost predicate Held(s: State, x: Item) {
    x in s.pending || x in DrainingSet(s)
  }

  lemma HeldKept(s: State, step: Step, x: Item)
    requires Inv(s) && Enabled(s, step) && Clean(s, step)
    requires Held(s, x) && !Pops(step, x)
    ensures Held(Apply(s, step), x)
  {
    if s.owner.Some? {
      assert Live(s, s.owner.value);
      if step.Swap? || step.Wake? || step.CycleEnd? || step.Die? || step.Begin? || step.StartDone? || step.Take?
        || step.TakePending?
      {
        assert Live(s, step.id);
      }
    }
  }

  /**
   A requested item is in one of the two sets until it is popped: whatever
   requesters, stoppers, crashes, cancellations and restarts come in between.
   */
  lemma {:induction false} NothingLost(states: seq<State>, steps: seq<Step>, r: nat, n: nat, x: Item)
    requires CleanRun(states, steps) && r < n <= |steps| && steps[r] == Request(x)
    requires forall i :: r < i < n ==> !Pops(steps[i], x)
    ensures Held(states[n], x)
    decreases n
  {
    if n > r + 1 {
      NothingLost(states, steps, r, n - 1, x);
      RunInv(states, steps, n - 1);
      HeldKept(states[n - 1], steps[n - 1], x);
    }
  }

  /** An item was requested before step `n` and not popped since. */
  ghost predicate Owed(steps: seq<Step>, n: nat, x: Item)
    requires n <= |steps|
  {
    exists r :: 0 <= r < n && steps[r] == Request(x) && forall i :: r < i < n ==> !Pops(steps[i], x)
  }

  lemma HeldWasAdded(s: State, step: Step, x: Item)
    requires Inv(s) && Enabled(s, step) && Clean(s, step) && Held(Apply(s, step), x)
    ensures step == Request(x) || (Held(s, x) && !Pops(step, x))
  {
    if s.owner.Some? {
      assert Live(s, s.owner.value);
    }
    if step.Swap? || step.Wake? || step.CycleEnd? || step.Die? || step.Begin? || step.StartDone? || step.Take?
      || step.TakePending?
    {
      assert Live(s, step.id);
    }
  }

  lemma {:induction false} HeldIsOwed(states: seq<State>, steps: seq<Step>, n: nat, x: Item)
    requires CleanRun(states, steps) && n < |states| && Held(states[n], x)
    ensures Owed(steps, n, x)
  {
    if n > 0 {
      RunInv(states, steps, n - 1);
      HeldWasAdded(states[n - 1], steps[n - 1], x);
      if steps[n - 1] != Request(x) {
        HeldIsOwed(states, steps, n - 1, x);
        var r :| 0 <= r < n - 1 && steps[r] == Request(x) && forall i :: r < i < n - 1 ==> !Pops(steps[i], x);
      } else {
        assert steps[n - 1] == Request(x);
      }
    }
  }

  /**
   Exactly what was requested and not popped since is in one of the two sets, so
   nothing is popped that was not asked for, or twice for one request.
   */
  lemma HeldIff(states: seq<State>, steps: seq<Step>, n: nat, x: Item)
    requires CleanRun(states, steps) && n < |states|
    ensures Held(states[n], x) <==> Owed(steps, n, x)
    ensures n < |steps| && Pops(steps[n], x) ==> Owed(steps, n, x)
  {
    RunInv(states, steps, n);
    if Held(states[n], x) {
      HeldIsOwed(states, steps, n, x);
    } else if Owed(steps, n, x) {
      var r :| 0 <= r < n && steps[r] == Request(x) && forall i :: r < i < n ==> !Pops(steps[i], x);
      NothingLost(states, steps, r, n, x);
    }
  }

  /** Once every request was popped and the worker is back at its wait, or was stopped, `wait_idle` returns. */
  lemma DoneMeansIdle(states: seq<State>, steps: seq<Step>, n: nat)
    requires CleanRun(states, steps) && n < |states|
    requires states[n].task.None? || exists id :: id in states[n].loops && states[n].loops[id].phase.Waiting?
    requires forall x :: !Owed(steps, n, x)
    ensures states[n].idle
  {
    RunInv(states, steps, n);
    forall x ensures x !in states[n].pending {
      HeldIff(states, steps, n, x);
    }
  }

  /** The step is the worker's own. */
  predicate StepOf(step: Step, id: TaskId) {
    !step.Request? && !step.StopBegin? && !step.StopEnd? && step.id == id
  }

  lemma {:induction false} StaysInHand(states: seq<State>, steps: seq<Step>, i: nat, n: nat)
    requires CleanRun(states, steps) && i < n < |states| && (steps[i].Take? || steps[i].TakePending?)
    requires forall j :: i < j < n ==> !StepOf(steps[j], steps[i].id)
    ensures var id := steps[i].id;
            id in states[n].loops && states[n].loops[id].phase.Draining? && states[n].loops[id].phase.busy.Some?
    decreases n
  {
    assert states[n] == Apply(states[n - 1], steps[n - 1]);
    if i < n - 1 {
      StaysInHand(states, steps, i, n - 1);
    }
  }

  /** `wait_idle` does not return while the worker has a popped item in hand. */
  lemma InHandKeepsWaiters(states: seq<State>, steps: seq<Step>, i: nat, n: nat)
    requires CleanRun(states, steps) && i < n < |states| && (steps[i].Take? || steps[i].TakePending?)
    requires forall j :: i < j < n ==> !StepOf(steps[j], steps[i].id)
    ensures !states[n].idle
  {
    StaysInHand(states, steps, i, n);
    RunInv(states, steps, n);
    assert Live(states[n], steps[i].id);
  }

  /** Nobody waiting after a `start` gets past it before the worker has come up. */
  lemma StartParksWaiters(states: seq<State>, steps: seq<Step>, n: nat, id: TaskId)
    requires CleanRun(states, steps) && n < |states| && id in states[n].loops
    requires states[n].loops[id].phase.Created? || states[n].loops[id].phase.Starting?
    ensures !states[n].idle
  {
    RunInv(states, steps, n);
  }

  predicate ArmsWake(s: State, step: Step)
    requires Enabled(s, step)
  {
    step.Request? || ((step.CycleEnd? || step.Die?) && Apply(s, step).pending != {})
  }

  lemma {:induction false} WakeWasArmed(states: seq<State>, steps: seq<Step>, i: nat, n: nat)
    requires IsRun(states, steps) && i < n < |states| && steps[i].Wake? && states[n].wake
    ensures exists j :: i < j < n && Enabled(states[j], steps[j]) && ArmsWake(states[j], steps[j])
  {
    assert states[n] == Apply(states[n - 1], steps[n - 1]);
    if n > i + 1 && !ArmsWake(states[n - 1], steps[n - 1]) {
      WakeWasArmed(states, steps, i, n - 1);
    }
  }

  /** The worker does not spin: between two wake-ups something was requested or left over. */
  lemma WakesAreEarned(states: seq<State>, steps: seq<Step>, i: nat, n: nat)
    requires IsRun(states, steps) && i < n < |steps| && steps[i].Wake? && steps[n].Wake?
    ensures exists j :: i < j < n && Enabled(states[j], steps[j]) && ArmsWake(states[j], steps[j])
  {
    assert Enabled(states[n], steps[n]);
    WakeWasArmed(states, steps, i, n);
  }

  // ----- Stopping -----

  ghost predicate NoWorker(s: State) {
    forall id: TaskId :: id in s.loops ==> s.loops[id].phase.Finished?
  }

  /** A `stop` that found a worker returns: at the end of its await, or at once when the worker has ended. */
  predicate StopReturns(s: State, step: Step) {
    step.StopEnd? || (step.StopBegin? && s.task.Some? && !Live(s, s.task.value))
  }

  /** When it returns no worker is left and nobody is kept waiting. */
  lemma StopLeavesNoWorker(states: seq<State>, steps: seq<Step>, n: nat)
    requires CleanRun(states, steps) && n < |steps| && StopReturns(states[n], steps[n])
    ensures states[n + 1].task.None? && states[n + 1].idle && NoWorker(states[n + 1])
  {
    RunInv(states, steps, n + 1);
    assert states[n + 1] == Apply(states[n], steps[n]);
    var t := states[n + 1];
    forall id: TaskId | id in t.loops ensures t.loops[id].phase.Finished? {
      assert !Live(t, id);
    }
  }

  /** A cancelled task stays so, whatever it is asked to do. */
  lemma {:induction false} CancelledStays(states: seq<State>, steps: seq<Step>, i: nat, n: nat, id: TaskId)
    requires IsRun(states, steps) && i <= n < |states| && id in states[i].loops
    requires states[i].loops[id].cancelled || states[i].loops[id].phase.Finished?
    ensures id in states[n].loops && (states[n].loops[id].cancelled || states[n].loops[id].phase.Finished?)
    decreases n
  {
    if i < n {
      CancelledStays(states, steps, i, n - 1, id);
      assert states[n] == Apply(states[n - 1], steps[n - 1]);
    }
  }

  /** From the moment `stop` is called the worker it found takes no further item. */
  lemma StopHaltsTheWorker(states: seq<State>, steps: seq<Step>, i: nat, n: nat)
    requires IsRun(states, steps) && i < n < |steps| && steps[i].StopBegin? && states[i].task.Some?
    requires states[i].task.value in states[i].loops
    requires steps[n].Take? || steps[n].TakePending?
    ensures Some(steps[n].id) != states[i].task
  {
    var id := states[i].task.value;
    assert states[i + 1] == Apply(states[i], steps[i]) && Enabled(states[n], steps[n]);
    CancelledStays(states, steps, i + 1, n, id);
  }

  /** A stop in flight can always return: the worker it cancelled can end, if it has not yet. */
  lemma StopCanReturn(states: seq<State>, steps: seq<Step>, n: nat, call: nat)
    requires CleanRun(states, steps) && n < |states| && call in states[n].stops
    ensures var id := states[n].stops[call];
            CanDo(states[n], if Live(states[n], id) then [Die(id), StopEnd(call)] else [StopEnd(call)])
  {
    RunInv(states, steps, n);
    var id := states[n].stops[call];
    if Live(states[n], id) {
      assert [Die(id), StopEnd(call)][1..] == [StopEnd(call)];
    }
  }

  /** The two sets never overlap, and outside a cycle pending work has its wake-up armed. */
  lemma NoLostWakeup(states: seq<State>, steps: seq<Step>, n: nat)
    requires CleanRun(states, steps) && n < |states|
    ensures states[n].pending !! DrainingSet(states[n])
    ensures !InCycle(states[n]) ==> DrainingSet(states[n]) == {} && (states[n].pending != {} ==> states[n].wake)
  {
    RunInv(states, steps, n);
  }

  /** `wait_idle` returns under a running worker only when nothing is queued, batched or in hand. */
  lemma IdleMeansDone(states: seq<State>, steps: seq<Step>, n: nat)
    requires CleanRun(states, steps) && n < |states|
    requires states[n].task.Some? && states[n].idle
    ensures Quiet(states[n])
  {
    RunInv(states, steps, n);
  }

  /** There is never a second live worker, and `stop` can always reach the one there is. */
  lemma AtMostOneWorker(states: seq<State>, steps: seq<Step>, n: nat, a: TaskId, b: TaskId)
    requires CleanRun(states, steps) && n < |states| && Live(states[n], a) && Live(states[n], b)
    ensures a == b && states[n].task == Some(a)
  {
    RunInv(states, steps, n);
  }

  // ----- The worker can always get to a held item by itself -----

  function WorkPlan(s: State, id: TaskId, x: Item): seq<Step>
    requires id in s.loops
  {
    var drain := [Wake(id), Swap(id), Take(id, x)];
    match s.loops[id].phase
    case Created => [Begin(id), StartDone(id)] + drain
    case Starting => [StartDone(id)] + drain
    case Waiting => drain
    case Draining(batch, _) => if x in batch then [Take(id, x)] else [CycleEnd(id)] + drain
    case Finished => []
  }

  ghost predicate CanDo(s: State, steps: seq<Step>)
    decreases |steps|
  {
    steps == [] || (Enabled(s, steps[0]) && CanDo(Apply(s, steps[0]), steps[1..]))
  }

  /** A live worker that nobody cancelled can pop any held item using its own steps only. */
  lemma WorkerCanReach(s: State, id: TaskId, x: Item)
    requires Inv(s) && Live(s, id) && !s.loops[id].cancelled && Held(s, x)
    ensures CanDo(s, WorkPlan(s, id, x))
    ensures Pops(WorkPlan(s, id, x)[|WorkPlan(s, id, x)| - 1], x)
  {
    if s.owner.Some? {
      assert Live(s, s.owner.value);
    }
    var drain := [Wake(id), Swap(id), Take(id, x)];
    match s.loops[id].phase
    case Created =>
      NotInCycle(s, id);
      var t := Apply(s, Begin(id));
      var u := Apply(t, StartDone(id));
      DrainPlan(u, id, x);
      assert ([Begin(id), StartDone(id)] + drain)[1..] == [StartDone(id)] + drain;
      assert ([StartDone(id)] + drain)[1..] == drain;
    case Starting =>
      NotInCycle(s, id);
      DrainPlan(Apply(s, StartDone(id)), id, x);
      assert ([StartDone(id)] + drain)[1..] == drain;
    case Waiting =>
      NotInCycle(s, id);
      DrainPlan(s, id, x);
    case Draining(batch, _) =>
      if x !in batch {
        DrainPlan(Apply(s, CycleEnd(id)), id, x);
        assert ([CycleEnd(id)] + drain)[1..] == drain;
      }
  }

  lemma NotInCycle(s: State, id: TaskId)
    requires Inv(s) && Live(s, id) && !s.loops[id].phase.Draining?
    ensures !InCycle(s)
  {
    if other: TaskId :| other in s.loops && s.loops[other].phase.Draining? {
      assert Live(s, other);
    }
  }

  lemma DrainPlan(s: State, id: TaskId, x: Item)
    requires id in s.loops && s.loops[id] == Loop(Waiting, false) && s.wake && x in s.pending
    ensures CanDo(s, [Wake(id), Swap(id), Take(id, x)])
  {
    var t := Apply(s, Wake(id));
    var u := Apply(t, Swap(id));
    assert [Wake(id), Swap(id), Take(id, x)][1..] == [Swap(id), Take(id, x)];
    assert [Swap(id), Take(id, x)][1..] == [Take(id, x)];
    assert CanDo(u, [Take(id, x)]);
  }

  // ----- Why the discipline is needed -----

  predicate Orphaned(s: State, id: TaskId) {
    Live(s, id) && s.task != Some(id)
  }

  /** A spawning `start` can leave its task out of `stop`'s reach exactly when a `stop` is still in flight. */
  lemma SpawnDuringStopOrphans(s: State, id: TaskId)
    requires Inv(s) && id !in s.loops && Spawns(s)
    ensures s.stops != map[] <==>
            exists call ::
              var t := Apply(s, Start(id)); Enabled(t, StopEnd(call)) && Orphaned(Apply(t, StopEnd(call)), id)
  {
    var t := Apply(s, Start(id));
    if s.stops != map[] {
      var call: nat :| call in s.stops;
      assert !Live(s, s.stops[call]);
      assert Enabled(t, StopEnd(call)) && Orphaned(Apply(t, StopEnd(call)), id);
    }
  }

  /** `s` can become `t` by steps that include a request of each of `requested` and pop nothing. */
  ghost predicate Leads(s: State, requested: set<Item>, t: State) {
    exists steps: seq<Step> ::
      LeadsBy(s, steps, t) && (forall step | step in steps :: !step.Take? && !step.TakePending?)
      && forall x | x in requested :: Request(x) in steps
  }

  ghost predicate LeadsBy(s: State, steps: seq<Step>, t: State)
    decreases |steps|
  {
    if steps == [] then s == t
    else
      var before := steps[..|steps| - 1];
      exists m :: LeadsBy(s, before, m) && Enabled(m, steps[|steps| - 1]) && Apply(m, steps[|steps| - 1]) == t
  }

  /** One more step at the end of a run from `Init()`. */
  lemma Then(requested: set<Item>, t: State, step: Step) returns (u: State)
    requires Leads(Init(), requested, t) && Enabled(t, step) && !step.Take? && !step.TakePending?
    ensures u == Apply(t, step)
    ensures Leads(Init(), if step.Request? then requested + {step.item} else requested, u)
  {
    u := Apply(t, step);
    var steps: seq<Step> :| LeadsBy(Init(), steps, t)
      && (forall step | step in steps :: !step.Take? && !step.TakePending?)
      && forall x | x in requested :: Request(x) in steps;
    var longer := steps + [step];
    assert longer[..|longer| - 1] == steps;
    assert LeadsBy(Init(), longer, u);
    assert longer[|steps|] == step;
  }

  /** A worker is stopped before it ran; the stop has not resumed yet. */
  lemma StopCancels() returns (s: State)
    ensures s == State({}, None, false, false, Some(0),
                      map[0 := Loop(Finished, true)], map[0 := 0])
    ensures Leads(Init(), {}, s)
  {
    s := Init();
    assert LeadsBy(s, [], s);
    s := Then({}, s, Start(0));
    s := Then({}, s, StopBegin(0));
    s := Then({}, s, Die(0));
  }

  /** `start` spawns a second worker, the stop then clears the handle, and `start` spawns a third. */
  lemma StartsOverlap() returns (s: State)
    ensures s == State({}, None, false, false, Some(2),
                      map[0 := Loop(Finished, true), 1 := Loop(Created, false), 2 := Loop(Created, false)], map[])
    ensures Leads(Init(), {}, s)
  {
    s := StopCancels();
    s := Then({}, s, Start(1));
    s := Then({}, s, StopEnd(0));
    s := Then({}, s, Start(2));
  }

  /** Both workers come up. */
  lemma TwoWorkersWait() returns (s: State)
    ensures s == State({}, None, false, true, Some(2),
                      map[0 := Loop(Finished, true), 1 := Loop(Waiting, false), 2 := Loop(Waiting, false)], map[])
    ensures Leads(Init(), {}, s)
  {
    s := StartsOverlap();
    s := Then({}, s, Begin(1));
    s := Then({}, s, StartDone(1));
    s := Then({}, s, Begin(2));
    s := Then({}, s, StartDone(2));
  }

  /** The first of them takes the pending set. */
  lemma FirstSwaps(x: Item) returns (s: State)
    ensures s == State({}, Some(1), false, false, Some(2),
                      map[0 := Loop(Finished, true), 1 := Loop(Phase.Draining({x}, None), false),
                        2 := Loop(Waiting, false)], map[])
    ensures Leads(Init(), {x}, s)
  {
    s := TwoWorkersWait();
    s := Then({}, s, Request(x));
    assert {} + {x} == {x};
    s := Then({x}, s, Wake(1));
    s := Then({x}, s, Swap(1));
  }

  /** The other takes the next one, so `_draining` no longer names the first batch; then the first worker fails. */
  lemma SecondSwaps(x: Item, y: Item) returns (s: State)
    requires x != y
    ensures s == State({y}, None, true, false, Some(2),
                      map[0 := Loop(Finished, true), 1 := Loop(Finished, false),
                        2 := Loop(Phase.Draining({y}, None), false)], map[])
    ensures Leads(Init(), {x, y}, s)
  {
    s := FirstSwaps(x);
    s := Then({x}, s, Request(y));
    assert {x} + {y} == {x, y};
    s := Then({x, y}, s, Wake(2));
    s := Then({x, y}, s, Swap(2));
    s := Then({x, y}, s, Die(1));
  }

  /**
   With two workers a queued item can vanish: `x` is requested and nothing is ever
   popped, yet `x` ends up in neither set and in no live worker's batch.
   */
  lemma OverlappingStartLosesItem(x: Item, y: Item) returns (s: State)
    requires x != y
    ensures Leads(Init(), {x, y}, s)
    ensures !Held(s, x) && forall id: TaskId :: Live(s, id) && s.loops[id].phase.Draining? ==>
            x !in s.loops[id].phase.batch
  {
    s := SecondSwaps(x, y);
  }

  // ----- The class, stretch by stretch -----

  class Worker {
    var pending: set<Item>
    var owner: Option<TaskId>
    var wake: bool
    var idle: bool
    var task: Option<TaskId>
    var loops: map<TaskId, Loop>
    var stops: map<nat, TaskId>

    ghost function View(): State
      reads this
    {
      State(pending, owner, wake, idle, task, loops, stops)
    }

    function Draining(): (batch: set<Item>)
      reads this
      ensures batch == DrainingSet(View())
    {
      if owner.Some? && owner.value in loops && loops[owner.value].phase.Draining?
      then loops[owner.value].phase.batch else {}
    }

    constructor ()
      ensures View() == Init()
    {
      pending, owner, wake, idle := {}, None, false, true;
      task, loops, stops := None, map[], map[];
    }

    method RequestItem(item: Item)
      modifies this
      ensures View() == Apply(old(View()), Request(item))
    {
      if item in Draining() {
        return;
      }
      pending := pending + {item};
      idle := false;
      wake := true;
    }

    method StartWorker(id: TaskId)
      requires Enabled(View(), Start(id))
      modifies this
      ensures View() == Apply(old(View()), Start(id))
    {
      if task.Some? && task.value in loops && !loops[task.value].phase.Finished? {
        return;
      }
      idle := false;
      task := Some(id);
      loops := loops[id := Loop(Created, false)];
    }

    /** `stop` up to its await. */
    method StopWorker(call: nat)
      requires Enabled(View(), StopBegin(call))
      modifies this
      ensures View() == Apply(old(View()), StopBegin(call))
    {
      if task.None? {
        return;
      }
      if task.value in loops && !loops[task.value].phase.Finished? {
        loops := loops[task.value := loops[task.value].(cancelled := true)];
        stops := stops[call := task.value];
        return;
      }
      task := None;
      idle := true;
    }

    /** `stop` from the end of its await. */
    method StopResume(call: nat)
      requires Enabled(View(), StopEnd(call))
      modifies this
      ensures View() == Apply(old(View()), StopEnd(call))
    {
      stops := stops - {call};
      task := None;
      idle := true;
    }

    method SwapPending(id: TaskId) returns (batch: set<Item>)
      requires Enabled(View(), Swap(id))
      modifies this
      ensures View() == Apply(old(View()), Swap(id))
      ensures batch == old(pending) == Draining()
    {
      batch := pending;
      owner, pending := Some(id), {};
      loops := loops[id := loops[id].(phase := Phase.Draining(batch, None))];
    }

    /** The `finally` of a drain cycle, when the task goes back to waiting or ends. */
    method FinishCycle(id: TaskId, ends: bool)
      requires Enabled(View(), if ends then Die(id) else CycleEnd(id)) && loops[id].phase.Draining?
      modifies this
      ensures View() == Apply(old(View()), if ends then Die(id) else CycleEnd(id))
    {
      var rest := Draining();
      pending := pending + rest;
      owner := None;
      if pending == {} {
        idle := true;
      } else {
        wake := true;
      }
      loops := loops[id := loops[id].(phase := if ends then Finished else Waiting)];
    }
  }
}

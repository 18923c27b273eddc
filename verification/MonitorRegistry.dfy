/**
 The registry of broker monitors (controllers/_device_mqtt_coordinator.py).

 Reconciles add and remove monitors under a lock; `stop` latches, waits a bounded
 time for the lock, and stops everything with or without it.  A step is one
 stretch of a reconcile or a stop between two awaits.  Creating, electing and
 starting monitors awaits nothing, so it is one stretch with what precedes it.
 */
module MonitorRegistry {
  import opened Optional

  type TaskId = nat

  type Key = nat

  /** A monitor: its broker key and the pass that created it. */
  type Monitor = (Key, nat)

  datatype Task =
    | Gone
    | WaitingToReconcile
    | Collecting                     // in the executor, holding the lock
    | Tearing(wanted: set<Key>, rest: set<Key>, stopping: Monitor)  // awaiting one monitor's stop, holding the lock
    | WaitingToStop                  // for the lock, or the timeout
    | Stopping(todo: set<Monitor>)   // awaiting the stops of the registered monitors, with the lock or without

  /**
   `started` are the monitors whose task runs.  `quiet` is history: a `stop` has
   returned under the latch and nothing was resumed since.
   */
  datatype State = State(
    monitors: map<Key, nat>, started: set<Monitor>, passes: nat, latch: bool,
    lock: Option<TaskId>, tasks: map<TaskId, Task>, quiet: bool)

  function Init(): State {
    State(map[], {}, 0, false, None, map[], false)
  }

  function TaskOf(s: State, t: TaskId): Task {
    if t in s.tasks then s.tasks[t] else Gone
  }

  function Registered(s: State): set<Monitor> {
    set k | k in s.monitors :: (k, s.monitors[k])
  }

  // ----- Steps -----

  datatype Step =
    | Reconcile(task: TaskId)
    | Acquire(task: TaskId)
    | Collected(task: TaskId, wanted: set<Key>, reloads: bool, next: Key)
    | TornDown(task: TaskId, next: Key)
    | Stop(task: TaskId)
    | TimeOut(task: TaskId)
    | StoppedOne(task: TaskId, monitor: Monitor)
    | Cancel(task: TaskId)
    | Resume

  predicate Enabled(s: State, step: Step) {
    match step
    case Reconcile(t) => TaskOf(s, t).Gone?
    case Acquire(t) => s.lock.None? && (TaskOf(s, t).WaitingToReconcile? || TaskOf(s, t).WaitingToStop?)
    case Collected(t, wanted, reloads, next) =>
      TaskOf(s, t).Collecting? && (s.monitors.Keys - wanted == {} || next in s.monitors.Keys - wanted)
    case TornDown(t, next) => TaskOf(s, t).Tearing? && (s.tasks[t].rest == {} || next in s.tasks[t].rest)
    case Stop(t) => TaskOf(s, t).Gone?
    case TimeOut(t) => TaskOf(s, t).WaitingToStop?
    case StoppedOne(t, m) => TaskOf(s, t).Stopping? && m in s.tasks[t].todo
    case Cancel(t) => !TaskOf(s, t).Gone?
    case Resume => true
  }

  function Goto(s: State, t: TaskId, task: Task): State {
    s.(tasks := s.tasks[t := task])
  }

  /** A task is over, and the lock free if it was the holder. */
  function Over(s: State, t: TaskId): State {
    Goto(s.(lock := if s.lock == Some(t) then None else s.lock), t, Gone)
  }

  /** The monitors a pass makes. */
  function Made(s: State, wanted: set<Key>): set<Monitor> {
    set k | k in wanted - s.monitors.Keys :: (k, s.passes)
  }

  /** Register and start a monitor for every wanted key without one. */
  function Create(s: State, wanted: set<Key>): State {
    s.(monitors := map k | k in s.monitors.Keys + wanted ::
         if k in s.monitors then s.monitors[k] else s.passes,
       started := s.started + Made(s, wanted),
       passes := s.passes + 1)
  }

  /** The next key to tear down; the lookup raises when a `stop` has emptied the registry meanwhile. */
  function Tear(s: State, t: TaskId, wanted: set<Key>, todo: set<Key>, next: Key): State {
    if todo == {} then Over(Create(s, wanted), t)
    else if next !in s.monitors then Over(s, t)
    else Goto(s, t, Tearing(wanted, todo - {next}, (next, s.monitors[next])))
  }

  /** `stop` has the lock or has given up on it: stop what is registered, then clear. */
  function StopAll(s: State, t: TaskId, todo: set<Monitor>): State {
    if todo == {} then Over(s.(monitors := map[], quiet := s.latch), t) else Goto(s, t, Stopping(todo))
  }

  function Apply(s: State, step: Step): State
    requires Enabled(s, step)
  {
    match step
    case Reconcile(t) => Goto(s, t, WaitingToReconcile)
    case Acquire(t) =>
      var held := s.(lock := Some(t));
      if TaskOf(s, t).WaitingToReconcile? then Goto(held, t, Collecting) else StopAll(held, t, Registered(s))
    case Collected(t, wanted, reloads, next) =>
      if s.latch then Over(s, t)
      else if reloads then Over(Create(s, wanted), t)
      else Tear(s, t, wanted, s.monitors.Keys - wanted, next)
    case TornDown(t, next) =>
      var task := s.tasks[t];
      var popped := s.(started := s.started - {task.stopping}, monitors := s.monitors - {task.stopping.0});
      if s.latch then Over(popped, t) else Tear(popped, t, task.wanted, task.rest, next)
    case Stop(t) => Goto(s.(latch := true), t, WaitingToStop)
    case TimeOut(t) => StopAll(s, t, Registered(s))
    case StoppedOne(t, m) => StopAll(s.(started := s.started - {m}), t, s.tasks[t].todo - {m})
    case Cancel(t) => Over(s, t)
    case Resume => s.(latch := false, quiet := false)
  }

  /** A stop in flight that has not got the lock, and may end up never getting it. */
  predicate Loose(s: State, t: TaskId) {
    t in s.tasks && (s.tasks[t].WaitingToStop? || (s.tasks[t].Stopping? && s.lock != Some(t)))
  }

  /** The owner does not resume while one of its stops is running without the lock. */
  predicate Orderly(s: State, step: Step) {
    step.Resume? ==> forall t | t in s.tasks :: !Loose(s, t)
  }

  // ----- Invariants -----

  predicate HoldsLock(task: Task) {
    task.Collecting? || task.Tearing?
  }

  /** A reconcile past its wait is the lock's holder; else the holder is a stop that has begun. */
  ghost predicate Locked(s: State) {
    && (forall t | t in s.tasks && HoldsLock(s.tasks[t]) :: s.lock == Some(t))
    && (s.lock.Some? ==> HoldsLock(TaskOf(s, s.lock.value)) || TaskOf(s, s.lock.value).Stopping?)
  }

  /** A running monitor is the registered one of its key; generations are fresh. */
  ghost predicate StartedAreRegistered(s: State) {
    && (forall m | m in s.started :: m.0 in s.monitors && s.monitors[m.0] == m.1)
    && (forall k | k in s.monitors :: s.monitors[k] < s.passes)
  }

  /** While a pass tears down, the registry holds only wanted keys and those still to go. */
  ghost predicate TearingBounded(s: State) {
    forall t | t in s.tasks && s.tasks[t].Tearing? ::
      var task := s.tasks[t];
      && s.monitors.Keys <= task.wanted + task.rest + {task.stopping.0}
      && task.rest !! task.wanted && task.stopping.0 !in task.wanted && task.stopping.0 !in task.rest
      && (task.stopping.0 in s.monitors ==> s.monitors[task.stopping.0] == task.stopping.1)
  }

  /** A stop without the lock has the latch, and each has every running monitor on its list once it has one. */
  ghost predicate StopsLatched(s: State) {
    && (forall t | t in s.tasks && Loose(s, t) :: s.latch)
    && (forall t | t in s.tasks && s.tasks[t].Stopping? :: s.tasks[t].todo != {} && s.started <= s.tasks[t].todo)
    && (s.quiet ==> s.latch && s.started == {} && s.monitors == map[])
  }

  ghost predicate Inv(s: State) {
    Locked(s) && StartedAreRegistered(s) && TearingBounded(s) && StopsLatched(s)
  }

  lemma LockedKept(s: State, step: Step)
    requires Locked(s) && Enabled(s, step)
    ensures Locked(Apply(s, step))
  {
  }

  lemma TearKeeps(s: State, t: TaskId, wanted: set<Key>, todo: set<Key>, next: Key)
    requires TearingBounded(Goto(s, t, Gone)) && s.monitors.Keys <= wanted + todo && todo !! wanted
    requires todo == {} || next in todo
    requires forall u | u in s.tasks && u != t :: !s.tasks[u].Tearing?
    ensures TearingBounded(Tear(s, t, wanted, todo, next))
  {
  }

  lemma TearingKept(s: State, step: Step)
    requires Locked(s) && TearingBounded(s) && Enabled(s, step)
    ensures TearingBounded(Apply(s, step))
  {
    match step
    case Collected(t, wanted, reloads, next) =>
      if !s.latch && !reloads {
        TearKeeps(s, t, wanted, s.monitors.Keys - wanted, next);
      }
    case TornDown(t, next) =>
      var task := s.tasks[t];
      var popped := s.(started := s.started - {task.stopping}, monitors := s.monitors - {task.stopping.0});
      if !s.latch {
        TearKeeps(popped, t, task.wanted, task.rest, next);
      }
    case _ =>
  }

  lemma StopsKept(s: State, step: Step)
    requires Locked(s) && StartedAreRegistered(s) && StopsLatched(s) && Enabled(s, step) && Orderly(s, step)
    ensures StopsLatched(Apply(s, step))
  {
  }

  lemma StartedKept(s: State, step: Step)
    requires Inv(s) && Enabled(s, step)
    ensures StartedAreRegistered(Apply(s, step))
  {
    forall m | m in s.started ensures m in Registered(s) {
      assert m == (m.0, s.monitors[m.0]);
    }
  }

  lemma InvKept(s: State, step: Step)
    requires Inv(s) && Enabled(s, step) && Orderly(s, step)
    ensures Inv(Apply(s, step))
  {
    LockedKept(s, step);
    TearingKept(s, step);
    StopsKept(s, step);
    StartedKept(s, step);
  }

  // ----- Whole runs -----

  ghost predicate IsRun(states: seq<State>, steps: seq<Step>) {
    && |states| == |steps| + 1
    && states[0] == Init()
    && forall i {:trigger steps[i]} :: 0 <= i < |steps| ==>
         Enabled(states[i], steps[i]) && states[i + 1] == Apply(states[i], steps[i])
  }

  ghost predicate IsOrderly(states: seq<State>, steps: seq<Step>) {
    IsRun(states, steps) && forall i {:trigger steps[i]} :: 0 <= i < |steps| ==> Orderly(states[i], steps[i])
  }

  lemma {:induction false} RunInv(states: seq<State>, steps: seq<Step>, n: nat)
    requires IsOrderly(states, steps) && n < |states|
    ensures Inv(states[n])
  {
    if n > 0 {
      RunInv(states, steps, n - 1);
      InvKept(states[n - 1], steps[n - 1]);
    }
  }

  /** A running monitor can always be found: it stays registered until its stop completes. */
  lemma NothingIsOrphaned(states: seq<State>, steps: seq<Step>, n: nat, m: Monitor)
    requires IsOrderly(states, steps) && n < |states| && m in states[n].started
    ensures m in Registered(states[n])
  {
    RunInv(states, steps, n);
    assert m == (m.0, states[n].monitors[m.0]);
  }

  /** A stop that was not cancelled has returned. */
  predicate StopReturns(s: State, step: Step)
    requires Enabled(s, step)
  {
    && (step.StoppedOne? || step.TimeOut? || (step.Acquire? && TaskOf(s, step.task).WaitingToStop?))
    && TaskOf(Apply(s, step), step.task).Gone?
  }

  /**
   After a stop returns, with the lock or without, no monitor runs or is registered
   until the next resume, unless the owner has already resumed while it held the lock.
   */
  lemma {:induction false} QuietUntilResume(states: seq<State>, steps: seq<Step>, n: nat, m: nat)
    requires IsOrderly(states, steps) && n < m < |states| && StopReturns(states[n], steps[n]) && states[n].latch
    requires forall i :: n < i < m ==> !steps[i].Resume?
    ensures states[m].quiet && states[m].started == {} && states[m].monitors == map[]
  {
    if m == n + 1 {
      assert states[m] == Apply(states[n], steps[n]);
    } else {
      QuietUntilResume(states, steps, n, m - 1);
      RunInv(states, steps, m - 1);
      StaysQuiet(states[m - 1], steps[m - 1]);
    }
    RunInv(states, steps, m);
  }

  lemma StaysQuiet(s: State, step: Step)
    requires s.quiet && s.latch && Enabled(s, step) && !step.Resume?
    ensures Apply(s, step).quiet && Apply(s, step).latch
  {
  }

  /** What a pass was collecting for. */
  function WantedBy(s: State, step: Step): set<Key>
    requires Enabled(s, step) && (step.Collected? || step.TornDown?)
  {
    if step.Collected? then step.wanted else s.tasks[step.task].wanted
  }

  /** The pass looks up a monitor that a `stop` has cleared from the registry. */
  predicate Raises(s: State, step: Step)
    requires Enabled(s, step)
  {
    step.TornDown? && !s.latch && s.tasks[step.task].rest != {} && step.next !in s.monitors
  }

  lemma TearEndsExactly(s: State, t: TaskId, wanted: set<Key>, todo: set<Key>, next: Key)
    requires s.monitors.Keys <= wanted + todo && TaskOf(Tear(s, t, wanted, todo, next), t).Gone?
    ensures (todo != {} && next !in s.monitors) || Tear(s, t, wanted, todo, next).monitors.Keys == wanted
  {
  }

  /**
   A pass with nothing awaiting reload that ends, not stopped and not raising, leaves just
   the wanted keys registered, the kept ones under the monitors they had.
   */
  lemma PassEndsExactly(states: seq<State>, steps: seq<Step>, n: nat)
    requires IsOrderly(states, steps) && n < |steps| && (steps[n].Collected? || steps[n].TornDown?)
    requires steps[n].Collected? ==> !steps[n].reloads
    requires !states[n].latch && TaskOf(states[n + 1], steps[n].task).Gone?
    ensures Raises(states[n], steps[n]) || states[n + 1].monitors.Keys == WantedBy(states[n], steps[n])
    ensures forall k | k in states[n].monitors && k in states[n + 1].monitors ::
              states[n + 1].monitors[k] == states[n].monitors[k]
  {
    RunInv(states, steps, n);
    var s, t := states[n], steps[n].task;
    match steps[n]
    case Collected(_, wanted, _, next) =>
      TearEndsExactly(s, t, wanted, s.monitors.Keys - wanted, next);
    case TornDown(_, next) =>
      var task := s.tasks[t];
      var popped := s.(started := s.started - {task.stopping}, monitors := s.monitors - {task.stopping.0});
      assert popped.monitors.Keys <= task.wanted + task.rest;
      assert task.rest != {} ==> (next in s.monitors <==> next in popped.monitors);
      TearEndsExactly(popped, t, task.wanted, task.rest, next);
  }

  /** And every monitor it made runs, as does every one that ran and was not torn down. */
  lemma PassStartsMissing(s: State, step: Step)
    requires Enabled(s, step) && (step.Collected? || step.TornDown?) && !s.latch && !Raises(s, step)
    requires TearingBounded(s) && TaskOf(Apply(s, step), step.task).Gone?
    requires step.Collected? && !step.reloads && s.monitors.Keys - step.wanted != {} ==> step.next in s.monitors
    ensures var t := Apply(s, step);
            && (forall k | k in WantedBy(s, step) ::
                  k in t.monitors && (k !in s.monitors ==>
                    (k, t.monitors[k]) in t.started && t.monitors[k] == s.passes))
            && (forall m | m in s.started && (step.TornDown? ==> m != s.tasks[step.task].stopping) :: m in t.started)
  {
  }

  /** A pass with reloads pending only adds. */
  lemma PassWithReloadsOnlyAdds(s: State, step: Step)
    requires Enabled(s, step) && step.Collected? && step.reloads
    ensures var t := Apply(s, step);
            && (forall k | k in s.monitors :: k in t.monitors && t.monitors[k] == s.monitors[k])
            && t.monitors.Keys == s.monitors.Keys + (if s.latch then {} else step.wanted)
            && s.started <= t.started
  {
  }

  /** A latched pass starts nothing, whatever stretch it is in. */
  lemma LatchedStartsNothing(s: State, step: Step)
    requires Enabled(s, step) && s.latch
    ensures Apply(s, step).started <= s.started
  {
  }

  // ----- What a resume at the wrong time does -----

  ghost predicate Reachable(s: State, orderly: bool) {
    exists states, steps :: IsRun(states, steps) && (orderly ==> IsOrderly(states, steps)) && states[|states| - 1] == s
  }

  lemma ReachInit()
    ensures Reachable(Init(), true)
  {
    assert IsOrderly([Init()], []) && [Init()][|[Init()]| - 1] == Init();
  }

  lemma Reach(s: State, orderly: bool, step: Step) returns (t: State)
    requires Reachable(s, orderly) && Enabled(s, step)
    ensures t == Apply(s, step) && Reachable(t, orderly && Orderly(s, step))
  {
    var states: seq<State>, steps :|
      IsRun(states, steps) && (orderly ==> IsOrderly(states, steps)) && states[|states| - 1] == s;
    t := Apply(s, step);
    assert IsRun(states + [t], steps + [step]);
    assert (states + [t])[|states| + 1 - 1] == t;
  }

  lemma RegisteredIs(s: State, ms: set<Monitor>)
    requires forall m :: m in ms <==> m.0 in s.monitors && s.monitors[m.0] == m.1
    ensures Registered(s) == ms
  {
    forall m | m in ms ensures m in Registered(s) {
      assert m == (m.0, s.monitors[m.0]);
    }
  }

  /** Some monitors run, and a second pass is under way. */
  lemma ReachRunning(keys: set<Key>) returns (s: State)
    ensures Reachable(s, true)
    ensures s.monitors == (map k | k in keys :: 0) && s.started == (set k | k in keys :: (k, 0)) && s.passes == 1
    ensures !s.latch && s.lock == Some(1) && s.tasks == map[0 := Gone, 1 := Collecting]
  {
    ReachInit();
    s := Reach(Init(), true, Reconcile(0));
    s := Reach(s, true, Acquire(0));
    assert {} - keys == {};
    s := Reach(s, true, Collected(0, keys, false, 0));
    s := Reach(s, true, Reconcile(1));
    s := Reach(s, true, Acquire(1));
  }

  /** Resumed while a stop without the lock runs, a wedged pass starts a monitor that the stop then forgets. */
  lemma ResumeDuringStopOrphans() returns (s: State)
    ensures Reachable(s, false) && (2, 1) in s.started && s.monitors == map[]
  {
    s := ReachRunning({1});
    s := Reach(s, true, Stop(2));
    RegisteredIs(s, {(1, 0)});
    s := Reach(s, true, TimeOut(2));
    s := Reach(s, true, Resume);
    s := Reach(s, false, Collected(1, {1, 2}, false, 0));
    assert 2 in {1, 2} - {1} && (2, 1) in s.started;
    assert s.tasks[2] == Stopping({(1, 0)});
    s := Reach(s, false, StoppedOne(2, (1, 0)));
  }

  lemma ReachTornBetween() returns (s: State)
    ensures Reachable(s, true) && s.tasks == map[0 := Gone, 1 := Tearing({3}, {2}, (1, 0)), 2 := WaitingToStop]
    ensures s.monitors == map[1 := 0, 2 := 0] && s.latch && s.lock == Some(1)
  {
    s := ReachRunning({1, 2});
    assert s.monitors.Keys - {3} == {1, 2} && {1, 2} - {1} == {2};
    s := Reach(s, true, Collected(1, {3}, false, 1));
    s := Reach(s, true, Stop(2));
  }

  /**
   Even in an orderly run a pass can raise: a stop that gave up on the lock empties
   the registry, the owner resumes, and the pass comes back for its next key.
   */
  lemma EmptiedRegistryRaises() returns (s: State, step: Step)
    ensures Reachable(s, true) && Enabled(s, step) && Raises(s, step)
    ensures WantedBy(s, step) == {3} && Apply(s, step).monitors == map[]
  {
    s := ReachTornBetween();
    RegisteredIs(s, {(1, 0), (2, 0)});
    s := Reach(s, true, TimeOut(2));
    s := Reach(s, true, StoppedOne(2, (1, 0)));
    assert {(1, 0), (2, 0)} - {(1, 0)} == {(2, 0)};
    s := Reach(s, true, StoppedOne(2, (2, 0)));
    s := Reach(s, true, Resume);
    assert 2 in s.tasks[1].rest;
    step := TornDown(1, 2);
  }

  // ----- Exactly when a resume is too early -----

  /** A pass tearing down has a key to go that is no longer registered. */
  predicate Bereft(s: State, t: TaskId) {
    t in s.tasks && s.tasks[t].Tearing? && !(s.tasks[t].rest <= s.monitors.Keys)
  }

  /** Nor does the owner resume while a pass tears down what a stop has cleared away. */
  predicate Settled(s: State, step: Step) {
    Orderly(s, step) && (step.Resume? ==> forall t | t in s.tasks :: !Bereft(s, t))
  }

  /** Unless latched, a pass still finds every key it is to tear down. */
  ghost predicate RestRegistered(s: State) {
    !s.latch ==> forall t | t in s.tasks :: !Bereft(s, t)
  }

  lemma RestKept(s: State, step: Step)
    requires Inv(s) && RestRegistered(s) && Enabled(s, step) && Settled(s, step)
    ensures RestRegistered(Apply(s, step))
  {
  }

  /** If every resume waits for that too, no pass ever raises. */
  lemma {:induction false} SettledNeverRaises(states: seq<State>, steps: seq<Step>, n: nat)
    requires IsRun(states, steps) && n < |states|
    requires forall i {:trigger steps[i]} :: 0 <= i < |steps| ==> Settled(states[i], steps[i])
    ensures RestRegistered(states[n]) && (n < |steps| ==> !Raises(states[n], steps[n]))
  {
    assert IsOrderly(states, steps);
    if n > 0 {
      SettledNeverRaises(states, steps, n - 1);
      RunInv(states, steps, n - 1);
      RestKept(states[n - 1], steps[n - 1]);
    }
  }

  /** These steps lead from `s` to `t` without another resume. */
  ghost predicate Leads(s: State, steps: seq<Step>, t: State)
    decreases |steps|
  {
    if steps == [] then s == t
    else Enabled(s, steps[0]) && !steps[0].Resume? && Leads(Apply(s, steps[0]), steps[1..], t)
  }

  ghost predicate CanReach(s: State, t: State) {
    exists steps :: Leads(s, steps, t)
  }

  predicate Orphaned(s: State) {
    exists m :: m in s.started && (m.0 !in s.monitors || s.monitors[m.0] != m.1)
  }

  /** What is still to come of the owner resuming now can leave a running monitor out of the registry. */
  ghost predicate ResumeCanOrphan(s: State) {
    exists t :: CanReach(Apply(s, Resume), t) && Orphaned(t)
  }

  /** Or can make a pass raise. */
  ghost predicate ResumeCanRaise(s: State) {
    exists t, step :: CanReach(Apply(s, Resume), t) && Enabled(t, step) && Raises(t, step)
  }

  lemma {:induction false} LeadsKeeps(s: State, steps: seq<Step>, t: State)
    requires Inv(s) && Leads(s, steps, t)
    ensures Inv(t) && (RestRegistered(s) ==> RestRegistered(t))
    decreases |steps|
  {
    if steps != [] {
      InvKept(s, steps[0]);
      if RestRegistered(s) {
        RestKept(s, steps[0]);
      }
      LeadsKeeps(Apply(s, steps[0]), steps[1..], t);
    }
  }

  lemma {:induction false} LeadsOn(s: State, steps: seq<Step>, t: State, step: Step)
    requires Leads(s, steps, t) && Enabled(t, step) && !step.Resume?
    ensures Leads(s, steps + [step], Apply(t, step))
    decreases |steps|
  {
    if steps == [] {
      assert ([] + [step])[1..] == [];
    } else {
      LeadsOn(Apply(s, steps[0]), steps[1..], t, step);
      assert (steps + [step])[1..] == steps[1..] + [step];
    }
  }

  lemma Then(s: State, t: State, step: Step) returns (u: State)
    requires CanReach(s, t) && Enabled(t, step) && !step.Resume?
    ensures u == Apply(t, step) && CanReach(s, u)
  {
    var steps :| Leads(s, steps, t);
    LeadsOn(s, steps, t, step);
    u := Apply(t, step);
  }

  lemma {:induction false} Unused(ids: set<nat>) returns (n: nat)
    ensures forall i | i in ids :: i < n
    decreases |ids|
  {
    if ids == {} {
      n := 0;
    } else {
      var i :| i in ids;
      n := Unused(ids - {i});
      assert forall k :: k in ids <==> k == i || k in ids - {i};
      n := if n <= i then i + 1 else n;
    }
  }

  /** Apart from the tasks themselves, and the lock, nothing differs; and this task does not either. */
  predicate Same(s: State, u: State, t: TaskId) {
    u.monitors == s.monitors && u.started == s.started && u.passes == s.passes && u.latch == s.latch
    && TaskOf(u, t) == TaskOf(s, t)
  }

  /** Whoever else holds the lock can be cancelled. */
  lemma FreeLock(s0: State, s: State, t: TaskId) returns (u: State)
    requires CanReach(s0, s) && Locked(s) && s.lock != Some(t)
    ensures CanReach(s0, u) && Same(s, u, t) && u.lock.None?
  {
    u := s;
    if s.lock.Some? {
      u := Then(s0, s, Cancel(s.lock.value));
    }
  }

  /** With the lock free, a pass can begin. */
  lemma BeginPass(s0: State, s: State, t: TaskId) returns (u: State, pass: TaskId)
    requires CanReach(s0, s) && s.lock.None?
    ensures CanReach(s0, u) && Same(s, u, t) && TaskOf(u, pass).Collecting? && u.lock == Some(pass) && pass != t
  {
    pass := Unused(s.tasks.Keys + {t});
    u := Then(s0, s, Reconcile(pass));
    u := Then(s0, u, Acquire(pass));
  }

  /** And can add what it wants. */
  lemma AddingPass(s0: State, s: State, t: TaskId, wanted: set<Key>) returns (u: State)
    requires CanReach(s0, s) && s.lock.None? && !s.latch
    ensures CanReach(s0, u) && Same(Create(s, wanted), u, t) && u.lock.None?
  {
    var pass;
    u, pass := BeginPass(s0, s, t);
    var next := 0;
    if u.monitors.Keys - wanted != {} {
      next :| next in u.monitors.Keys - wanted;
    }
    u := Then(s0, u, Collected(pass, wanted, true, next));
  }

  /** A stop past its wait can stop everything on its list, and clear the registry. */
  lemma {:induction false} FinishStop(s0: State, s: State, t: TaskId, other: TaskId) returns (u: State)
    requires CanReach(s0, s) && TaskOf(s, t).Stopping? && s.tasks[t].todo != {} && other != t && s.lock != Some(t)
    ensures CanReach(s0, u) && u.monitors == map[] && u.started == s.started - s.tasks[t].todo
    ensures u.latch == s.latch && TaskOf(u, other) == TaskOf(s, other)
    decreases s.tasks[t].todo
  {
    var todo := s.tasks[t].todo;
    var m :| m in todo;
    u := Then(s0, s, StoppedOne(t, m));
    if todo - {m} != {} {
      u := FinishStop(s0, u, t, other);
      assert s.started - {m} - (todo - {m}) == s.started - todo;
    } else {
      assert todo == {m};
    }
  }

  /** A stop without the lock can be past its wait, unlatched, with the lock free. */
  lemma LooseStops(s: State, t: TaskId) returns (u: State)
    requires Inv(s) && Loose(s, t)
    ensures CanReach(Apply(s, Resume), u) && u.lock.None? && !u.latch
    ensures TaskOf(u, t).Stopping? && u.tasks[t].todo != {}
  {
    var s0 := Apply(s, Resume);
    assert Leads(s0, [], s0);
    u := FreeLock(s0, s0, t);
    if TaskOf(u, t).WaitingToStop? {
      u := AddingPass(s0, u, t, {0});
      assert (0, u.monitors[0]) in Registered(u);
      u := Then(s0, u, TimeOut(t));
    }
  }

  lemma LooseOrphans(s: State, t: TaskId)
    requires Inv(s) && Loose(s, t)
    ensures ResumeCanOrphan(s)
  {
    var s0 := Apply(s, Resume);
    var u := LooseStops(s, t);
    var todo := u.tasks[t].todo;
    var taken := u.monitors.Keys + set o: Monitor | o in todo :: o.0;
    var key := Unused(taken);
    var other := Unused({t});
    var m: Monitor := (key, u.passes);
    assert m in todo ==> m.0 in taken;
    assert m !in todo && m in Made(u, {key});
    u := AddingPass(s0, u, t, {key});
    assert m in u.started;
    u := FinishStop(s0, u, t, other);
    assert m in u.started && m.0 !in u.monitors;
  }

  lemma LooseRaises(s: State, t: TaskId)
    requires Inv(s) && Loose(s, t)
    ensures ResumeCanRaise(s)
  {
    var s0 := Apply(s, Resume);
    var u := LooseStops(s, t);
    u := AddingPass(s0, u, t, {0, 1});
    var pass;
    u, pass := BeginPass(s0, u, t);
    var keys := u.monitors.Keys;
    assert 0 in keys && 1 in keys && keys - {} == keys;
    u := Then(s0, u, Collected(pass, {}, false, 0));
    assert 1 in u.tasks[pass].rest;
    u := FinishStop(s0, u, t, pass);
    assert Raises(u, TornDown(pass, 1));
  }

  /**
   From any state of an orderly run: resuming can leave a running monitor out of the
   registry if and only if a stop is in flight without the lock.
   */
  lemma ResumeOrphansIff(s: State)
    requires Inv(s)
    ensures ResumeCanOrphan(s) <==> exists t :: Loose(s, t)
  {
    if t :| Loose(s, t) {
      LooseOrphans(s, t);
    } else if ResumeCanOrphan(s) {
      var t :| CanReach(Apply(s, Resume), t) && Orphaned(t);
      var steps :| Leads(Apply(s, Resume), steps, t);
      InvKept(s, Resume);
      LeadsKeeps(Apply(s, Resume), steps, t);
    }
  }

  /** And it can make a pass raise if and only if such a stop is, or a pass is tearing down what was cleared away. */
  lemma ResumeRaisesIff(s: State)
    requires Inv(s)
    ensures ResumeCanRaise(s) <==> exists t :: Loose(s, t) || Bereft(s, t)
  {
    if t :| Loose(s, t) {
      LooseRaises(s, t);
    } else if t :| Bereft(s, t) {
      BereftRaises(s, t);
    } else if ResumeCanRaise(s) {
      var t, step :| CanReach(Apply(s, Resume), t) && Enabled(t, step) && Raises(t, step);
      var steps :| Leads(Apply(s, Resume), steps, t);
      InvKept(s, Resume);
      LeadsKeeps(Apply(s, Resume), steps, t);
    }
  }

  lemma BereftRaises(s: State, t: TaskId)
    requires Bereft(s, t)
    ensures ResumeCanRaise(s)
  {
    var s0 := Apply(s, Resume);
    var key :| key in s.tasks[t].rest && key !in s.monitors;
    assert Leads(s0, [], s0) && CanReach(s0, s0);
    assert Enabled(s0, TornDown(t, key)) && Raises(s0, TornDown(t, key));
  }

  // ----- The end of a pass, as it runs -----

  class Registry {
    var monitors: map<Key, nat>
    var started: set<Monitor>
    var passes: nat

    constructor ()
      ensures monitors == map[] && started == {} && passes == 0
    {
      monitors, started, passes := map[], {}, 0;
    }

    /** Register a monitor for each wanted broker without one, then start the new ones. */
    method AddWanted(brokers: seq<Key>, ghost s: State)
      requires s.monitors == monitors && s.started == started && s.passes == passes
      modifies this
      ensures var after := Create(s, set k | k in brokers);
              monitors == after.monitors && started == after.started && passes == after.passes
    {
      var registered, news := Register(brokers, s, monitors, passes);
      monitors, started, passes := registered, started + news, passes + 1;
    }
  }

  /** The registering loop: the registry it leaves, and the monitors it made. */
  method Register(brokers: seq<Key>, ghost s: State, monitors: map<Key, nat>, pass: nat)
    returns (registered: map<Key, nat>, news: set<Monitor>)
    requires s.monitors == monitors && s.passes == pass
    ensures registered == Create(s, set k | k in brokers).monitors
    ensures s.started + news == Create(s, set k | k in brokers).started
  {
    registered, news := monitors, {};
    for i := 0 to |brokers|
      invariant Added(s, brokers, i, registered, news)
    {
      AddedNext(s, brokers, i, registered, news);
      if brokers[i] !in registered {
        registered := registered[brokers[i] := pass];
        news := news + {(brokers[i], pass)};
      }
    }
    assert Upto(brokers, |brokers|) == set k | k in brokers;
  }

  ghost predicate Added(s: State, brokers: seq<Key>, i: nat, registered: map<Key, nat>, news: set<Monitor>)
    requires i <= |brokers|
  {
    registered == Create(s, Upto(brokers, i)).monitors && news == Made(s, Upto(brokers, i))
  }

  lemma CreateMore(s: State, wanted: set<Key>, k: Key)
    ensures var before, after := Create(s, wanted).monitors, Create(s, wanted + {k}).monitors;
            after == if k in before then before else before[k := s.passes]
  {
  }

  lemma MadeMore(s: State, wanted: set<Key>, k: Key)
    ensures Made(s, wanted + {k})
            == if k in wanted + s.monitors.Keys then Made(s, wanted) else Made(s, wanted) + {(k, s.passes)}
  {
  }

  function Upto(brokers: seq<Key>, i: nat): set<Key>
    requires i <= |brokers|
  {
    set k | k in brokers[..i]
  }

  lemma UptoNext(brokers: seq<Key>, i: nat)
    requires i < |brokers|
    ensures Upto(brokers, i + 1) == Upto(brokers, i) + {brokers[i]}
  {
    assert brokers[..i + 1] == brokers[..i] + [brokers[i]];
  }

  lemma AddedNext(s: State, brokers: seq<Key>, i: nat, registered: map<Key, nat>, news: set<Monitor>)
    requires i < |brokers| && Added(s, brokers, i, registered, news)
    ensures brokers[i] in registered ==> Added(s, brokers, i + 1, registered, news)
    ensures brokers[i] !in registered ==>
              Added(s, brokers, i + 1, registered[brokers[i] := s.passes], news + {(brokers[i], s.passes)})
  {
    UptoNext(brokers, i);
    CreateMore(s, Upto(brokers, i), brokers[i]);
    MadeMore(s, Upto(brokers, i), brokers[i]);
  }
}

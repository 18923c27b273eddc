/**
 The peer-link listener lifecycle (_remote_build_lifecycle.py) as a step machine.

 `converge`, `reload_identity` and `shutdown` are tasks that serialise on one
 lock; a step is one stretch of a task between two awaits, or an outside event.
 Reading settings, cleaning a runner up, building one and refreshing the mDNS
 record are awaits that may end either way where the code lets them.

 A converge runs either inside a client's command (`set_settings`, `request_pair`),
 which the client's disconnect cancels at whatever await it is in, or in the
 background (a retry timer, a pairing event), where only the stop of the whole program
 cancels it, just before `shutdown`.  An identity reload is shielded.  A command writes first and converges
 next, with an await in between, so a write may also be followed by no converge at all.
 The receiver controller is created once and kept (device_builder.py:496), and an
 advertiser is attached throughout.
 */
module ListenerLifecycle {
  import opened Optional

  type TaskId = nat
  type TimerId = nat

  const RETRY_DELAY := 30
  const RETRY_MAX_DELAY := 3600

  // ----- State -----

  /**
   What the bind decision depends on, and which identity key is on disk; `enabled`
   already folds in the command-line override.
   */
  datatype Env = Env(enabled: bool, pairings: bool, receiver: bool, key: nat) {
    predicate Wants() { enabled || pairings }
  }

  datatype Policy = Policy(receiverRole: bool, needed: bool, receiver: bool) {
    predicate Wanted() { receiverRole || needed }
    predicate Bind() { Wanted() && receiver }
  }

  datatype Kind = Converge(client: bool) | Reload | Shutdown

  /** What a teardown goes on to. */
  datatype Next = ToPolicy | ToStart(policy: Policy) | ToVerdict(policy: Policy) | ToEnd

  datatype Pc =
    | Spawned                      // not yet run
    | Queued                       // waiting for the lock
    | Reading                      // loading the settings
    | Snapshot(enabled: bool)      // settings loaded, rest of the policy not yet read
    | Cleaning(next: Next)         // old runner being cleaned up
    | Clearing(next: Next)         // cleared advertise being refreshed
    | Building(policy: Policy, since: nat)  // new runner being built, its key not yet read when `since` was current
    | Publishing(policy: Policy)   // new advertise being refreshed
    | Gone                         // returned, raised or cancelled

  datatype Task = Task(kind: Kind, pc: Pc)

  /** The running socket: its port, and the identity key it was built with. */
  datatype Runner = Runner(port: nat, key: nat)

  /** The listener and what mDNS says about it. */
  datatype Listener = Listener(
    runner: Option<Runner>, boundPort: Option<nat>, role: bool, pin: bool, port: Option<nat>)

  /** The retry slot, the timers the event loop holds, and the strike counter. */
  datatype Retry = Retry(handle: Option<TimerId>, timers: set<TimerId>, next: TimerId, strikes: nat)

  /** Read by no step. */
  datatype History = History(
    aim: Policy,    // the policy of the last verdict, or of the last bind if that is later
    owed: bool,     // the last verdict left the listener wanted but unbound, or was a converge raising
    lapse: bool,    // a task gave up between a teardown and its verdict, and no bind or verdict since
    missed: bool,   // a write, or a cancelled converge, since a converge was last called
    stale: bool,    // a cleanup of an advertised runner was cancelled, and nothing advertised since
    drained: bool)  // a background converge was cancelled

  datatype State = State(
    env: Env, listener: Listener, retry: Retry, stopped: bool, tracking: bool,
    holder: Option<TaskId>, tasks: map<TaskId, Task>, history: History)

  const NO_LISTENER := Listener(None, None, false, false, None)
  const NO_RETRY := Retry(None, {}, 0, 0)
  const NO_HISTORY := History(Policy(false, false, false), false, false, true, false, false)

  function Init(env: Env): State {
    State(env, NO_LISTENER, NO_RETRY, false, true, None, map[], NO_HISTORY)
  }

  // ----- Steps -----

  function Pow2(n: nat): nat {
    if n == 0 then 1 else 2 * Pow2(n - 1)
  }

  function Min(a: nat, b: nat): nat {
    if a < b then a else b
  }

  function Delay(strikes: nat): nat {
    Min(RETRY_DELAY * Pow2(Min(strikes, 32)), RETRY_MAX_DELAY)
  }

  function ScheduleRetry(r: Retry, stopped: bool): Retry {
    if r.handle.Some? || stopped then r
    else Retry(Some(r.next), r.timers + {r.next}, r.next + 1, r.strikes + 1)
  }

  function CancelTimer(r: Retry): Retry {
    if r.handle.None? then r else r.(handle := None, timers := r.timers - {r.handle.value})
  }

  function Goto(s: State, t: TaskId, pc: Pc): State
    requires t in s.tasks
  {
    s.(tasks := s.tasks[t := s.tasks[t].(pc := pc)])
  }

  function Release(s: State, t: TaskId): State
    requires t in s.tasks
  {
    s.(holder := None, tasks := s.tasks[t := s.tasks[t].(pc := Gone)])
  }

  /** The end of `_converge_locked`. */
  function Verdict(s: State, t: TaskId, policy: Policy): State
    requires t in s.tasks
  {
    var bad := policy.Wanted() && s.listener.runner.None?;
    var retry := if bad then ScheduleRetry(s.retry, s.stopped) else s.retry.(strikes := 0);
    Release(s.(retry := retry, history := s.history.(aim := policy, owed := bad, lapse := false)), t)
  }

  function Continue(s: State, t: TaskId, next: Next): State
    requires t in s.tasks
  {
    match next
    case ToPolicy => Goto(s, t, Reading)
    case ToStart(policy) => Goto(s, t, Building(policy, s.env.key))
    case ToVerdict(policy) => Verdict(s, t, policy)
    case ToEnd => Release(s, t)
  }

  /** `_teardown_runner`: the fields go first, the awaits follow. */
  function Teardown(s: State, t: TaskId, next: Next): State
    requires t in s.tasks
  {
    if s.listener.runner.None? then Continue(s, t, next)
    else Goto(s.(listener := s.listener.(runner := None, boundPort := None, role := false)), t, Cleaning(next))
  }

  function Decide(s: State, t: TaskId, enabled: bool): State
    requires t in s.tasks
  {
    var policy := Policy(enabled, s.env.pairings, s.env.receiver);
    if !policy.Wanted() then Teardown(s, t, ToVerdict(policy))
    else if policy.Bind() && s.listener.runner.None? then Goto(s, t, Building(policy, s.env.key))
    else if policy.Bind() && policy.receiverRole != s.listener.role then Teardown(s, t, ToStart(policy))
    else Verdict(s, t, policy)
  }

  function Acquire(s: State, t: TaskId): State
    requires t in s.tasks
  {
    var held := s.(holder := Some(t));
    match s.tasks[t].kind
    case Converge(_) => if s.stopped then Release(held, t) else Goto(held, t, Reading)
    case Reload => if s.listener.runner.None? then Release(held, t) else Teardown(held, t, ToPolicy)
    case Shutdown => Teardown(held, t, ToEnd)
  }

  /** The runner is up: it is recorded, and a receiver's pin and port are set for the advertise. */
  function Bound(s: State, t: TaskId, policy: Policy, port: nat, key: nat): State
    requires t in s.tasks
  {
    var history := s.history.(aim := policy, lapse := false);
    var runner := Some(Runner(port, key));
    if policy.receiverRole then
      Goto(s.(listener := Listener(runner, Some(port), true, true, Some(port)),
              history := history.(stale := false)), t, Publishing(policy))
    else
      Verdict(s.(listener := s.listener.(runner := runner, boundPort := Some(port), role := false),
                 history := history), t, policy)
  }

  /** A raise while the settings are read; only a converge has the handler that arms the retry. */
  function Raised(s: State, t: TaskId): State
    requires t in s.tasks
  {
    if s.tasks[t].kind.Converge? then
      Release(s.(retry := ScheduleRetry(s.retry, s.stopped), history := s.history.(owed := true)), t)
    else
      Release(s.(history := s.history.(lapse := true)), t)
  }

  /** A cancelled converge: its handler lets the cancellation pass, so all that happens is that the lock is given up. */
  function Cancelled(s: State, t: TaskId): State
    requires t in s.tasks
  {
    var pc := s.tasks[t].pc;
    var history := s.history.(
      missed := true,
      drained := s.history.drained || s.tasks[t].kind == Converge(false),
      lapse := s.history.lapse || pc.Cleaning? || pc.Clearing? || pc.Building?,
      stale := s.history.stale || (pc.Cleaning? && s.listener.pin));
    if Waits(pc) then Goto(s.(history := history), t, Gone) else Release(s.(history := history), t)
  }

  function Spawn(s: State, t: TaskId, client: bool): State {
    s.(tasks := s.tasks[t := Task(Converge(client), Spawned)], history := s.history.(missed := false))
  }

  function Write(s: State, env: Env): State {
    s.(env := env, history := s.history.(missed := true))
  }

  datatype Step =
    | SetEnabled(enabled: bool)                 // a command stores the switch
    | StorePairing(pairings: bool)              // a command stores a pairing, firing no status event
    | PairingEvent(pairings: bool, t: TaskId)   // a pairing changes and the status event is fired
    | ReceiverArrives
    | Rotate                                    // a command stores a new identity key
    | CallConverge(t: TaskId)                   // a command goes on to converge
    | CallReload(t: TaskId)                     // a rotation goes on to rebuild the listener
    | CallShutdown(t: TaskId)
    | TimerFires(id: TimerId, t: TaskId)
    | Enter(t: TaskId)
    | TakeLock(t: TaskId)
    | Cancel(t: TaskId)
    | ReadSettings(t: TaskId)
    | Raise(t: TaskId)
    | Judge(t: TaskId)
    | Cleaned(t: TaskId)
    | Cleared(t: TaskId)
    | Built(t: TaskId, port: nat, key: nat)
    | BuildFailed(t: TaskId)
    | Published(t: TaskId)

  predicate At(s: State, t: TaskId, pc: Pc) {
    t in s.tasks && s.tasks[t].pc == pc
  }

  predicate Enabled(s: State, step: Step) {
    match step
    case SetEnabled(_) => true
    case StorePairing(_) => true
    case PairingEvent(_, t) => t !in s.tasks
    case ReceiverArrives => true
    case Rotate => true
    case CallConverge(t) => t !in s.tasks
    case CallReload(t) => t !in s.tasks
    case CallShutdown(t) => t !in s.tasks
    case TimerFires(id, t) => id in s.retry.timers && t !in s.tasks
    case Enter(t) => At(s, t, Spawned)
    case TakeLock(t) => At(s, t, Queued) && s.holder.None?
    case Cancel(t) => t in s.tasks && s.tasks[t].kind.Converge? && !s.tasks[t].pc.Gone?
    case ReadSettings(t) => At(s, t, Reading)
    case Raise(t) => At(s, t, Reading)
    case Judge(t) => t in s.tasks && s.tasks[t].pc.Snapshot?
    case Cleaned(t) => t in s.tasks && s.tasks[t].pc.Cleaning?
    case Cleared(t) => t in s.tasks && s.tasks[t].pc.Clearing?
    case Built(t, _, key) =>
      t in s.tasks && s.tasks[t].pc.Building? && s.tasks[t].pc.since <= key <= s.env.key
    case BuildFailed(t) => t in s.tasks && s.tasks[t].pc.Building?
    case Published(t) => t in s.tasks && s.tasks[t].pc.Publishing?
  }

  function Apply(s: State, step: Step): State
    requires Enabled(s, step)
  {
    match step
    case SetEnabled(e) => Write(s, s.env.(enabled := e))
    case StorePairing(p) => Write(s, s.env.(pairings := p))
    case PairingEvent(p, t) =>
      var stored := Write(s, s.env.(pairings := p));
      if s.tracking then Spawn(stored, t, false) else stored
    case ReceiverArrives => s.(env := s.env.(receiver := true))
    case Rotate => s.(env := s.env.(key := s.env.key + 1))
    case CallConverge(t) => Spawn(s, t, true)
    case CallReload(t) => s.(tasks := s.tasks[t := Task(Reload, Queued)])
    case CallShutdown(t) =>
      s.(stopped := true, tracking := false, retry := CancelTimer(s.retry),
         tasks := s.tasks[t := Task(Shutdown, Queued)])
    case TimerFires(id, t) =>
      Spawn(s.(retry := s.retry.(timers := s.retry.timers - {id}, handle := None)), t, false)
    case Enter(t) => Goto(s, t, if s.stopped then Gone else Queued)
    case TakeLock(t) => Acquire(s, t)
    case Cancel(t) => Cancelled(s, t)
    case ReadSettings(t) => Goto(s, t, Snapshot(s.env.enabled))
    case Raise(t) => Raised(s, t)
    case Judge(t) => Decide(s, t, s.tasks[t].pc.enabled)
    case Cleaned(t) =>
      var next := s.tasks[t].pc.next;
      if next.ToEnd? then Continue(s, t, ToEnd)
      else Goto(s.(listener := s.listener.(pin := false, port := None),
                   history := s.history.(stale := false)), t, Clearing(next))
    case Cleared(t) => Continue(s, t, s.tasks[t].pc.next)
    case Built(t, port, key) => Bound(s, t, s.tasks[t].pc.policy, port, key)
    case BuildFailed(t) => Verdict(s, t, s.tasks[t].pc.policy)
    case Published(t) => Verdict(s, t, s.tasks[t].pc.policy)
  }

  predicate Waits(pc: Pc) {
    pc.Spawned? || pc.Queued? || pc.Gone?
  }

  /** The task a step moves or starts. */
  function Mover(step: Step): Option<TaskId> {
    if step.SetEnabled? || step.StorePairing? || step.ReceiverArrives? || step.Rotate? then None else Some(step.t)
  }

  // Six groups of steps, by what they touch; each invariant is shown to survive one group at a time.

  predicate Outside(step: Step) {
    !step.TakeLock? && !step.Cancel? && !step.Judge? && !Tears(step) && !Binds(step)
  }

  predicate Tears(step: Step) {
    step.Cleaned? || step.Cleared?
  }

  predicate Binds(step: Step) {
    step.Built? || step.BuildFailed? || step.Published?
  }

  // ----- One task at a time is past the lock -----

  ghost predicate TimersInv(s: State) {
    && (forall id: TimerId :: id in s.retry.timers <==> s.retry.handle == Some(id))
    && (s.retry.handle.Some? ==> s.retry.handle.value < s.retry.next)
    && (s.stopped ==> s.retry.handle.None?)
    && (s.tracking <==> !s.stopped)
  }

  /** Which places each kind of task can be in. */
  ghost predicate TaskShape(task: Task, stopped: bool) {
    var tearing := task.pc.Cleaning? || task.pc.Clearing?;
    match task.kind
    case Converge(_) => !(tearing && (task.pc.next.ToEnd? || task.pc.next.ToPolicy?))
    case Reload => !task.pc.Spawned? && !(tearing && task.pc.next.ToEnd?)
    case Shutdown => stopped && (task.pc.Queued? || task.pc.Gone? || task.pc == Cleaning(ToEnd))
  }

  ghost predicate LockInv(s: State) {
    && (s.holder.Some? ==> s.holder.value in s.tasks && !Waits(s.tasks[s.holder.value].pc))
    && (forall t: TaskId :: t in s.tasks && !Waits(s.tasks[t].pc) ==> s.holder == Some(t))
    && (forall t: TaskId :: t in s.tasks ==> TaskShape(s.tasks[t], s.stopped))
  }

  lemma TimersKept(s: State, step: Step)
    requires TimersInv(s) && Enabled(s, step)
    ensures TimersInv(Apply(s, step))
  {
  }

  lemma LockKeptOutside(s: State, step: Step)
    requires LockInv(s) && Enabled(s, step) && Outside(step)
    ensures LockInv(Apply(s, step))
  {
  }

  lemma LockKeptTaking(s: State, t: TaskId)
    requires LockInv(s) && Enabled(s, TakeLock(t))
    ensures LockInv(Apply(s, TakeLock(t)))
  {
  }

  /** The holder moves on past the lock, or gives it up. */
  lemma LockKeptBy(s: State, u: State, t: TaskId)
    requires LockInv(s) && s.holder == Some(t) && t in u.tasks
    requires u.tasks == s.tasks[t := u.tasks[t]] && u.stopped == s.stopped
    requires TaskShape(u.tasks[t], u.stopped) && u.holder == if Waits(u.tasks[t].pc) then None else Some(t)
    ensures LockInv(u)
  {
  }

  /** A verdict moves its task on past the lock, or releases it, and touches no other task. */
  lemma DecideMoves(s: State, t: TaskId, enabled: bool)
    requires t in s.tasks && s.holder == Some(t) && !s.tasks[t].kind.Shutdown?
    ensures var u := Decide(s, t, enabled);
            && t in u.tasks && u.tasks == s.tasks[t := u.tasks[t]] && u.stopped == s.stopped
            && TaskShape(u.tasks[t], u.stopped) && u.holder == if Waits(u.tasks[t].pc) then None else Some(t)
  {
  }

  lemma LockKeptJudging(s: State, step: Step)
    requires LockInv(s) && Enabled(s, step) && step.Judge?
    ensures LockInv(Apply(s, step))
  {
    DecideMoves(s, step.t, s.tasks[step.t].pc.enabled);
    LockKeptBy(s, Apply(s, step), step.t);
  }

  lemma LockKeptInside(s: State, step: Step)
    requires LockInv(s) && Enabled(s, step) && (Tears(step) || Binds(step))
    ensures LockInv(Apply(s, step))
  {
    LockKeptBy(s, Apply(s, step), step.t);
  }

  lemma LockKept(s: State, step: Step)
    requires LockInv(s) && Enabled(s, step)
    ensures LockInv(Apply(s, step))
  {
    if Outside(step) {
      LockKeptOutside(s, step);
    } else if step.TakeLock? {
      LockKeptTaking(s, step.t);
    } else if step.Judge? {
      LockKeptJudging(s, step);
    } else if !step.Cancel? {
      LockKeptInside(s, step);
    } else if !Waits(s.tasks[step.t].pc) {
      LockKeptBy(s, Apply(s, step), step.t);
    }
  }

  // ----- The listener's fields agree -----

  /** The task past the lock, if there is one. */
  ghost predicate Past(s: State) {
    s.holder.Some? && s.holder.value in s.tasks
  }

  ghost function PastTask(s: State): Task
    requires Past(s)
  {
    s.tasks[s.holder.value]
  }

  /** What the task past the lock knows about the listener. */
  ghost predicate NextInv(next: Next, env: Env) {
    match next
    case ToVerdict(policy) => !policy.Wanted()
    case ToStart(policy) => policy.Bind() && env.receiver
    case _ => true
  }

  ghost predicate PcInv(pc: Pc, l: Listener, env: Env) {
    match pc
    case Cleaning(next) => l.runner.None? && NextInv(next, env)
    case Clearing(next) => l.runner.None? && NextInv(next, env)
    case Building(policy, since) => l.runner.None? && policy.Bind() && env.receiver && since <= env.key
    case Publishing(policy) => l.runner.Some? && l.role && policy.receiverRole
    case _ => true
  }

  function PortOf(runner: Option<Runner>): Option<nat> {
    if runner.Some? then Some(runner.value.port) else None
  }

  ghost predicate FieldsInv(s: State) {
    && s.listener.boundPort == PortOf(s.listener.runner)
    && (s.listener.runner.Some? ==> s.listener.runner.value.key <= s.env.key)
    && (s.listener.role ==> s.listener.runner.Some?)
    && (s.listener.runner.Some? ==> s.env.receiver)
    && (Past(s) ==> PcInv(PastTask(s).pc, s.listener, s.env))
    && (Past(s) && PastTask(s).kind.Reload? && !PastTask(s).pc.Publishing? ==> s.listener.runner.None?)
  }

  ghost predicate Advertised(l: Listener) {
    l.port == if l.role then l.boundPort else None
  }

  /** Pin and port are advertised exactly while bound in the receiver role, but for a teardown not yet cleared. */
  ghost predicate AdvertInv(s: State) {
    !s.stopped ==>
      && s.listener.pin == s.listener.port.Some?
      && (s.history.stale ==> s.listener.port.Some? && !s.listener.role)
      && (!s.history.stale && !(Past(s) && PastTask(s).pc.Cleaning?) ==> Advertised(s.listener))
  }

  ghost predicate ShutdownHolds(s: State) {
    Past(s) && PastTask(s).kind.Shutdown?
  }

  /** This shutdown has returned. */
  predicate Returned(s: State, t: TaskId) {
    t in s.tasks && s.tasks[t] == Task(Shutdown, Gone)
  }

  ghost predicate Down(s: State) {
    s.stopped && s.listener.runner.None? && (s.holder.None? || ShutdownHolds(s))
  }

  ghost predicate DownInv(s: State) {
    (ShutdownHolds(s) ==> Down(s)) && forall t: TaskId :: Returned(s, t) ==> Down(s)
  }

  ghost predicate ListenerInv(s: State) {
    FieldsInv(s) && AdvertInv(s)
  }

  lemma ListenerKeptOutside(s: State, step: Step)
    requires LockInv(s) && ListenerInv(s) && Enabled(s, step) && Outside(step)
    ensures ListenerInv(Apply(s, step))
  {
  }

  lemma ListenerKeptTaking(s: State, step: Step)
    requires LockInv(s) && ListenerInv(s) && Enabled(s, step) && step.TakeLock?
    ensures ListenerInv(Apply(s, step))
  {
  }

  lemma ListenerKeptCancelling(s: State, step: Step)
    requires LockInv(s) && ListenerInv(s) && Enabled(s, step) && step.Cancel?
    ensures ListenerInv(Apply(s, step))
  {
  }

  lemma ListenerKeptJudging(s: State, step: Step)
    requires LockInv(s) && ListenerInv(s) && Enabled(s, step) && step.Judge?
    ensures ListenerInv(Apply(s, step))
  {
  }

  lemma FieldsKeptTearing(s: State, step: Step)
    requires LockInv(s) && ListenerInv(s) && Enabled(s, step) && Tears(step)
    ensures FieldsInv(Apply(s, step))
  {
  }

  lemma ListenerKeptTearing(s: State, step: Step)
    requires LockInv(s) && ListenerInv(s) && Enabled(s, step) && Tears(step)
    ensures ListenerInv(Apply(s, step))
  {
    FieldsKeptTearing(s, step);
  }

  lemma ListenerKeptBinding(s: State, step: Step)
    requires LockInv(s) && ListenerInv(s) && Enabled(s, step) && Binds(step)
    ensures ListenerInv(Apply(s, step))
  {
  }

  lemma DownStays(s: State, step: Step)
    requires LockInv(s) && Down(s) && Enabled(s, step)
    ensures Down(Apply(s, step))
  {
  }

  lemma ShutdownDowns(s: State, step: Step)
    requires LockInv(s) && Enabled(s, step)
    requires ShutdownHolds(Apply(s, step)) || (step.TakeLock? && Returned(Apply(s, step), step.t))
    ensures Down(s) || Down(Apply(s, step)) || ShutdownHolds(s)
  {
  }

  lemma DownKept(s: State, step: Step)
    requires LockInv(s) && DownInv(s) && Enabled(s, step)
    ensures DownInv(Apply(s, step))
  {
    var u := Apply(s, step);
    if Down(s) {
      DownStays(s, step);
    } else {
      forall t: TaskId | Returned(u, t) ensures Down(u) {
        if Mover(step) != Some(t) && t in s.tasks {
          OthersKept(s, step, t);
          assert Returned(s, t);
        } else {
          ShutdownDowns(s, step);
        }
      }
      if ShutdownHolds(u) {
        ShutdownDowns(s, step);
      }
    }
  }

  // ----- A failed converge is always followed up -----

  /** A converge that no client can cancel is in flight. */
  ghost predicate BackgroundInFlight(s: State) {
    exists t: TaskId :: t in s.tasks && s.tasks[t].kind == Converge(false) && !s.tasks[t].pc.Gone?
  }

  /** The program is not being stopped. */
  predicate Serving(s: State) {
    !s.stopped && !s.history.drained
  }

  ghost predicate OwedInv(s: State) {
    s.history.owed && Serving(s) ==> s.retry.handle.Some? || BackgroundInFlight(s)
  }

  /** A step moves at most the task it names. */
  lemma OthersKept(s: State, step: Step, c: TaskId)
    requires Enabled(s, step) && c in s.tasks && Mover(step) != Some(c)
    ensures c in Apply(s, step).tasks && Apply(s, step).tasks[c] == s.tasks[c]
  {
  }

  lemma KindKept(s: State, step: Step, c: TaskId)
    requires Enabled(s, step) && c in s.tasks
    ensures c in Apply(s, step).tasks && Apply(s, step).tasks[c].kind == s.tasks[c].kind
  {
  }

  /** A background converge in flight stays so unless the step ends it; a spawned one is in flight. */
  lemma FlightKept(s: State, step: Step, c: TaskId)
    requires Enabled(s, step) && c in Apply(s, step).tasks && !Apply(s, step).tasks[c].pc.Gone?
    requires c in s.tasks ==> s.tasks[c].kind == Converge(false)
    requires c !in s.tasks ==> Apply(s, step).tasks[c].kind == Converge(false)
    ensures BackgroundInFlight(Apply(s, step))
  {
    if c in s.tasks {
      KindKept(s, step, c);
    }
  }

  /** When a background converge ends before a shutdown, either nothing is owed any more or a timer is armed. */
  lemma EndSettles(s: State, step: Step, c: TaskId)
    requires TimersInv(s) && LockInv(s) && Enabled(s, step) && Serving(s) && Serving(Apply(s, step))
    requires c in s.tasks && s.tasks[c].kind == Converge(false) && !s.tasks[c].pc.Gone?
    requires c in Apply(s, step).tasks && Apply(s, step).tasks[c].pc.Gone?
    ensures Apply(s, step).history.owed ==> Apply(s, step).retry.handle.Some?
  {
    if Mover(step) != Some(c) {
      OthersKept(s, step, c);
    }
  }

  lemma JudgedDebtIsArmed(s: State, step: Step)
    requires TimersInv(s) && LockInv(s) && Enabled(s, step) && step.Judge?
    requires !Apply(s, step).stopped && Apply(s, step).history.owed
    ensures Apply(s, step).retry.handle.Some? || (s.history.owed && s.retry.handle.None?)
  {
  }

  /** What is newly owed has a timer armed for it, and a timer that fires spawns a converge. */
  lemma DebtIsArmed(s: State, step: Step)
    requires TimersInv(s) && LockInv(s) && Enabled(s, step) && !Apply(s, step).stopped && Apply(s, step).history.owed
    ensures Apply(s, step).retry.handle.Some? || (s.history.owed && s.retry.handle.None?) || step.TimerFires?
  {
    if step.Judge? {
      JudgedDebtIsArmed(s, step);
    }
  }

  lemma OwedKept(s: State, step: Step)
    requires TimersInv(s) && LockInv(s) && OwedInv(s) && Enabled(s, step)
    ensures OwedInv(Apply(s, step))
  {
    var u := Apply(s, step);
    if Serving(u) && u.history.owed && u.retry.handle.None? {
      DebtIsArmed(s, step);
      if step.TimerFires? {
        FlightKept(s, step, step.t);
      } else {
        var c: TaskId :| c in s.tasks && s.tasks[c].kind == Converge(false) && !s.tasks[c].pc.Gone?;
        KindKept(s, step, c);
        if u.tasks[c].pc.Gone? {
          EndSettles(s, step, c);
        } else {
          FlightKept(s, step, c);
        }
      }
    }
  }

  // ----- The listener follows the policy -----

  predicate YetToLook(s: State, t: TaskId) {
    t in s.tasks && s.tasks[t].kind.Converge? && (s.tasks[t].pc.Spawned? || s.tasks[t].pc.Queued?)
  }

  /** Some converge has yet to look at the policy. */
  ghost predicate Fresh(s: State) {
    exists t: TaskId :: YetToLook(s, t)
  }

  ghost predicate Current(policy: Policy, env: Env) {
    policy.receiverRole == env.enabled && policy.needed == env.pairings
  }

  ghost predicate NextSees(next: Next, env: Env) {
    (next.ToStart? || next.ToVerdict?) ==> Current(next.policy, env)
  }

  /** What the task past the lock has read of the policy still holds. */
  ghost predicate Sees(pc: Pc, env: Env) {
    match pc
    case Snapshot(enabled) => enabled == env.enabled
    case Cleaning(next) => NextSees(next, env)
    case Clearing(next) => NextSees(next, env)
    case Building(policy, _) => Current(policy, env)
    case Publishing(policy) => Current(policy, env)
    case _ => true
  }

  /** The listener is up exactly when `policy` wants it, in the role it wants. */
  ghost predicate Fits(l: Listener, policy: Policy) {
    && (l.runner.Some? <==> policy.Wanted())
    && (l.runner.Some? ==> l.role == policy.receiverRole)
  }

  ghost predicate Matches(l: Listener, env: Env) {
    && (l.runner.Some? <==> env.Wants())
    && (l.runner.Some? ==> l.role == env.enabled)
  }

  /** The task past the lock has torn the listener down and not yet put it back. */
  ghost predicate Torn(s: State) {
    && Past(s)
    && var Task(kind, pc) := PastTask(s);
       !pc.Publishing? && (kind.Converge? ==> pc.Cleaning? || pc.Clearing? || pc.Building?)
  }

  /** The listener is as the last verdict or bind left it. */
  ghost predicate AimInv(s: State) {
    !s.stopped && !s.history.owed && !Torn(s) ==>
      if s.history.lapse then s.listener.runner.None? else Fits(s.listener, s.history.aim)
  }

  /** Unless something was missed, what is being decided, or was decided last, is up to date. */
  ghost predicate SeenInv(s: State) {
    !s.stopped && !s.history.missed && !Fresh(s) ==>
      && (Past(s) ==> Sees(PastTask(s).pc, s.env))
      && (!s.history.owed && !(Past(s) && PastTask(s).kind.Converge?) ==> Current(s.history.aim, s.env))
  }

  ghost predicate FollowInv(s: State) {
    AimInv(s) && SeenInv(s)
  }

  /** A converge yet to look stays so unless the step is it taking the lock, a cancel or a late entry. */
  lemma FreshKept(s: State, step: Step)
    requires LockInv(s) && Enabled(s, step) && Fresh(s)
    requires !step.Cancel? && !(step.TakeLock? && s.tasks[step.t].kind.Converge?) && !(step.Enter? && s.stopped)
    ensures Fresh(Apply(s, step))
  {
    var c: TaskId :| YetToLook(s, c);
    if Mover(step) != Some(c) {
      OthersKept(s, step, c);
    }
    assert YetToLook(Apply(s, step), c);
  }

  lemma FollowKeptOutside(s: State, step: Step)
    requires TimersInv(s) && LockInv(s) && ListenerInv(s) && FollowInv(s) && Enabled(s, step) && Outside(step)
    ensures FollowInv(Apply(s, step))
  {
    if Fresh(s) && !(step.Enter? && s.stopped) {
      FreshKept(s, step);
    }
    if step.PairingEvent? || step.CallConverge? || step.TimerFires? {
      assert s.tracking || !step.PairingEvent? ==> YetToLook(Apply(s, step), step.t);
    }
  }

  lemma FollowKeptTaking(s: State, step: Step)
    requires TimersInv(s) && LockInv(s) && ListenerInv(s) && FollowInv(s) && Enabled(s, step) && step.TakeLock?
    ensures FollowInv(Apply(s, step))
  {
    if Fresh(s) && !s.tasks[step.t].kind.Converge? {
      FreshKept(s, step);
    }
  }

  lemma FollowKeptCancelling(s: State, step: Step)
    requires TimersInv(s) && LockInv(s) && ListenerInv(s) && FollowInv(s) && Enabled(s, step) && step.Cancel?
    ensures FollowInv(Apply(s, step))
  {
  }

  lemma AimKeptJudging(s: State, step: Step)
    requires TimersInv(s) && LockInv(s) && ListenerInv(s) && FollowInv(s) && Enabled(s, step) && step.Judge?
    ensures AimInv(Apply(s, step))
  {
  }

  lemma FollowKeptJudging(s: State, step: Step)
    requires TimersInv(s) && LockInv(s) && ListenerInv(s) && FollowInv(s) && Enabled(s, step) && step.Judge?
    ensures FollowInv(Apply(s, step))
  {
    AimKeptJudging(s, step);
    if Fresh(s) {
      FreshKept(s, step);
    }
  }

  lemma FollowKeptTearing(s: State, step: Step)
    requires TimersInv(s) && LockInv(s) && ListenerInv(s) && FollowInv(s) && Enabled(s, step) && Tears(step)
    ensures FollowInv(Apply(s, step))
  {
    if Fresh(s) {
      FreshKept(s, step);
    }
  }

  lemma FollowKeptBinding(s: State, step: Step)
    requires TimersInv(s) && LockInv(s) && ListenerInv(s) && FollowInv(s) && Enabled(s, step) && Binds(step)
    ensures FollowInv(Apply(s, step))
  {
    if Fresh(s) {
      FreshKept(s, step);
    }
  }

  // ----- Whole runs -----

  ghost predicate IsRun(states: seq<State>, steps: seq<Step>) {
    && |states| == |steps| + 1
    && (exists env :: states[0] == Init(env))
    && forall i {:trigger steps[i]} :: 0 <= i < |steps| ==>
         Enabled(states[i], steps[i]) && states[i + 1] == Apply(states[i], steps[i])
  }

  ghost predicate Inv(s: State) {
    TimersInv(s) && LockInv(s) && ListenerInv(s) && DownInv(s) && OwedInv(s) && FollowInv(s)
  }

  lemma InvKept(s: State, step: Step)
    requires Inv(s) && Enabled(s, step)
    ensures Inv(Apply(s, step))
  {
    TimersKept(s, step);
    LockKept(s, step);
    DownKept(s, step);
    OwedKept(s, step);
    if Outside(step) {
      ListenerKeptOutside(s, step);
      FollowKeptOutside(s, step);
    } else if step.TakeLock? {
      ListenerKeptTaking(s, step);
      FollowKeptTaking(s, step);
    } else if step.Cancel? {
      ListenerKeptCancelling(s, step);
      FollowKeptCancelling(s, step);
    } else if step.Judge? {
      ListenerKeptJudging(s, step);
      FollowKeptJudging(s, step);
    } else if Tears(step) {
      ListenerKeptTearing(s, step);
      FollowKeptTearing(s, step);
    } else {
      ListenerKeptBinding(s, step);
      FollowKeptBinding(s, step);
    }
  }

  lemma {:induction false} RunInv(states: seq<State>, steps: seq<Step>, n: nat)
    requires IsRun(states, steps) && n < |states|
    ensures Inv(states[n])
  {
    if n > 0 {
      RunInv(states, steps, n - 1);
      InvKept(states[n - 1], steps[n - 1]);
    }
  }

  /** A task that is gone stays so. */
  lemma {:induction false} ReturnedStays(states: seq<State>, steps: seq<Step>, n: nat, m: nat, t: TaskId)
    requires IsRun(states, steps) && n <= m < |states| && Returned(states[n], t)
    ensures Returned(states[m], t)
    decreases m
  {
    if n < m {
      ReturnedStays(states, steps, n, m - 1, t);
      OthersKept(states[m - 1], steps[m - 1], t);
    }
  }

  /** Once a `shutdown` has returned, nothing that was in flight can bind a listener or arm a timer, ever. */
  lemma ShutdownIsFinal(states: seq<State>, steps: seq<Step>, n: nat, m: nat, t: TaskId)
    requires IsRun(states, steps) && n <= m < |states| && Returned(states[n], t)
    ensures states[m].listener.runner.None? && states[m].listener.boundPort.None? && !states[m].listener.role
    ensures states[m].retry.handle.None? && states[m].retry.timers == {}
  {
    ReturnedStays(states, steps, n, m, t);
    RunInv(states, steps, m);
  }

  lemma {:induction false} ShutdownStands(states: seq<State>, steps: seq<Step>, i: nat, n: nat)
    requires IsRun(states, steps) && i < n < |states| && steps[i].CallShutdown?
    ensures steps[i].t in states[n].tasks && states[n].tasks[steps[i].t].kind.Shutdown?
    decreases n
  {
    assert states[n] == Apply(states[n - 1], steps[n - 1]) && Enabled(states[n - 1], steps[n - 1]);
    if i < n - 1 {
      ShutdownStands(states, steps, i, n - 1);
      KindKept(states[n - 1], steps[n - 1], steps[i].t);
    }
  }

  /** So once everything in flight after a call of `shutdown` has settled, the listener is down for good. */
  lemma ShutdownTakesDown(states: seq<State>, steps: seq<Step>, i: nat, n: nat, m: nat)
    requires IsRun(states, steps) && i < n <= m < |states| && steps[i].CallShutdown?
    requires forall t: TaskId :: t in states[n].tasks ==> states[n].tasks[t].pc.Gone?
    ensures states[m].listener.runner.None? && states[m].retry.timers == {}
  {
    ShutdownStands(states, steps, i, n);
    ShutdownIsFinal(states, steps, n, m, steps[i].t);
  }

  /**
   Whenever the lock is free: port iff runner, and role only when bound.  Before a
   shutdown, pin and port are those of a bound receiver, and absent otherwise, if and
   only if no cleanup of an advertised runner was cancelled since they were last set.
   */
  lemma LockFreeConsistency(states: seq<State>, steps: seq<Step>, n: nat)
    requires IsRun(states, steps) && n < |states| && states[n].holder.None?
    ensures states[n].listener.boundPort == PortOf(states[n].listener.runner)
    ensures states[n].listener.role ==> states[n].listener.runner.Some?
    ensures !states[n].stopped ==>
              && (states[n].listener.pin <==> states[n].listener.port.Some?)
              && (Advertised(states[n].listener) <==> !states[n].history.stale)
  {
    RunInv(states, steps, n);
  }

  predicate HasPolicy(next: Next) {
    next.ToStart? || next.ToVerdict?
  }

  /** The step is the last of a converge or reload that runs to its verdict. */
  predicate Concludes(s: State, step: Step) {
    && Enabled(s, step)
    && (step.Judge? || Binds(step) || (step.Cleared? && HasPolicy(s.tasks[step.t].pc.next)))
    && Apply(s, step).tasks[step.t].pc.Gone?
  }

  /** The policy an ending converge has decided by. */
  function PolicyOf(s: State, step: Step): Policy
    requires Concludes(s, step)
  {
    match step
    case Judge(t) => Policy(s.tasks[t].pc.enabled, s.env.pairings, s.env.receiver)
    case Cleared(t) => s.tasks[t].pc.next.policy
    case Built(t, _, _) => s.tasks[t].pc.policy
    case BuildFailed(t) => s.tasks[t].pc.policy
    case Published(t) => s.tasks[t].pc.policy
  }

  ghost predicate VerdictFits(s: State, step: Step)
    requires Concludes(s, step)
  {
    var u, policy := Apply(s, step), PolicyOf(s, step);
    && (u.listener.runner.Some? ==> policy.Wanted() && u.listener.role == policy.receiverRole)
    && (policy.Wanted() && u.listener.runner.None? && !s.stopped ==> u.retry.handle.Some?)
    && (policy.Bind() && u.listener.runner.None? ==> step.BuildFailed?)
  }

  lemma JudgementFits(s: State, step: Step)
    requires LockInv(s) && ListenerInv(s) && Concludes(s, step) && step.Judge?
    ensures VerdictFits(s, step)
  {
  }

  lemma ConclusionFits(s: State, step: Step)
    requires LockInv(s) && ListenerInv(s) && Concludes(s, step) && !step.Judge?
    ensures VerdictFits(s, step)
  {
  }

  /** A converge or reload that runs to its verdict leaves no runner, or one in the role its policy asked for. */
  lemma CompletedConvergeFits(states: seq<State>, steps: seq<Step>, n: nat)
    requires IsRun(states, steps) && n < |steps| && Concludes(states[n], steps[n])
    ensures var l, policy := states[n + 1].listener, PolicyOf(states[n], steps[n]);
            && (l.runner.Some? ==> policy.Wanted() && l.role == policy.receiverRole)
            && (policy.Wanted() && l.runner.None? && !states[n].stopped ==> states[n + 1].retry.handle.Some?)
            && (policy.Bind() && l.runner.None? ==> steps[n].BuildFailed?)
  {
    RunInv(states, steps, n);
    if steps[n].Judge? {
      JudgementFits(states[n], steps[n]);
    } else {
      ConclusionFits(states[n], steps[n]);
    }
  }

  /**
   At most one timer; and after a verdict that owes a retry, a timer or a converge no
   client can cancel stands until the next verdict, whatever the clients cancel.
   */
  lemma RetryIsSingleAndOwed(states: seq<State>, steps: seq<Step>, n: nat)
    requires IsRun(states, steps) && n < |states|
    ensures forall a, b :: a in states[n].retry.timers && b in states[n].retry.timers ==> a == b
    ensures states[n].history.owed && Serving(states[n]) ==>
              states[n].retry.handle.Some? || BackgroundInFlight(states[n])
  {
    RunInv(states, steps, n);
  }

  // ----- Backoff -----

  lemma {:induction false} Pow2Rises(a: nat, b: nat)
    requires a <= b
    ensures 1 <= Pow2(a) <= Pow2(b)
    decreases b
  {
    if a < b {
      Pow2Rises(a, b - 1);
    } else if a > 0 {
      Pow2Rises(a - 1, a - 1);
    }
  }

  /** A retry is armed by this step, with the delay of the strikes so far. */
  predicate Arms(s: State, step: Step) {
    Enabled(s, step) && s.retry.handle.None? && Apply(s, step).retry.handle.Some?
  }

  /** The step ends a converge or reload with the listener as wanted, up or down. */
  predicate EndsWell(s: State, step: Step) {
    Concludes(s, step) && (PolicyOf(s, step).Wanted() ==> Apply(s, step).listener.runner.Some?)
  }

  lemma JudgementStrikes(s: State, step: Step)
    requires Enabled(s, step) && step.Judge?
    ensures Apply(s, step).retry.strikes
            == if EndsWell(s, step) then 0 else s.retry.strikes + if Arms(s, step) then 1 else 0
  {
  }

  lemma StrikesCount(s: State, step: Step)
    requires Enabled(s, step)
    ensures Apply(s, step).retry.strikes
            == if EndsWell(s, step) then 0 else s.retry.strikes + if Arms(s, step) then 1 else 0
  {
    if step.Judge? {
      JudgementStrikes(s, step);
    }
  }

  /** Between two points no retry is armed and nothing ends well. */
  ghost predicate Uneventful(states: seq<State>, steps: seq<Step>, i: nat, j: nat)
    requires IsRun(states, steps) && j <= |steps|
  {
    forall k {:trigger steps[k]} :: i <= k < j ==> !Arms(states[k], steps[k]) && !EndsWell(states[k], steps[k])
  }

  lemma {:induction false} StrikesStay(states: seq<State>, steps: seq<Step>, i: nat, j: nat)
    requires IsRun(states, steps) && i <= j <= |steps| && Uneventful(states, steps, i, j)
    ensures states[j].retry.strikes == states[i].retry.strikes
    decreases j
  {
    if i < j {
      StrikesStay(states, steps, i, j - 1);
      StrikesCount(states[j - 1], steps[j - 1]);
    }
  }

  lemma DelayDoubles(strikes: nat)
    ensures Delay(0) == 30 && Delay(strikes + 1) == Min(2 * Delay(strikes), 3600)
  {
    assert Pow2(5) == 32 && Pow2(7) == 4 * Pow2(5);
    if strikes >= 7 {
      Pow2Rises(7, Min(strikes, 32));
      Pow2Rises(7, Min(strikes + 1, 32));
    }
  }

  /** Within a failure streak each retry waits twice as long as the one before, up to an hour. */
  lemma BackoffDoubles(states: seq<State>, steps: seq<Step>, i: nat, j: nat)
    requires IsRun(states, steps) && i < j < |steps| && Arms(states[i], steps[i]) && Arms(states[j], steps[j])
    requires Uneventful(states, steps, i + 1, j) && !EndsWell(states[i], steps[i])
    ensures Delay(states[j].retry.strikes) == Min(2 * Delay(states[i].retry.strikes), 3600)
  {
    StrikesCount(states[i], steps[i]);
    StrikesStay(states, steps, i + 1, j);
    DelayDoubles(states[i].retry.strikes);
  }

  /** The first retry of all, or after anything has ended well, comes half a minute later. */
  lemma BackoffRestarts(states: seq<State>, steps: seq<Step>, i: nat, j: nat)
    requires IsRun(states, steps) && i <= j < |steps| && Arms(states[j], steps[j]) && Uneventful(states, steps, i, j)
    requires i == 0 || EndsWell(states[i - 1], steps[i - 1])
    ensures Delay(states[j].retry.strikes) == 30
  {
    if i > 0 {
      StrikesCount(states[i - 1], steps[i - 1]);
    }
    StrikesStay(states, steps, i, j);
    DelayDoubles(0);
  }

  // ----- Convergence -----

  ghost predicate Quiescent(s: State) {
    && s.holder.None? && s.retry.handle.None?
    && forall t: TaskId :: t in s.tasks ==> s.tasks[t].pc.Gone?
  }

  /**
   When everything in flight has settled, the listener is bound exactly when the
   current policy wants it, in the role it wants, if and only if: no teardown was left
   without its verdict, unless nothing is wanted; and otherwise the switch is the one
   the last verdict went by, and with the switch off so are the pairings.
   */
  lemma SettledMatchesPolicy(states: seq<State>, steps: seq<Step>, n: nat)
    requires IsRun(states, steps) && n < |states| && Quiescent(states[n]) && Serving(states[n])
    ensures var s := states[n];
            Matches(s.listener, s.env) <==>
              if s.history.lapse then !s.env.Wants()
              else s.history.aim.receiverRole == s.env.enabled
                   && (s.env.enabled || s.history.aim.needed == s.env.pairings)
  {
    RunInv(states, steps, n);
  }

  /** A converge is called: by a command, by a pairing event, or by a timer. */
  predicate CallsConverge(s: State, step: Step) {
    Enabled(s, step) && !s.stopped && (step.CallConverge? || step.PairingEvent? || step.TimerFires?)
  }

  predicate Disturbs(step: Step) {
    step.SetEnabled? || step.StorePairing? || step.Cancel?
  }

  predicate ReloadRaises(s: State, step: Step) {
    step.Raise? && step.t in s.tasks && s.tasks[step.t].kind.Reload?
  }

  /** A converge has yet to look, is past the lock, or is owed a follow-up that will come. */
  ghost predicate Coming(s: State) {
    Fresh(s) || (Past(s) && PastTask(s).kind.Converge?)
  }

  /** What holds from the call of a converge on, while nothing disturbs. */
  ghost predicate CalledInv(s: State) {
    !s.stopped ==>
      !s.history.missed && (s.history.owed ==> s.retry.handle.Some? || Coming(s))
  }

  /** And while no reload raises. */
  ghost predicate LapseInv(s: State) {
    !s.stopped && s.history.lapse ==> s.history.owed || Coming(s)
  }

  /** A converge is called for every pairing event, command and timer, and looks at what is stored by then. */
  lemma CallIsMade(states: seq<State>, steps: seq<Step>, i: nat)
    requires IsRun(states, steps) && i < |steps| && CallsConverge(states[i], steps[i])
    ensures YetToLook(states[i + 1], steps[i].t) && !states[i + 1].history.missed
  {
    RunInv(states, steps, i);
  }

  lemma ComingKept(s: State, step: Step)
    requires LockInv(s) && Enabled(s, step) && !step.Cancel? && Coming(s) && !Apply(s, step).stopped
    ensures Coming(Apply(s, step)) || (Mover(step) == s.holder && Past(s) && PastTask(s).kind.Converge?)
  {
    if Fresh(s) && !(step.TakeLock? && s.tasks[step.t].kind.Converge?) {
      FreshKept(s, step);
    } else if !Fresh(s) && Mover(step) != s.holder {
      OthersKept(s, step, s.holder.value);
    }
  }

  /** The task past the lock either goes on, or ends with what it owes armed and nothing torn. */
  lemma HolderSettles(s: State, step: Step)
    requires TimersInv(s) && LockInv(s) && Enabled(s, step) && !step.Cancel? && !Apply(s, step).stopped
    requires Past(s) && PastTask(s).kind.Converge? && Mover(step) == s.holder
    ensures var u := Apply(s, step);
            && (u.history.owed ==> u.retry.handle.Some? || Coming(u))
            && (u.history.lapse ==> u.history.owed || Coming(u))
  {
  }

  lemma CalledKept(s: State, step: Step)
    requires TimersInv(s) && LockInv(s) && CalledInv(s) && Enabled(s, step) && !Disturbs(step)
    ensures CalledInv(Apply(s, step))
    ensures LapseInv(s) && !ReloadRaises(s, step) ==> LapseInv(Apply(s, step))
  {
    var u := Apply(s, step);
    if !u.stopped {
      if Coming(s) {
        ComingKept(s, step);
        if !Coming(u) {
          HolderSettles(s, step);
        }
      }
      if step.TimerFires? {
        assert YetToLook(u, step.t);
      }
    }
  }

  lemma {:induction false} CalledSince(states: seq<State>, steps: seq<Step>, i: nat, n: nat)
    requires IsRun(states, steps) && i < n < |states| && CallsConverge(states[i], steps[i])
    requires forall j :: i < j < n ==> !Disturbs(steps[j])
    ensures CalledInv(states[n])
    ensures (forall j :: i < j < n ==> !ReloadRaises(states[j], steps[j])) ==> LapseInv(states[n])
    decreases n
  {
    if n == i + 1 {
      CallIsMade(states, steps, i);
      assert Fresh(states[n]);
    } else {
      CalledSince(states, steps, i, n - 1);
      RunInv(states, steps, n - 1);
      CalledKept(states[n - 1], steps[n - 1]);
    }
  }

  /**
   Whatever is stored when a converge is called is followed: if nothing more is stored
   and no converge cancelled, then once all has settled the listener is right, unless a
   reload raised in mid-rebuild since and the listener is wanted.
   */
  lemma CalledConvergeIsFollowed(states: seq<State>, steps: seq<Step>, i: nat, n: nat)
    requires IsRun(states, steps) && i < n < |states| && CallsConverge(states[i], steps[i])
    requires forall j :: i < j < n ==> !Disturbs(steps[j])
    requires Quiescent(states[n]) && !states[n].stopped
    ensures Matches(states[n].listener, states[n].env) <==> !states[n].history.lapse || !states[n].env.Wants()
    ensures (forall j :: i < j < n ==> !ReloadRaises(states[j], steps[j])) ==>
              Matches(states[n].listener, states[n].env)
  {
    CalledSince(states, steps, i, n);
    RunInv(states, steps, n);
  }

  // ----- A new identity is taken up -----

  ghost predicate ReloadQueued(s: State) {
    exists t: TaskId :: t in s.tasks && s.tasks[t] == Task(Reload, Queued)
  }

  /** What runs, and what is being built, has the key on disk; or a reload will see to it. */
  ghost predicate KeyInv(s: State) {
    || ReloadQueued(s)
    || ((s.listener.runner.Some? ==> s.listener.runner.value.key == s.env.key)
        && (Past(s) && PastTask(s).pc.Building? ==> PastTask(s).pc.since == s.env.key))
  }

  lemma KeyKeptJudging(s: State, step: Step)
    requires LockInv(s) && ListenerInv(s) && KeyInv(s) && Enabled(s, step) && step.Judge? && !ReloadQueued(s)
    ensures KeyInv(Apply(s, step))
  {
  }

  lemma KeyKept(s: State, step: Step)
    requires LockInv(s) && ListenerInv(s) && KeyInv(s) && Enabled(s, step) && !step.Rotate?
    ensures KeyInv(Apply(s, step))
  {
    if ReloadQueued(s) {
      var t: TaskId :| t in s.tasks && s.tasks[t] == Task(Reload, Queued);
      if Mover(step) != Some(t) {
        OthersKept(s, step, t);
      }
    } else if step.Judge? {
      KeyKeptJudging(s, step);
    }
  }

  lemma {:induction false} KeySince(states: seq<State>, steps: seq<Step>, i: nat, n: nat)
    requires IsRun(states, steps) && i < n < |states| && steps[i].CallReload?
    requires forall j :: i < j < n ==> !steps[j].Rotate?
    ensures KeyInv(states[n])
    decreases n
  {
    if n == i + 1 {
      assert states[n] == Apply(states[i], steps[i]) && Enabled(states[i], steps[i]);
      assert states[n].tasks[steps[i].t] == Task(Reload, Queued);
    } else {
      KeySince(states, steps, i, n - 1);
      RunInv(states, steps, n - 1);
      KeyKept(states[n - 1], steps[n - 1]);
    }
  }

  /** Once a rotation's reload has settled, no listener runs under an earlier key, however converges raced it. */
  lemma RotatedKeyIsUsed(states: seq<State>, steps: seq<Step>, i: nat, n: nat)
    requires IsRun(states, steps) && i < n < |states| && steps[i].CallReload? && Quiescent(states[n])
    requires forall j :: i < j < n ==> !steps[j].Rotate?
    ensures states[n].listener.runner.Some? ==> states[n].listener.runner.value.key == states[n].env.key
  {
    KeySince(states, steps, i, n);
  }

  /** The port told is the one the last build was given. */
  lemma {:induction false} PortIsTheSockets(states: seq<State>, steps: seq<Step>, n: nat)
    requires IsRun(states, steps) && n < |states| && states[n].listener.boundPort.Some?
    ensures exists i :: 0 <= i < n && steps[i].Built? && states[n].listener.boundPort == Some(steps[i].port)
                        && forall j :: i < j < n ==> !steps[j].Built?
  {
    assert n > 0;
    assert states[n] == Apply(states[n - 1], steps[n - 1]);
    if steps[n - 1].Built? {
      assert states[n].listener.boundPort == Some(steps[n - 1].port);
    } else {
      PortIsTheSockets(states, steps, n - 1);
      var i :| 0 <= i < n - 1 && steps[i].Built? && states[n - 1].listener.boundPort == Some(steps[i].port)
               && forall j :: i < j < n - 1 ==> !steps[j].Built?;
      assert steps[i].Built? && states[n].listener.boundPort == Some(steps[i].port);
    }
  }
  // ----- Runs that go wrong -----

  ghost predicate Reachable(s: State) {
    exists states, steps :: IsRun(states, steps) && states[|states| - 1] == s
  }

  lemma Reach(s: State, step: Step) returns (t: State)
    requires Reachable(s) && Enabled(s, step)
    ensures t == Apply(s, step) && Reachable(t)
  {
    var states: seq<State>, steps :| IsRun(states, steps) && states[|states| - 1] == s;
    t := Apply(s, step);
    assert IsRun(states + [t], steps + [step]);
    assert (states + [t])[|states| + 1 - 1] == t;
  }

  lemma ReachInit(env: Env)
    ensures Reachable(Init(env))
  {
    assert IsRun([Init(env)], []);
  }

  const BOUND := Listener(Some(Runner(6055, 0)), Some(6055), true, true, Some(6055))

  lemma ReachReading(enabled: bool) returns (s: State)
    ensures Reachable(s)
    ensures s == State(Env(enabled, !enabled, true, 0), NO_LISTENER, NO_RETRY, false, true, Some(0),
                       map[0 := Task(Converge(true), Reading)], NO_HISTORY.(missed := false))
  {
    ReachInit(Env(enabled, !enabled, true, 0));
    s := Reach(Init(Env(enabled, !enabled, true, 0)), CallConverge(0));
    s := Reach(s, Enter(0));
    s := Reach(s, TakeLock(0));
  }

  /** The first listener is being built: a receiver's if the switch is on, otherwise for a pairing. */
  lemma ReachBuilding(enabled: bool) returns (s: State)
    ensures Reachable(s)
    ensures s == State(Env(enabled, !enabled, true, 0), NO_LISTENER, NO_RETRY, false, true, Some(0),
                       map[0 := Task(Converge(true), Building(Policy(enabled, !enabled, true), 0))],
                       NO_HISTORY.(missed := false))
  {
    s := ReachReading(enabled);
    s := Reach(s, ReadSettings(0));
    s := Reach(s, Judge(0));
  }

  lemma ReachBound() returns (s: State)
    ensures Reachable(s)
    ensures s == State(Env(true, false, true, 0), BOUND, NO_RETRY,
                       false, true, None, map[0 := Task(Converge(true), Gone)],
                       NO_HISTORY.(aim := Policy(true, false, true), missed := false))
  {
    s := ReachBuilding(true);
    s := Reach(s, Built(0, 6055, 0));
    s := Reach(s, Published(0));
  }

  /** A client has turned the switch off and waits for the lock. */
  lemma ReachSwitchedOff() returns (s: State)
    ensures Reachable(s)
    ensures s == State(Env(false, false, true, 0), BOUND, NO_RETRY,
                       false, true, None, map[0 := Task(Converge(true), Gone), 1 := Task(Converge(true), Queued)],
                       NO_HISTORY.(aim := Policy(true, false, true), missed := false))
  {
    s := ReachBound();
    s := Reach(s, SetEnabled(false));
    s := Reach(s, CallConverge(1));
    s := Reach(s, Enter(1));
  }

  lemma ReachReloading() returns (s: State)
    ensures Reachable(s)
    ensures s == State(Env(true, false, true, 0), Listener(None, None, false, true, Some(6055)), NO_RETRY,
                       false, true, Some(1),
                       map[0 := Task(Converge(true), Gone), 1 := Task(Reload, Cleaning(ToPolicy))],
                       NO_HISTORY.(aim := Policy(true, false, true), missed := false))
  {
    s := ReachBound();
    s := Reach(s, CallReload(1));
    s := Reach(s, TakeLock(1));
  }

  /** A reload that raises can leave a wanted listener down with nothing left to bring it back. */
  lemma RaisingReloadStrands() returns (s: State)
    ensures Reachable(s) && Quiescent(s) && Serving(s) && !s.history.missed
    ensures s.env.Wants() && s.env.receiver && s.listener.runner.None?
  {
    s := ReachReloading();
    s := Reach(s, Cleaned(1));
    s := Reach(s, Cleared(1));
    s := Reach(s, Raise(1));
  }

  /** A client that turns the switch off and disconnects leaves the listener bound, and nothing to take it down. */
  lemma DisconnectKeepsListener() returns (s: State)
    ensures Reachable(s) && Quiescent(s) && Serving(s)
    ensures !s.env.Wants() && s.listener.runner.Some? && s.listener.pin
  {
    s := ReachSwitchedOff();
    s := Reach(s, Cancel(1));
  }

  /** Disconnecting later, while the old runner is cleaned up, leaves pin and port of a closed listener advertised. */
  lemma DisconnectKeepsAdvertising() returns (s: State)
    ensures Reachable(s) && Quiescent(s) && Serving(s)
    ensures s.listener.runner.None? && s.listener.pin && s.listener.port.Some?
  {
    s := ReachSwitchedOff();
    s := Reach(s, TakeLock(1));
    s := Reach(s, ReadSettings(1));
    s := Reach(s, Judge(1));
    s := Reach(s, Cancel(1));
  }

  /** A pairing that goes back to pending fires no event and calls no converge: its listener stays. */
  lemma DemotedPairingKeepsListener() returns (s: State)
    ensures Reachable(s) && Quiescent(s) && Serving(s)
    ensures !s.env.Wants() && s.listener.runner.Some?
  {
    s := ReachBuilding(false);
    s := Reach(s, Built(0, 6055, 0));
    s := Reach(s, StorePairing(false));
  }

  // ----- The class, stretch by stretch -----

  class RemoteBuildLifecycle {
    var runner: Option<Runner>
    var boundPort: Option<nat>
    var receiverRoleActive: bool
    var advertisedPin: bool
    var advertisedPort: Option<nat>
    var retryHandle: Option<TimerId>
    var retryStrikes: nat
    var stopped: bool
    var tracking: bool
    var loopTimers: set<TimerId>
    var nextTimer: TimerId

    ghost function TheListener(): Listener
      reads this
    {
      Listener(runner, boundPort, receiverRoleActive, advertisedPin, advertisedPort)
    }

    ghost function TheRetry(): Retry
      reads this
    {
      Retry(retryHandle, loopTimers, nextTimer, retryStrikes)
    }

    method ScheduleConvergeRetry() returns (delay: Option<nat>)
      modifies this
      ensures TheRetry() == ScheduleRetry(old(TheRetry()), stopped) && TheListener() == old(TheListener())
      ensures stopped == old(stopped) && tracking == old(tracking)
      ensures delay == if old(retryHandle).Some? || stopped then None else Some(Delay(old(retryStrikes)))
    {
      if retryHandle.Some? || stopped {
        return None;
      }
      delay := Some(Delay(retryStrikes));
      retryStrikes := retryStrikes + 1;
      retryHandle := Some(nextTimer);
      loopTimers := loopTimers + {nextTimer};
      nextTimer := nextTimer + 1;
    }

    /** The end of a converge under `policy`. */
    method Conclude(policy: Policy) returns (bound: bool)
      modifies this
      ensures bound == runner.Some? && TheListener() == old(TheListener())
      ensures stopped == old(stopped) && tracking == old(tracking)
      ensures forall s: State, t: TaskId |
                t in s.tasks && s.listener == old(TheListener()) && s.retry == old(TheRetry()) && s.stopped == stopped
                ::
                Verdict(s, t, policy).retry == TheRetry() && Verdict(s, t, policy).listener == TheListener()
    {
      if policy.Wanted() && runner.None? {
        var _ := ScheduleConvergeRetry();
      } else {
        retryStrikes := 0;
      }
      return runner.Some?;
    }

    /** A teardown up to its first await; the runner handed back is the one to clean up. */
    method BeginTeardown() returns (oldRunner: Option<Runner>)
      modifies this
      ensures oldRunner == old(runner) && TheRetry() == old(TheRetry())
      ensures stopped == old(stopped) && tracking == old(tracking)
      ensures TheListener() == if oldRunner.None? then old(TheListener())
                               else old(TheListener()).(runner := None, boundPort := None, role := false)
    {
      oldRunner := runner;
      if runner.None? {
        return;
      }
      runner := None;
      boundPort := None;
      receiverRoleActive := false;
    }

    /** A shutdown up to its first await. */
    method BeginShutdown()
      modifies this
      ensures stopped && !tracking && TheListener() == old(TheListener())
      ensures forall s: State, t: TaskId | t !in s.tasks && s.retry == old(TheRetry()) ::
                Apply(s, CallShutdown(t)).retry == TheRetry() && Apply(s, CallShutdown(t)).stopped == stopped
    {
      stopped := true;
      tracking := false;
      if retryHandle.Some? {
        loopTimers := loopTimers - {retryHandle.value};
        retryHandle := None;
      }
    }
  }
}

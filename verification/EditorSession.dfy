/**
 One editor session (controllers/editor.py): a warm validator subprocess behind a
 lock, its line-based pipe, and a result cache guarded by an invalidation epoch.

 A step is one stretch of code between two awaits: of the call that holds the
 session lock, of the reaper, of a config-dir write, or the process dying.
 Calls waiting for the lock do nothing until they get it.
 */
module EditorSession {
  import opened Optional

  // ----- State -----

  /** The component sources a buffer declares, or the mark `invalidate_cache` leaves. */
  datatype Fingerprint = NoSources | Sources(digest: nat) | Stale

  /** What a caller asks to validate: the text, its cache key, and its component sources. */
  datatype Content = Content(text: nat, hash: nat, sources: Fingerprint)

  /** A request line, by the call that writes it. */
  datatype Request = Request(call: nat, content: Content)

  /** What can still be said to a process: a request, nothing it would answer, or nothing at all. */
  datatype Stdin = Open | ExitSent | Closed

  /**
   A validator process.  `since` is the epoch in which its spawn began, `spawnedFor` the
   sources it loaded, and `pipe` the requests ahead of any exit line whose result line is still unread.
   */
  datatype Proc = Proc(alive: bool, since: nat, spawnedFor: Fingerprint, stdin: Stdin, pipe: seq<Request>)

  /** A result line, by the request it answers. */
  datatype Result = Result(answers: Request)

  datatype Cached = Cached(hash: nat, result: Result, begun: nat)

  /** Why a process is terminated: it has other sources, it did not start, or its attempt failed (the `finally`). */
  datatype Goal = Replace | Abandon | CleanUp

  datatype Pc =
    | Creating(since: nat)     // spawning
    | Starting                 // waiting for the version line
    | Talking                  // in the round trip
    | Terminating(goal: Goal)  // draining the exit line, or, with stdin closed, waiting for the process to end

  /**
   The call past the lock: its content, the epoch its attempt read, whether a re-run is
   left, and attempt one's result.
   */
  datatype Call = Call(id: nat, content: Content, epoch: nat, retryLeft: bool, first: Option<Result>, pc: Pc)

  datatype Holder = Free | Reaper | Caller(call: Call)

  /** `calls` counts the calls that got the lock. */
  datatype State = State(
    proc: Option<Proc>, fingerprint: Fingerprint, epoch: nat, cached: Option<Cached>, holder: Holder, calls: nat)

  function Init(): State {
    State(None, NoSources, 0, None, Free, 0)
  }

  predicate Running(s: State) {
    s.proc.Some? && s.proc.value.alive
  }

  // ----- Steps -----

  datatype Step =
    | Invalidate
    | Begin(content: Content)
    | Drained                  // the exit line is out, or cannot be; stdin is closed
    | Terminated               // the process has ended
    | Created
    | StartedUp
    | StartFailed
    | ReadResult(budget: bool)
    | Fail
    | Cancel
    | ReapBegin
    | ReapEnd(killed: bool)
    | Dies

  predicate In(s: State, pc: Pc) {
    s.holder.Caller? && s.holder.call.pc == pc
  }

  predicate Ending(s: State) {
    s.holder.Reaper? || (s.holder.Caller? && s.holder.call.pc.Terminating?)
  }

  predicate Enabled(s: State, step: Step) {
    match step
    case Invalidate => true
    case Begin(c) => s.holder.Free? && !c.sources.Stale?
    case Drained => Ending(s) && s.proc.Some? && s.proc.value.stdin.ExitSent?
    case Terminated =>
      s.holder.Caller? && s.holder.call.pc.Terminating? && s.proc.Some? && s.proc.value.stdin.Closed?
    case Created => s.holder.Caller? && s.holder.call.pc.Creating?
    case StartedUp => In(s, Starting)
    case StartFailed => In(s, Starting)
    case ReadResult(_) => In(s, Talking) && s.proc.Some? && !s.proc.value.stdin.Closed? && s.proc.value.pipe != []
    case Fail => s.holder.Caller? && (s.holder.call.pc.Creating? || s.holder.call.pc.Talking?)
    case Cancel => s.holder.Caller?
    case ReapBegin => s.holder.Free? && Running(s)
    case ReapEnd(_) => s.holder.Reaper?
    case Dies => Running(s)
  }

  function Goto(s: State, pc: Pc): State
    requires s.holder.Caller?
  {
    s.(holder := Caller(s.holder.call.(pc := pc)))
  }

  /** Write the request and start reading; a process told to exit never gets to it. */
  function Talk(s: State): State
    requires s.holder.Caller? && s.proc.Some?
  {
    var p, call := s.proc.value, s.holder.call;
    Goto(if p.stdin.Open? then s.(proc := Some(p.(pipe := p.pipe + [Request(call.id, call.content)]))) else s, Talking)
  }

  function StartCreating(s: State): State
    requires s.holder.Caller?
  {
    Goto(s.(fingerprint := s.holder.call.content.sources), Creating(s.epoch))
  }

  function Hush(s: State): State
    requires s.proc.Some?
  {
    s.(proc := Some(s.proc.value.(stdin := if s.proc.value.stdin.Closed? then Closed else ExitSent)))
  }

  /** The top of one attempt: read the epoch, then make sure a matching process runs. */
  function Attempt(s: State, call: Call): State {
    var held := s.(holder := Caller(call.(epoch := s.epoch)));
    if Running(s) then
      if s.fingerprint == call.content.sources then Talk(held) else Goto(Hush(held), Terminating(Replace))
    else StartCreating(held)
  }

  /** A terminate that frees the lock when it is done: nothing to await when no process runs. */
  function Leave(s: State, goal: Goal): State
    requires s.holder.Caller?
  {
    if Running(s) then Goto(Hush(s), Terminating(goal)) else s.(proc := None, holder := Free)
  }

  function Apply(s: State, step: Step): State
    requires Enabled(s, step)
  {
    match step
    case Invalidate =>
      s.(cached := None, epoch := s.epoch + 1, fingerprint := if s.fingerprint.NoSources? then NoSources else Stale)
    case Begin(c) => Attempt(s.(calls := s.calls + 1), Call(s.calls, c, s.epoch, true, None, Talking))
    case Drained => s.(proc := Some(s.proc.value.(stdin := Closed)))
    case Terminated =>
      if s.holder.call.pc.goal.Replace? then StartCreating(s.(proc := None)) else s.(proc := None, holder := Free)
    case Created =>
      Goto(s.(proc := Some(Proc(true, s.holder.call.pc.since, s.holder.call.content.sources, Open, []))), Starting)
    case StartedUp => if s.proc.Some? then Talk(s) else Leave(s, CleanUp)
    case StartFailed => Leave(s, Abandon)
    case ReadResult(budget) =>
      var call, p := s.holder.call, s.proc.value;
      var r := Result(p.pipe[0]);
      var read := s.(proc := Some(p.(pipe := p.pipe[1..])));
      if s.epoch == call.epoch then read.(cached := Some(Cached(call.content.hash, r, call.epoch)), holder := Free)
      else if call.retryLeft && budget then Attempt(read, call.(retryLeft := false, first := Some(r)))
      else read.(holder := Free)
    case Fail => Leave(s, CleanUp)
    case Cancel => if In(s, Terminating(CleanUp)) then s.(holder := Free) else Leave(s, CleanUp)
    case ReapBegin => Hush(s).(holder := Reaper)
    case ReapEnd(killed) => s.(proc := if killed then None else s.proc, holder := Free)
    case Dies => s.(proc := Some(s.proc.value.(alive := false)))
  }

  // ----- The cache is never stale -----

  /** A stored result came from an attempt that read the current epoch, so it began after the last invalidation. */
  ghost predicate CacheInv(s: State) {
    && (s.cached.Some? ==> s.cached.value.begun == s.epoch)
    && (s.holder.Caller? ==> s.holder.call.epoch <= s.epoch)
  }

  lemma CacheKept(s: State, step: Step)
    requires CacheInv(s) && Enabled(s, step)
    ensures CacheInv(Apply(s, step))
  {
  }

  // ----- A process is never older than its attempt -----

  ghost predicate SpawnInv(s: State) {
    && (Running(s) && s.fingerprint.Sources? ==>
          s.proc.value.spawnedFor == s.fingerprint && s.proc.value.since == s.epoch)
    && (s.holder.Caller? ==>
          var call := s.holder.call;
          && !call.content.sources.Stale? && call.epoch <= s.epoch
          && (call.pc.Creating? ==>
                && !Running(s) && call.epoch <= call.pc.since <= s.epoch
                && (s.fingerprint == call.content.sources || s.fingerprint.Stale?)
                && (s.fingerprint.Sources? ==> call.pc.since == s.epoch))
          && (call.pc.Starting? || call.pc.Talking? ==>
                s.proc.Some? && (call.content.sources.Sources? ==>
                  s.proc.value.spawnedFor == call.content.sources && call.epoch <= s.proc.value.since)))
  }

  lemma SpawnKept(s: State, step: Step)
    requires SpawnInv(s) && Enabled(s, step)
    ensures SpawnInv(Apply(s, step))
  {
  }

  // ----- The pipe -----

  /**
   At most one line is unread.  While a process may still be asked, that is the line
   of the call in its round trip, and none at any other time.
   */
  ghost predicate PipeInv(s: State) {
    && (s.holder.Caller? ==> s.holder.call.id < s.calls)
    && (s.proc.Some? ==>
          var p := s.proc.value;
          && |p.pipe| <= 1
          && (p.pipe != [] ==> p.pipe[0].call < s.calls)
          && (p.pipe != [] && s.holder.Caller? && p.pipe[0].call == s.holder.call.id ==>
                p.pipe[0].content == s.holder.call.content)
          && (p.stdin.Open? && !Ending(s) ==>
                p.pipe == if In(s, Talking) then [Request(s.holder.call.id, s.holder.call.content)] else [])
          && (p.stdin.ExitSent? && In(s, Talking) && p.pipe != [] ==> p.pipe[0].call != s.holder.call.id)
          && (In(s, Starting) ==> p.stdin.Open?)
          && (Ending(s) ==> !p.stdin.Open?))
  }

  lemma PipeKept(s: State, step: Step)
    requires PipeInv(s) && SpawnInv(s) && Enabled(s, step)
    ensures PipeInv(Apply(s, step))
  {
  }

  // ----- Whole runs -----

  ghost predicate IsPath(states: seq<State>, steps: seq<Step>) {
    && |states| == |steps| + 1
    && forall i {:trigger steps[i]} :: 0 <= i < |steps| ==>
         Enabled(states[i], steps[i]) && states[i + 1] == Apply(states[i], steps[i])
  }

  ghost predicate IsRun(states: seq<State>, steps: seq<Step>) {
    IsPath(states, steps) && states[0] == Init()
  }

  ghost predicate Inv(s: State) {
    CacheInv(s) && SpawnInv(s) && PipeInv(s)
  }

  lemma {:induction false} RunInv(states: seq<State>, steps: seq<Step>, n: nat)
    requires IsRun(states, steps) && n < |states|
    ensures Inv(states[n])
  {
    if n > 0 {
      RunInv(states, steps, n - 1);
      CacheKept(states[n - 1], steps[n - 1]);
      SpawnKept(states[n - 1], steps[n - 1]);
      PipeKept(states[n - 1], steps[n - 1]);
    }
  }

  /** The epoch counts the invalidations. */
  lemma {:induction false} EpochCounts(states: seq<State>, steps: seq<Step>, n: nat, m: nat)
    requires IsRun(states, steps) && n <= m < |states|
    ensures states[n].epoch <= states[m].epoch
    ensures (exists i :: n <= i < m && steps[i].Invalidate?) ==> states[n].epoch < states[m].epoch
    decreases m
  {
    if n < m {
      EpochCounts(states, steps, n, m - 1);
      EpochStep(states[m - 1], steps[m - 1]);
    }
  }

  lemma EpochStep(s: State, step: Step)
    requires Enabled(s, step)
    ensures Apply(s, step).epoch == if step.Invalidate? then s.epoch + 1 else s.epoch
  {
  }

  /** An attempt begins: with the call, or as the re-run of one whose result was raced. */
  predicate BeginsAttempt(step: Step) {
    step.Begin? || step.ReadResult?
  }

  /** The attempt under way at `n` began with step `b`. */
  ghost predicate BegunAt(steps: seq<Step>, b: nat, n: nat)
    requires n <= |steps|
  {
    b < n && BeginsAttempt(steps[b]) && forall j :: b < j < n ==> !BeginsAttempt(steps[j])
  }

  lemma {:induction false} AttemptEpoch(states: seq<State>, steps: seq<Step>, n: nat) returns (b: nat)
    requires IsRun(states, steps) && n < |states| && states[n].holder.Caller?
    ensures BegunAt(steps, b, n) && states[n].holder.call.epoch == states[b].epoch
  {
    assert n > 0 && states[n] == Apply(states[n - 1], steps[n - 1]) && Enabled(states[n - 1], steps[n - 1]);
    if BeginsAttempt(steps[n - 1]) {
      b := n - 1;
    } else {
      b := AttemptEpoch(states, steps, n - 1);
    }
  }

  /** The result in the cache at `n` was read and stored by step `r`. */
  ghost predicate StoredAt(states: seq<State>, steps: seq<Step>, r: nat, n: nat)
    requires IsRun(states, steps) && n < |states|
  {
    && r < n && steps[r].ReadResult? && states[n].cached.Some?
    && states[n].cached.value.hash == states[r].holder.call.content.hash
    && states[n].cached.value.result == Result(states[r].proc.value.pipe[0])
  }

  /**
   A cached verdict is a line some attempt read, under the hash of that attempt's text,
   and nothing was invalidated since that attempt began, whichever calls and writes interleaved.
   */
  lemma {:induction false} CacheIsNeverStale(states: seq<State>, steps: seq<Step>, n: nat) returns (b: nat, r: nat)
    requires IsRun(states, steps) && n < |states| && states[n].cached.Some?
    ensures StoredAt(states, steps, r, n) && BegunAt(steps, b, r)
    ensures forall i :: b <= i < n ==> !steps[i].Invalidate?
  {
    assert n > 0 && states[n] == Apply(states[n - 1], steps[n - 1]) && Enabled(states[n - 1], steps[n - 1]);
    if steps[n - 1].ReadResult? && states[n - 1].epoch == states[n - 1].holder.call.epoch {
      r := n - 1;
      b := AttemptEpoch(states, steps, r);
      EpochCounts(states, steps, b, r);
    } else {
      b, r := CacheIsNeverStale(states, steps, n - 1);
    }
  }

  /** How many results a stretch of a run reads. */
  function Reads(steps: seq<Step>, i: nat, n: nat): nat
    requires i <= n <= |steps|
    decreases n
  {
    if i == n then 0 else Reads(steps, i, n - 1) + if steps[n - 1].ReadResult? then 1 else 0
  }

  lemma {:induction false} ReadsSpendRetry(states: seq<State>, steps: seq<Step>, i: nat, n: nat)
    requires IsRun(states, steps) && i < n < |states| && steps[i].Begin? && forall j :: i < j < n ==> !steps[j].Begin?
    ensures Reads(steps, i + 1, n) <= 2
    ensures states[n].holder.Caller? ==> Reads(steps, i + 1, n) == if states[n].holder.call.retryLeft then 0 else 1
    decreases n
  {
    assert states[n] == Apply(states[n - 1], steps[n - 1]) && Enabled(states[n - 1], steps[n - 1]);
    if i < n - 1 {
      ReadsSpendRetry(states, steps, i, n - 1);
    }
  }

  /** A call reads at most two results, however often it is raced. */
  lemma AtMostTwoAttempts(states: seq<State>, steps: seq<Step>, i: nat, n: nat)
    requires IsRun(states, steps) && i < n < |states| && steps[i].Begin? && forall j :: i < j < n ==> !steps[j].Begin?
    ensures Reads(steps, i + 1, n) <= 2
  {
    ReadsSpendRetry(states, steps, i, n);
  }

  // ----- Which process an attempt talks to -----

  /** The process at `n` was created at `c`, by a spawn under way since `q`. */
  ghost predicate SpawnedAt(states: seq<State>, steps: seq<Step>, q: nat, c: nat, n: nat)
    requires IsRun(states, steps) && n < |states|
  {
    && q <= c < n && steps[c].Created? && (forall j :: c < j < n ==> !steps[j].Created?)
    && forall j :: q < j <= c ==> Spawning(states[j])
  }

  predicate Spawning(s: State) {
    s.holder.Caller? && s.holder.call.pc.Creating?
  }

  lemma {:induction false} SpawnBegan(states: seq<State>, steps: seq<Step>, n: nat) returns (q: nat)
    requires IsRun(states, steps) && n < |states| && Spawning(states[n])
    ensures q < n && states[n].holder.call.pc.since == states[q].epoch
    ensures forall j :: q < j <= n ==> Spawning(states[j])
  {
    assert n > 0 && states[n] == Apply(states[n - 1], steps[n - 1]) && Enabled(states[n - 1], steps[n - 1]);
    if Spawning(states[n - 1]) && !BeginsAttempt(steps[n - 1]) {
      q := SpawnBegan(states, steps, n - 1);
    } else {
      q := n - 1;
    }
  }

  lemma {:induction false} ProcessWasCreated(states: seq<State>, steps: seq<Step>, n: nat) returns (q: nat, c: nat)
    requires IsRun(states, steps) && n < |states| && states[n].proc.Some?
    ensures SpawnedAt(states, steps, q, c, n) && states[n].proc.value.since == states[q].epoch
    ensures states[c].holder.Caller? && states[n].proc.value.spawnedFor == states[c].holder.call.content.sources
  {
    assert n > 0 && states[n] == Apply(states[n - 1], steps[n - 1]) && Enabled(states[n - 1], steps[n - 1]);
    if steps[n - 1].Created? {
      c := n - 1;
      q := SpawnBegan(states, steps, c);
    } else {
      q, c := ProcessWasCreated(states, steps, n - 1);
    }
  }

  /**
   An attempt under way in its round trip, for text that declares component sources,
   talks to a process spawned for just those sources, by a spawn that began after every
   invalidation before the attempt.
   */
  lemma AttemptUsesFreshProcess(states: seq<State>, steps: seq<Step>, i: nat, b: nat, n: nat)
    returns (q: nat, c: nat)
    requires IsRun(states, steps) && n < |states| && i < b && BegunAt(steps, b, n) && steps[i].Invalidate?
    requires In(states[n], Talking) && states[n].holder.call.content.sources.Sources?
    ensures SpawnedAt(states, steps, q, c, n) && i < q
    ensures states[c].holder.Caller?
    ensures states[c].holder.call.content.sources == states[n].holder.call.content.sources
  {
    RunInv(states, steps, n);
    q, c := ProcessWasCreated(states, steps, n);
    var begun := AttemptEpoch(states, steps, n);
    assert begun == b;
    EpochCounts(states, steps, i, b);
    if q <= i {
      EpochCounts(states, steps, q, i);
    }
  }

  /** A process that takes requests has told its version since it was created. */
  lemma {:induction false} TalkingHasStarted(states: seq<State>, steps: seq<Step>, n: nat)
    requires IsRun(states, steps) && n < |states|
    requires states[n].proc.Some? && states[n].proc.value.stdin.Open? && !In(states[n], Starting)
    ensures exists i :: 0 <= i < n && steps[i].StartedUp? && forall j :: i < j < n ==> !steps[j].Created?
  {
    assert n > 0 && states[n] == Apply(states[n - 1], steps[n - 1]) && Enabled(states[n - 1], steps[n - 1]);
    if steps[n - 1].StartedUp? {
    } else {
      TalkingHasStarted(states, steps, n - 1);
      var i :| 0 <= i < n - 1 && steps[i].StartedUp? && forall j :: i < j < n - 1 ==> !steps[j].Created?;
    }
  }

  /**
   The process is given up: it did not start, its attempt failed or was cancelled, or it
   idled; or its end goes on.
   */
  predicate Condemns(step: Step) {
    step.StartFailed? || step.Fail? || step.Cancel? || step.ReapBegin? || step.Drained? || step.Terminated?
    || step.ReapEnd?
  }

  /** No process takes a request; after its stdin is closed, or it has ended, nor does one answer. */
  ghost predicate Condemned(s: State, step: Step) {
    && (Running(s) ==> !s.proc.value.stdin.Open?)
    && (step.Drained? ==> s.proc.None? || s.proc.value.stdin.Closed?)
    && (step.Terminated? || step == ReapEnd(true) ==> s.proc.None?)
  }

  lemma CondemnedStays(s: State, step: Step, cause: Step)
    requires Enabled(s, step) && !step.Created? && Condemned(s, cause)
    ensures Condemned(Apply(s, step), cause)
  {
  }

  /** A process once condemned is never asked again: only a new one is. */
  lemma {:induction false} CondemnedIsReplaced(states: seq<State>, steps: seq<Step>, i: nat, n: nat)
    requires IsRun(states, steps) && i < n < |states| && Condemns(steps[i])
    requires forall j :: i < j < n ==> !steps[j].Created?
    ensures Condemned(states[n], steps[i])
    decreases n
  {
    RunInv(states, steps, n - 1);
    assert states[n] == Apply(states[n - 1], steps[n - 1]) && Enabled(states[n - 1], steps[n - 1]);
    if i < n - 1 {
      CondemnedIsReplaced(states, steps, i, n - 1);
      CondemnedStays(states[n - 1], steps[n - 1], steps[i]);
    }
  }

  // ----- Whose line a call reads -----

  /** The call would take another call's result for its own. */
  predicate Misreads(s: State, step: Step) {
    Enabled(s, step) && step.ReadResult? && s.proc.value.pipe[0].call != s.holder.call.id
  }

  /** A call reads its own line exactly when its process has not been told to exit. */
  lemma VerdictAnswersItsCaller(states: seq<State>, steps: seq<Step>, n: nat)
    requires IsRun(states, steps) && n < |steps| && steps[n].ReadResult?
    ensures !states[n].proc.value.stdin.Closed?
    ensures !Misreads(states[n], steps[n]) <==> states[n].proc.value.stdin.Open?
    ensures !Misreads(states[n], steps[n]) ==> states[n].proc.value.pipe[0].content == states[n].holder.call.content
  {
    RunInv(states, steps, n);
  }

  /** A caller that asks for `content` next can be given an earlier call's verdict. */
  ghost predicate CanMisread(s: State, content: Content) {
    exists states, steps :: MisreadPath(s, content, states, steps)
  }

  /** The next call, and nothing after it, up to a line it misreads. */
  ghost predicate MisreadPath(s: State, content: Content, states: seq<State>, steps: seq<Step>) {
    && IsPath(states, steps) && 0 < |steps| && states[0] == s && steps[0] == Begin(content)
    && (forall i :: 0 < i < |steps| ==> !steps[i].Begin?)
    && Misreads(states[|steps| - 1], steps[|steps| - 1])
  }

  /** A line is unread of a live process that has been told to exit, but whose stdin takes writes still. */
  predicate LineOwed(s: State) {
    Running(s) && s.proc.value.stdin.ExitSent? && s.proc.value.pipe != []
  }

  /** Whatever line the call in progress can read is its own. */
  ghost predicate OwnLines(s: State) {
    s.holder.Caller? && (s.holder.call.pc.Starting? || s.holder.call.pc.Talking?) && s.proc.Some? ==>
      s.proc.value.stdin.Closed? || s.proc.value.pipe == [] || s.proc.value.pipe[0].call == s.holder.call.id
  }

  lemma OwnLinesKept(s: State, step: Step)
    requires PipeInv(s) && SpawnInv(s) && OwnLines(s) && Enabled(s, step)
    requires step.Begin? ==> !(LineOwed(s) && s.fingerprint == step.content.sources)
    ensures OwnLines(Apply(s, step))
  {
  }

  lemma {:induction false} OwnLinesOnPath(s: State, content: Content, states: seq<State>, steps: seq<Step>, n: nat)
    requires MisreadPath(s, content, states, steps) && PipeInv(s) && SpawnInv(s) && n < |states|
    requires !(LineOwed(s) && s.fingerprint == content.sources)
    ensures PipeInv(states[n]) && SpawnInv(states[n]) && OwnLines(states[n])
  {
    if n > 0 {
      OwnLinesOnPath(s, content, states, steps, n - 1);
      SpawnKept(states[n - 1], steps[n - 1]);
      PipeKept(states[n - 1], steps[n - 1]);
      OwnLinesKept(states[n - 1], steps[n - 1]);
    }
  }

  /** With the lock free, the next caller can be misanswered if and only if a line is owed by a process it would use. */
  lemma MisreadIff(s: State, content: Content)
    requires PipeInv(s) && SpawnInv(s) && Enabled(s, Begin(content))
    ensures CanMisread(s, content) <==> LineOwed(s) && s.fingerprint == content.sources
  {
    if LineOwed(s) && s.fingerprint == content.sources {
      var t := Apply(s, Begin(content));
      assert MisreadPath(s, content, [s, t, Apply(t, ReadResult(false))], [Begin(content), ReadResult(false)]);
    } else if CanMisread(s, content) {
      var states, steps :| MisreadPath(s, content, states, steps);
      OwnLinesOnPath(s, content, states, steps, |steps| - 1);
    }
  }

  /**
   However a call gives the lock up, its successor can be misanswered if and only if
   this call was cancelled in the cleanup of a failed attempt, before that closed
   stdin, with its line still owed, and the successor has the same sources.
   */
  lemma CancelBeforeCloseMisanswers(s: State, step: Step, next: Content)
    requires Inv(s) && Enabled(s, step) && s.holder.Caller? && Apply(s, step).holder.Free? && !next.sources.Stale?
    ensures CanMisread(Apply(s, step), next) <==>
              step.Cancel? && Misfires(s) && s.fingerprint == next.sources
  {
    SpawnKept(s, step);
    PipeKept(s, step);
    MisreadIff(Apply(s, step), next);
  }

  /** A cancellation here frees the lock with a line owed. */
  predicate Misfires(s: State) {
    In(s, Terminating(CleanUp)) && LineOwed(s)
  }

  /** No call is cancelled in its cleanup, before stdin is closed, with a line still owed. */
  ghost predicate CleanlyCancelled(states: seq<State>, steps: seq<Step>)
    requires IsPath(states, steps)
  {
    forall i {:trigger steps[i]} :: 0 <= i < |steps| && steps[i].Cancel? ==> !Misfires(states[i])
  }

  ghost predicate SafeInv(s: State) {
    && OwnLines(s)
    && (!s.holder.Caller? && Running(s) ==> s.proc.value.stdin.Closed? || s.proc.value.pipe == [])
    && (s.cached.Some? ==> s.cached.value.result.answers.content.hash == s.cached.value.hash)
    && (s.holder.Caller? && s.holder.call.first.Some? ==>
          s.holder.call.first.value.answers.content == s.holder.call.content)
  }

  lemma SafeKept(s: State, step: Step)
    requires PipeInv(s) && SpawnInv(s) && SafeInv(s) && Enabled(s, step)
    requires step.Cancel? ==> !Misfires(s)
    ensures SafeInv(Apply(s, step))
  {
    OwnLinesKept(s, step);
  }

  lemma {:induction false} RunSafe(states: seq<State>, steps: seq<Step>, n: nat)
    requires IsRun(states, steps) && CleanlyCancelled(states, steps) && n < |states|
    ensures SafeInv(states[n])
  {
    if n > 0 {
      var s, step := states[n - 1], steps[n - 1];
      RunInv(states, steps, n - 1);
      RunSafe(states, steps, n - 1);
      assert Enabled(s, step) && states[n] == Apply(s, step);
      assert step.Cancel? ==> !Misfires(s);
      SafeKept(s, step);
    }
  }

  /** Short of such a cancellation: with no call past the lock, no process has an unread line anyone could read. */
  lemma LockFreeMeansBoundary(states: seq<State>, steps: seq<Step>, n: nat)
    requires IsRun(states, steps) && CleanlyCancelled(states, steps) && n < |states| && !states[n].holder.Caller?
    ensures !Running(states[n]) || states[n].proc.value.stdin.Closed? || states[n].proc.value.pipe == []
  {
    RunSafe(states, steps, n);
  }

  /** And every verdict, cached or returned after a failed re-run too, is on the text it is given out for. */
  lemma HitAnswersItsHash(states: seq<State>, steps: seq<Step>, n: nat)
    requires IsRun(states, steps) && CleanlyCancelled(states, steps) && n < |states|
    ensures states[n].cached.Some? ==> states[n].cached.value.result.answers.content.hash == states[n].cached.value.hash
    ensures states[n].holder.Caller? && states[n].holder.call.first.Some? ==>
              states[n].holder.call.first.value.answers.content == states[n].holder.call.content
    ensures n < |steps| ==> !Misreads(states[n], steps[n])
  {
    RunInv(states, steps, n);
    RunSafe(states, steps, n);
  }

  ghost predicate Reachable(s: State, cancels: nat) {
    exists states, steps :: IsRun(states, steps) && states[|states| - 1] == s && Cancels(steps) == cancels
  }

  function Cancels(steps: seq<Step>): nat {
    if steps == [] then 0 else Cancels(steps[..|steps| - 1]) + if steps[|steps| - 1].Cancel? then 1 else 0
  }

  lemma Reach(s: State, cancels: nat, step: Step) returns (t: State)
    requires Reachable(s, cancels) && Enabled(s, step)
    ensures t == Apply(s, step) && Reachable(t, cancels + if step.Cancel? then 1 else 0)
  {
    var states: seq<State>, steps :|
      IsRun(states, steps) && states[|states| - 1] == s && Cancels(steps) == cancels;
    t := Apply(s, step);
    assert (steps + [step])[..|steps|] == steps;
    assert IsRun(states + [t], steps + [step]);
    assert (states + [t])[|states| + 1 - 1] == t;
  }

  lemma ReachTalking(a: Content) returns (s: State)
    requires !a.sources.Stale?
    ensures Reachable(s, 0)
    ensures s == State(Some(Proc(true, 0, a.sources, Open, [Request(0, a)])), a.sources, 0, None,
                       Caller(Call(0, a, 0, true, None, Talking)), 1)
  {
    assert IsRun([Init()], []);
    assert Reachable(Init(), 0) by {
      assert [Init()][|[Init()]| - 1] == Init() && Cancels([]) == 0;
    }
    s := Reach(Init(), 0, Begin(a));
    s := Reach(s, 0, Created);
    s := Reach(s, 0, StartedUp);
    assert s.proc.value.pipe == [Request(0, a)];
  }

  /**
   One cancellation is enough: a call for `a` fails mid-message and is cancelled while
   its cleanup drains the exit line; the next call, for `b`, gets the verdict on `a`,
   and caches it as the verdict on `b`.
   */
  lemma CancelledCleanupMisanswers(a: Content, b: Content) returns (s: State)
    requires a.sources == b.sources && !a.sources.Stale?
    ensures Reachable(s, 1) && s.holder.Free? && s.cached == Some(Cached(b.hash, Result(Request(0, a)), 0))
  {
    s := ReachTalking(a);
    s := Reach(s, 0, Fail);
    s := Reach(s, 0, Cancel);
    s := Reach(s, 1, Begin(b));
    assert s.proc.value.pipe == [Request(0, a)];
    s := Reach(s, 1, ReadResult(false));
  }

  // ----- The session as it runs -----

  /** The mutable session; `holder` is the lock, with how far its owner has got. */
  class Session {
    var proc: Option<Proc>
    var fingerprint: Fingerprint
    var epoch: nat
    var cached: Option<Cached>
    var holder: Holder
    var calls: nat

    ghost function View(): State
      reads this
    {
      State(proc, fingerprint, epoch, cached, holder, calls)
    }

    constructor ()
      ensures View() == Init()
    {
      proc, fingerprint, epoch, cached, holder, calls := None, NoSources, 0, None, Free, 0;
    }

    /** Config-dir content changed: drop the result, advance the epoch, and distrust a process that loaded sources. */
    method InvalidateCache()
      modifies this
      ensures View() == Apply(old(View()), Invalidate)
    {
      cached := None;
      epoch := epoch + 1;
      if !fingerprint.NoSources? {
        fingerprint := Stale;
      }
    }

    /** The top of an attempt: take the epoch, and talk to a matching process or arrange for one. */
    method StartAttempt(content: Content, call: Call) returns (pc: Pc)
      requires call.content == content
      modifies this
      ensures View() == Attempt(old(View()), call) && holder.Caller? && holder.call.pc == pc
    {
      if proc.Some? && proc.value.alive {
        if fingerprint == content.sources {
          if proc.value.stdin.Open? {
            proc := Some(proc.value.(pipe := proc.value.pipe + [Request(call.id, content)]));
          }
          pc := Talking;
        } else {
          BeginTerminate();
          pc := Terminating(Replace);
        }
      } else {
        fingerprint := content.sources;
        pc := Creating(epoch);
      }
      holder := Caller(call.(epoch := epoch, pc := pc));
    }

    /** A terminate up to its first await: the exit line is written unless stdin is closed. */
    method BeginTerminate()
      requires proc.Some?
      modifies this
      ensures View() == Hush(old(View()))
    {
      if !proc.value.stdin.Closed? {
        proc := Some(proc.value.(stdin := ExitSent));
      }
    }

    /** A call gets the lock. */
    method Begin(content: Content) returns (pc: Pc)
      requires holder.Free? && !content.sources.Stale?
      modifies this
      ensures View() == Apply(old(View()), Step.Begin(content)) && holder.Caller? && holder.call.pc == pc
    {
      var call := Call(calls, content, epoch, true, None, Talking);
      calls := calls + 1;
      pc := StartAttempt(content, call);
    }

    /**
     The result line: stored only when nothing was invalidated since the attempt read
     the epoch; otherwise the call is over, or its one re-run begins if the budget lets it.
     */
    method ReadResult(content: Content, begun: nat, retryLeft: bool, budget: bool)
      returns (result: Result, rerun: Option<Pc>)
      requires Enabled(View(), Step.ReadResult(budget))
      requires holder.call.content == content && holder.call.epoch == begun && holder.call.retryLeft == retryLeft
      modifies this
      ensures View() == Apply(old(View()), Step.ReadResult(budget)) && result == Result(old(proc.value.pipe[0]))
      ensures rerun == if holder.Caller? then Some(holder.call.pc) else None
    {
      result := Result(proc.value.pipe[0]);
      proc := Some(proc.value.(pipe := proc.value.pipe[1..]));
      if epoch == begun {
        cached := Some(Cached(content.hash, result, begun));
        holder, rerun := Free, None;
      } else if retryLeft && budget {
        var pc := StartAttempt(content, holder.call.(retryLeft := false, first := Some(result)));
        rerun := Some(pc);
      } else {
        holder, rerun := Free, None;
      }
    }

    /** The end of a terminate, the process gone: a replacement is spawned next, or the call is over. */
    method Terminate(goal: Goal, content: Content)
      requires Enabled(View(), Terminated) && holder.call.pc == Terminating(goal) && holder.call.content == content
      modifies this
      ensures View() == Apply(old(View()), Terminated)
    {
      proc := None;
      if goal.Replace? {
        fingerprint := content.sources;
        holder := Caller(holder.call.(pc := Creating(epoch)));
      } else {
        holder := Free;
      }
    }
  }

  // ----- The budget of one call -----

  const MIN_RERUN_BUDGET := 1.0

  /**
   How one attempt ended after `took` of its round-trip budget: with a verdict, raced
   by a write or not, or in a failure.
   */
  datatype Outcome = Verdict(took: real, result: Result, raced: bool) | Failure(took: real)

  datatype Answer = Answer(result: Result, stored: bool) | Error

  /** A round trip never outlasts the budget it was given. */
  ghost predicate Bounded(attempt: (nat, real) -> Outcome) {
    forall k, budget :: 0.0 <= budget ==> 0.0 <= attempt(k, budget).took <= budget
  }

  /** The first attempt was raced by a write, with budget left to run again. */
  predicate Reruns(one: Outcome, timeout: real) {
    one.Verdict? && one.raced && timeout - one.took > MIN_RERUN_BUDGET
  }

  /**
   The retry loop: attempt `k` gets what is left of `timeout`; a failed re-run falls
   back to attempt one, uncached.
   */
  method ValidateWithRetry(attempt: (nat, real) -> Outcome, timeout: real)
    returns (answer: Answer, attempts: nat, spent: real)
    requires 0.0 <= timeout && Bounded(attempt)
    ensures 1 <= attempts <= 2 && 0.0 <= spent <= timeout
    ensures var one := attempt(0, timeout);
            && (answer.Error? <==> one.Failure?)
            && (attempts == 2 <==> Reruns(one, timeout))
            && (attempts == 1 ==> spent == one.took)
            && (one.Verdict? && attempts == 1 ==> answer == Answer(one.result, !one.raced))
            && (attempts == 2 ==>
                  var two := attempt(1, timeout - one.took);
                  && spent == one.took + two.took
                  && answer == if two.Failure? then Answer(one.result, false) else Answer(two.result, !two.raced))
  {
    var remaining := timeout;
    var result: Option<Result> := None;
    var stored := false;
    attempts, spent := 0, 0.0;
    var going := true;
    while going
      invariant attempts <= 2 && 0.0 <= remaining && spent == timeout - remaining
      invariant going ==> attempts < 2 && !stored
      invariant attempts == 0 ==> going && result.None? && remaining == timeout
      invariant attempts == 1 && going ==>
                  var one := attempt(0, timeout);
                  Reruns(one, timeout) && result == Some(one.result) && remaining == timeout - one.took
      invariant !going ==>
                  (result.Some? && attempts >= 1
                   && Concluded(attempt, timeout, attempts, Answer(result.value, stored), spent))
      decreases going, 2 - attempts
    {
      var outcome := attempt(attempts, remaining);
      attempts := attempts + 1;
      remaining := remaining - outcome.took;
      spent := spent + outcome.took;
      if outcome.Failure? {
        if result.None? {
          return Error, attempts, spent;
        }
        going := false;
      } else {
        result := Some(outcome.result);
        stored := !outcome.raced;
        going := outcome.raced && attempts == 1 && remaining > MIN_RERUN_BUDGET;
      }
    }
    answer := Answer(result.value, stored);
  }

  ghost predicate Concluded(
    attempt: (nat, real) -> Outcome, timeout: real, attempts: nat, answer: Answer, spent: real)
  {
    var one := attempt(0, timeout);
    && one.Verdict? && answer.Answer?
    && (attempts == 1 ==> answer == Answer(one.result, !one.raced) && spent == one.took && !Reruns(one, timeout))
    && (attempts == 2 ==>
          && Reruns(one, timeout)
          && var two := attempt(1, timeout - one.took);
             && spent == one.took + two.took
             && answer == if two.Failure? then Answer(one.result, false) else Answer(two.result, !two.raced))
  }
}

/** Gateway processes on one state directory: internal/gatewaystate, and the
    state-directory part of cmd/ori-gateway/app.go, around the signing clock.

    A `System` is the mark file, the exclusive lock, every process that has
    opened the directory, and the values signed so far. Each `Action` is one
    atomic step of one process, so a `seq<Action>` is one interleaving of any
    number of processes, with writes that land before they return or never,
    failures of either disk outcome, and processes that die at any point. */
module StateDirectory {
  import opened Base
  import opened SigningClocks

  type Pid = nat

  /** A goroutine inside Mark.Persist; `landed` once its rename reached the file. */
  datatype Writer = Writer(mark: int, landed: bool)

  /** Where a run stands between opening the directory and releasing it.
      `Stopping(idle)` waits for the write outstanding when it stopped. */
  datatype Phase =
    | Locked
    | Loaded
    | Starting
    | Refusing
    | Serving
    | Stopping(idle: Option<nat>)
    | Abandoned
    | Released

  /** One process: its phase, the mark it found, the highest mark it wrote
      (-1 before its first), its clock, its outstanding writers by name, and
      whether the clock was handed to the run's signers. */
  datatype Process = Process(
    phase: Phase,
    found: Option<int>,
    persisted: int,
    clock: Clock,
    writers: map<nat, Writer>,
    live: bool)

  /** `uncovered` records that some run ended with a value signed above the mark on
      disk; `runs` counts the runs that have read the mark. */
  datatype System = System(
    disk: Option<int>,
    lock: Option<Pid>,
    procs: map<Pid, Process>,
    issued: seq<int>,
    uncovered: bool,
    runs: nat)

  datatype Action =
    | Acquire(p: Pid)
    | ReadMark(p: Pid)
    | Begin(p: Pid, wall: Int64)
    | Land(p: Pid, id: nat)
    | Return(p: Pid, id: nat, ok: bool)
    | StartBound(p: Pid)
    | Next(p: Pid, wall: Int64, waited: bool)
    | Bound(p: Pid, id: nat)
    | WaitBound(p: Pid)
    | Retry(p: Pid, wall: Int64)
    | Stop(p: Pid)
    | Release(p: Pid)
    | Abandon(p: Pid)
    | Exit(p: Pid)

  const IDLE_CLOCK := Clock(0, 0, 0, false, false, None, false, 0, 0)

  function Initial(disk: Option<int>): System {
    System(disk, None, map[], [], false, 0)
  }

  /** The writers after a clock step: the goroutine a started write spawned. */
  function Spawned(pr: Process, c: Clock): map<nat, Writer> {
    if c.started > pr.clock.started then pr.writers[pr.clock.started := Writer(c.written, false)] else pr.writers
  }

  predicate Above(v: int, disk: Option<int>) {
    disk.None? || disk.value < v
  }

  /** Some value signed so far is above the mark on disk. */
  predicate Uncovered(s: System) {
    s.issued != [] && Above(s.issued[|s.issued| - 1], s.disk)
  }

  predicate Enabled(s: System, a: Action) {
    if a.Acquire? then s.lock.None? && a.p !in s.procs
    else
      && a.p in s.procs
      && var pr := s.procs[a.p];
      match a
      case Acquire(_) => false
      case ReadMark(_) => pr.phase == Locked
      case Begin(_, _) => pr.phase == Loaded
      case Land(_, id) =>
        id in pr.writers && !pr.writers[id].landed && MarkInRange(pr.writers[id].mark)
            && pr.writers[id].mark > pr.persisted
      case Return(_, id, ok) =>
        && id in pr.writers
        && var w := pr.writers[id];
        var skipped := MarkInRange(w.mark) && w.mark <= pr.persisted;
        if ok then w.landed || skipped else !skipped
      case StartBound(_) => pr.phase == Starting
      case Next(_, _, waited) => pr.live && (waited ==> pr.clock.waiting > 0)
      case Bound(_, _) => pr.live
      case WaitBound(_) => pr.live && pr.clock.waiting > 0
      case Retry(_, _) => pr.live && (pr.clock.retry || pr.clock.closed)
      case Stop(_) => pr.phase == Serving
      case Release(_) =>
        || (pr.phase == Refusing && 0 !in pr.writers)
        || (pr.phase.Stopping? && (pr.phase.idle.None? || pr.phase.idle.value !in pr.writers))
      case Abandon(_) =>
        || (pr.phase == Refusing && 0 in pr.writers)
        || (pr.phase.Stopping? && pr.phase.idle.Some? && pr.phase.idle.value in pr.writers)
      case Exit(_) => true
  }

  function Update(s: System, p: Pid, pr: Process): System {
    s.(procs := s.procs[p := pr])
  }

  /** The step of `pr`'s clock to `c`, with the write it started spawned. */
  function WithClock(s: System, p: Pid, pr: Process, c: Clock): System {
    Update(s, p, pr.(clock := c, writers := Spawned(pr, c)))
  }

  /** NewDurableSigningClock up to its first write: refused at the ceiling,
      otherwise the first mark's write is started. */
  function Started(pr: Process, wall: Int64): Process {
    if FirstValue(pr.found, wall) >= SIGNING_CEILING then pr.(phase := Refusing)
    else
      var c := SigningClocks.Starting(pr.found, wall);
      pr.(phase := Starting, clock := c, writers := map[0 := Writer(c.written, false)])
  }

  /** A writer returns: the start's write decides the start, and any later one
      is taken by the clock. */
  function Returned(pr: Process, id: nat, ok: bool): Process
    requires id in pr.writers
  {
    var w := pr.writers[id];
    var pr1 := pr.(writers := pr.writers - {id}, persisted := if ok && w.landed then w.mark else pr.persisted);
    if pr.phase == Starting then
      if ok then
        pr1.(phase := Serving, live := true,
             clock := pr.clock.(covered := Max(pr.clock.covered, w.mark), started := 1))
      else pr1.(phase := Refusing)
    else if pr.live then pr1.(clock := EndWrite(pr.clock, w.mark, ok))
    else pr1
  }

  /** The lock leaves `s`, ending the run that held it. */
  function Unlocked(s: System): System {
    s.(lock := None, uncovered := s.uncovered || Uncovered(s))
  }

  predicate DiskOK(s: System) {
    s.disk.Some? ==> MarkInRange(s.disk.value)
  }

  function Step(s: System, a: Action): System
    requires Enabled(s, a)
  {
    match a
    case Acquire(p) =>
      Update(s.(lock := Some(p)), p, Process(Locked, None, -1, IDLE_CLOCK, map[], false))
    case ReadMark(p) =>
      var at := if s.disk.Some? then s.disk.value else 0;
      Update(s, p, s.procs[p].(phase := Loaded, found := s.disk,
                               clock := IDLE_CLOCK.(last := at, covered := at, written := at))).(runs := s.runs + 1)
    case Begin(p, wall) => Update(s, p, Started(s.procs[p], wall))
    case Land(p, id) =>
      var pr := s.procs[p];
      var w := pr.writers[id];
      Update(s, p, pr.(writers := pr.writers[id := w.(landed := true)])).(disk := Some(w.mark))
    case Return(p, id, ok) => Update(s, p, Returned(s.procs[p], id, ok))
    case StartBound(p) => Update(s, p, s.procs[p].(phase := Refusing))
    case Next(p, wall, waited) =>
      var (c, o) := Pass(s.procs[p].clock, wall, waited);
      var s1 := WithClock(s, p, s.procs[p], c);
      if o.Issued? then s1.(issued := s.issued + [o.at]) else s1
    case Bound(p, id) => WithClock(s, p, s.procs[p], WriteBound(s.procs[p].clock, id))
    case WaitBound(p) => WithClock(s, p, s.procs[p], OpenEpisode(s.procs[p].clock))
    case Retry(p, wall) => WithClock(s, p, s.procs[p], RetryWrite(s.procs[p].clock, wall))
    case Stop(p) =>
      var c := s.procs[p].clock;
      Update(s, p, s.procs[p].(phase := Stopping(c.write), clock := StopClock(c)))
    case Release(p) => Unlocked(Update(s, p, s.procs[p].(phase := Released)))
    case Abandon(p) => Update(s, p, s.procs[p].(phase := Abandoned))
    case Exit(p) =>
      var s1 := s.(procs := s.procs - {p});
      if s.lock == Some(p) then Unlocked(s1) else s1
  }

  // ---------------------------------------------------------------------
  // The invariant of every reachable system
  // ---------------------------------------------------------------------

  function MarkOr0(m: Option<int>): int {
    if m.Some? then m.value else 0
  }

  /** The start's one writer, and the disk it leaves. */
  predicate StartWriterOK(disk: Option<int>, pr: Process) {
    && pr.writers.Keys <= {0}
    && (pr.found.Some? ==> disk.Some?)
    && (pr.found.Some? ==> pr.found.value <= disk.value)
    && (0 in pr.writers ==>
          && pr.persisted == -1
          && pr.writers[0].mark == pr.clock.written
          && (if pr.writers[0].landed then disk == Some(pr.clock.written) else disk == pr.found)
          && (pr.found.Some? ==> pr.found.value <= pr.clock.written)
          && pr.clock.written < SIGNING_CEILING)
  }

  /** A clock in use: its one writer is the write it names, every completed mark
      is on disk, and the disk is at most the highest mark written. */
  predicate LiveOK(disk: Option<int>, pr: Process) {
    && ClockOK(pr.clock)
    && pr.writers.Keys == (if pr.clock.write.Some? then {pr.clock.write.value} else {})
    && disk.Some?
    && pr.clock.covered <= disk.value <= pr.clock.written
    && pr.persisted <= disk.value
    && (pr.clock.write.Some? ==>
          var w := pr.writers[pr.clock.write.value];
          w.mark == pr.clock.written && (w.landed ==> disk.value == w.mark))
  }

  /** What the lock's holder keeps, by phase. */
  predicate HolderOK(disk: Option<int>, pr: Process) {
    && (pr.live <==> pr.phase == Serving || pr.phase.Stopping? || (pr.phase == Abandoned && pr.clock.closed))
    && (pr.live ==> LiveOK(disk, pr))
    && (pr.phase.Stopping? || pr.phase == Abandoned ==> pr.live ==> pr.clock.closed)
    && match pr.phase
       case Locked => pr.writers == map[] && pr.persisted == -1
       case Loaded =>
         && pr.writers == map[] && pr.found == disk && pr.persisted == -1
         && pr.clock.last == MarkOr0(pr.found) && !pr.clock.closed
       case Starting =>
         && StartWriterOK(disk, pr) && 0 in pr.writers && !pr.clock.closed
         && pr.clock == pr.clock.(last := MarkOr0(pr.found), covered := MarkOr0(pr.found), episode := false,
                                  write := None, retry := false, started := 0, waiting := 0)
       case Refusing => StartWriterOK(disk, pr) && pr.clock.last == MarkOr0(pr.found) && !pr.clock.closed
       case Serving => !pr.clock.closed
       case Stopping(idle) => pr.clock.write.None? || pr.clock.write == idle
       case Abandoned => !pr.live ==> StartWriterOK(disk, pr) && pr.clock.last == MarkOr0(pr.found)
       case Released => false
  }

  /** A process without the lock has released it: no writer of its own is left,
      and a clock of its is stopped. */
  predicate FormerOK(pr: Process) {
    pr.phase == Released && pr.writers == map[] && (pr.live ==> pr.clock.closed && pr.clock.write.None?)
  }

  predicate FoundOK(pr: Process) {
    pr.found.Some? ==> MarkInRange(pr.found.value)
  }

  ghost predicate SystemOK(s: System) {
    && DiskOK(s)
    && (s.lock.Some? ==> s.lock.value in s.procs && HolderOK(s.disk, s.procs[s.lock.value]))
    && (forall p | p in s.procs :: FoundOK(s.procs[p]) && (s.lock != Some(p) ==> FormerOK(s.procs[p])))
  }

  /** The system after one interleaving from a directory holding `disk`, if
      every action was enabled in turn. */
  function Run(disk: Option<int>, run: seq<Action>): Option<System> {
    if run == [] then
      if disk.Some? ==> MarkInRange(disk.value) then Some(Initial(disk)) else None
    else
      var before := Run(disk, Front(run));
      if before.Some? && Enabled(before.value, Last(run)) then Some(Step(before.value, Last(run))) else None
  }

  // ---------------------------------------------------------------------
  // Every step keeps the invariant
  // ---------------------------------------------------------------------

  lemma OpeningKeeps(s: System, a: Action)
    requires SystemOK(s) && Enabled(s, a)
    requires a.Acquire? || a.ReadMark? || a.Begin? || a.StartBound?
    ensures SystemOK(Step(s, a))
  {
  }

  lemma LandKeeps(s: System, a: Action)
    requires SystemOK(s) && Enabled(s, a) && a.Land?
    ensures SystemOK(Step(s, a))
    ensures s.disk.Some? ==> s.disk.value <= Step(s, a).disk.value
  {
  }

  lemma StartReturnKeeps(disk: Option<int>, pr: Process, id: nat, ok: bool)
    requires HolderOK(disk, pr) && !pr.live && id in pr.writers && FoundOK(pr)
    requires ok ==> pr.writers[id].landed
    requires disk.Some? ==> MarkInRange(disk.value)
    ensures HolderOK(disk, Returned(pr, id, ok))
  {
  }

  lemma LiveReturnKeeps(disk: Option<int>, pr: Process, id: nat, ok: bool)
    requires HolderOK(disk, pr) && pr.live && id in pr.writers
    requires ok ==> pr.writers[id].landed || pr.writers[id].mark <= pr.persisted
    ensures HolderOK(disk, Returned(pr, id, ok))
  {
    StepsKeep(pr.clock, 0, 0);
  }

  lemma HolderUpdateKeeps(s: System, p: Pid, pr: Process)
    requires SystemOK(s) && s.lock == Some(p) && HolderOK(s.disk, pr) && FoundOK(pr)
    ensures SystemOK(Update(s, p, pr))
  {
  }

  lemma ReturnKeeps(s: System, a: Action)
    requires SystemOK(s) && Enabled(s, a) && a.Return?
    ensures SystemOK(Step(s, a))
  {
    var pr := s.procs[a.p];
    if pr.live {
      LiveReturnKeeps(s.disk, pr, a.id, a.ok);
    } else {
      StartReturnKeeps(s.disk, pr, a.id, a.ok);
    }
    HolderUpdateKeeps(s, a.p, Returned(pr, a.id, a.ok));
  }

  lemma WithClockKeeps(s: System, p: Pid, c: Clock)
    requires SystemOK(s) && p in s.procs && s.procs[p].live && Advances(s.procs[p].clock, c)
    requires s.lock == Some(p) ==> ClockOK(c)
    ensures SystemOK(WithClock(s, p, s.procs[p], c))
  {
  }

  lemma SigningKeeps(s: System, a: Action)
    requires SystemOK(s) && Enabled(s, a)
    requires a.Next? || a.Bound? || a.WaitBound? || a.Retry?
    ensures SystemOK(Step(s, a))
  {
    var c := s.procs[a.p].clock;
    var wall := if a.Next? || a.Retry? then a.wall else 0;
    var waited := a.Next? && a.waited;
    var id := if a.Bound? then a.id else 0;
    if s.lock == Some(a.p) {
      PassKeeps(c, wall, waited);
      StepsKeep(c, wall, id);
    } else {
      StoppedClockIsQuiet(c, wall, waited, id, 0, false);
    }
    var c' := if a.Next? then Pass(c, wall, waited).0 else if a.Bound? then WriteBound(c, id)
              else if a.WaitBound? then OpenEpisode(c) else RetryWrite(c, wall);
    assert c' in {Pass(c, wall, waited).0, WriteBound(c, id), OpenEpisode(c), RetryWrite(c, wall)};
    WithClockKeeps(s, a.p, c');
  }

  lemma StoppingKeeps(s: System, a: Action)
    requires SystemOK(s) && Enabled(s, a) && (a.Stop? || a.Abandon?)
    ensures SystemOK(Step(s, a))
  {
    HolderUpdateKeeps(s, a.p, Step(s, a).procs[a.p]);
  }

  lemma ReleaseKeeps(s: System, a: Action)
    requires SystemOK(s) && Enabled(s, a) && a.Release?
    ensures SystemOK(Step(s, a))
  {
  }

  lemma ExitKeeps(s: System, a: Action)
    requires SystemOK(s) && Enabled(s, a) && a.Exit?
    ensures SystemOK(Step(s, a))
  {
  }

  lemma StepKeeps(s: System, a: Action)
    requires SystemOK(s) && Enabled(s, a)
    ensures SystemOK(Step(s, a))
    ensures s.disk.Some? ==> Step(s, a).disk.Some? && s.disk.value <= Step(s, a).disk.value
  {
    match a
    case Land(_, _) => LandKeeps(s, a);
    case Return(_, _, _) => ReturnKeeps(s, a);
    case Acquire(_) | ReadMark(_) | Begin(_, _) | StartBound(_) => OpeningKeeps(s, a);
    case Next(_, _, _) | Bound(_, _) | WaitBound(_) | Retry(_, _) => SigningKeeps(s, a);
    case Stop(_) | Abandon(_) => StoppingKeeps(s, a);
    case Release(_) => ReleaseKeeps(s, a);
    case Exit(_) => ExitKeeps(s, a);
  }

  lemma {:induction false} RunKeeps(disk: Option<int>, run: seq<Action>)
    requires Run(disk, run).Some?
    ensures SystemOK(Run(disk, run).value)
  {
    if run != [] {
      RunKeeps(disk, Front(run));
      StepKeeps(Run(disk, Front(run)).value, Last(run));
    }
  }

  // ---------------------------------------------------------------------
  // The state directory's rules, over every interleaving
  // ---------------------------------------------------------------------

  /** `whole` extends `run`. */
  lemma {:induction false} RunPrefix(disk: Option<int>, run: seq<Action>, i: nat)
    requires Run(disk, run).Some? && i <= |run|
    ensures Run(disk, run[..i]).Some?
  {
    if i < |run| {
      assert Front(run)[..i] == run[..i];
      RunPrefix(disk, Front(run), i);
    } else {
      assert run[..i] == run;
    }
  }

  /** The mark on disk never falls, whatever lands, fails or dies. */
  lemma {:induction false} MarkNeverFalls(disk: Option<int>, run: seq<Action>, i: nat)
    requires Run(disk, run).Some? && i <= |run|
    ensures Run(disk, run[..i]).Some?
    ensures var before := Run(disk, run[..i]).value.disk;
            var after := Run(disk, run).value.disk;
            before.Some? ==> after.Some? && before.value <= after.value
  {
    RunPrefix(disk, run, i);
    if i < |run| {
      assert Front(run)[..i] == run[..i];
      MarkNeverFalls(disk, Front(run), i);
      RunKeeps(disk, Front(run));
      StepKeeps(Run(disk, Front(run)).value, Last(run));
    } else {
      assert run[..i] == run;
    }
  }

  /** A process with an outstanding write of the mark holds the lock, and has
      only that one; so no two processes have writes outstanding, and a write
      that lands or returns is never one of a process that released the lock. */
  lemma OutstandingWriteHoldsTheLock(disk: Option<int>, run: seq<Action>)
    requires Run(disk, run).Some?
    ensures var s := Run(disk, run).value;
            forall p | p in s.procs && s.procs[p].writers != map[] ::
              s.lock == Some(p) && s.procs[p].phase != Released && |s.procs[p].writers| == 1
  {
    RunKeeps(disk, run);
    var s := Run(disk, run).value;
    forall p | p in s.procs && s.procs[p].writers != map[]
      ensures s.lock == Some(p) && s.procs[p].phase != Released && |s.procs[p].writers| == 1
    {
      var pr := s.procs[p];
      assert pr.writers.Keys != {};
      var id :| id in pr.writers;
      assert pr.writers.Keys == {id};
      assert |pr.writers| == |pr.writers.Keys|;
    }
  }

  /** Once a run has decided to stop, its process issues no value and starts no
      write, whatever else happens until it ends. */
  lemma {:induction false} StopIsFinal(disk: Option<int>, run: seq<Action>, more: seq<Action>, p: Pid)
    requires Run(disk, run).Some? && Run(disk, run + more).Some?
    requires var s := Run(disk, run).value; p in s.procs && s.procs[p].live && s.procs[p].clock.closed
    requires Exit(p) !in more
    ensures var s, s' := Run(disk, run).value, Run(disk, run + more).value;
            && p in s'.procs && s'.procs[p].live && s'.procs[p].clock.closed
            && s'.procs[p].clock.last == s.procs[p].clock.last
            && s'.procs[p].clock.started == s.procs[p].clock.started
            && (forall a | a in more && a.p == p :: !a.Stop?)
  {
    hide SystemOK, Step, Enabled;
    if more == [] {
      assert run + more == run;
    } else {
      assert Front(run + more) == run + Front(more) && Last(run + more) == Last(more);
      RunKeeps(disk, run + Front(more));
      StopIsFinal(disk, run, Front(more), p);
      StepAfterStop(Run(disk, run + Front(more)).value, Last(more), p);
      assert more == Front(more) + [Last(more)];
    }
  }

  lemma StepAfterStop(s: System, a: Action, p: Pid)
    requires SystemOK(s) && Enabled(s, a) && a != Exit(p)
    requires p in s.procs && s.procs[p].live && s.procs[p].clock.closed
    ensures var s' := Step(s, a);
            && p in s'.procs && s'.procs[p].live && s'.procs[p].clock.closed
            && s'.procs[p].clock.last == s.procs[p].clock.last
            && s'.procs[p].clock.started == s.procs[p].clock.started
            && (a.p == p ==> !a.Stop? && s'.issued == s.issued)
  {
    if a.p == p {
      var wall := if a.Next? || a.Retry? then a.wall else 0;
      var id := if a.Bound? || a.Return? then a.id else 0;
      var mark := if a.Return? then s.procs[p].writers[id].mark else 0;
      StoppedClockIsQuiet(s.procs[p].clock, wall, a.Next? && a.waited, id, mark, a.Return? && a.ok);
      hide ClockOK, Pass, EndWrite, RetryWrite, WriteBound, OpenEpisode;
    } else {
      OthersStay(s, a, p);
      hide Step, SystemOK, Enabled;
    }
  }

  lemma OthersStay(s: System, a: Action, p: Pid)
    requires Enabled(s, a) && p in s.procs && a.p != p
    ensures p in Step(s, a).procs && Step(s, a).procs[p] == s.procs[p]
  {
  }

  // ---------------------------------------------------------------------
  // A stalled write does not stop signing
  // ---------------------------------------------------------------------

  /** A start is refused before it writes exactly when its first value, at or past the
      wall clock and past the mark found, would reach the ceiling. */
  lemma StartsBelowTheCeiling(pr: Process, wall: Int64)
    ensures Started(pr, wall).phase == Refusing <==>
            wall >= SIGNING_CEILING || (pr.found.Some? && pr.found.value + 1 >= SIGNING_CEILING)
    ensures Started(pr, wall).phase == Refusing || Started(pr, wall).phase == Starting
  {
  }

  /** What ends the episode of `p`'s clock, or its signing: the process ends or is
      stopped, or a write completes whose mark covers every value it issued. */
  predicate EndsEpisode(s: System, a: Action, p: Pid)
    requires p in s.procs
  {
    || a == Exit(p) || a == Stop(p)
    || (a.Return? && a.p == p && a.ok && a.id in s.procs[p].writers
        && s.procs[p].writers[a.id].mark >= s.procs[p].clock.last)
  }

  /** None of those happens in `more`. */
  ghost predicate EpisodeLasts(disk: Option<int>, run: seq<Action>, more: seq<Action>, p: Pid) {
    more != [] ==>
      && EpisodeLasts(disk, run, Front(more), p)
      && Run(disk, run + Front(more)).Some?
      && var s := Run(disk, run + Front(more)).value;
      p in s.procs ==> !EndsEpisode(s, Last(more), p)
  }

  predicate InEpisode(s: System, p: Pid) {
    p in s.procs && s.procs[p].live && !s.procs[p].clock.closed && s.procs[p].clock.episode
  }

  lemma EpisodeStays(s: System, a: Action, p: Pid)
    requires SystemOK(s) && Enabled(s, a) && InEpisode(s, p) && !EndsEpisode(s, a, p)
    ensures InEpisode(Step(s, a), p)
  {
    if a.p != p {
      OthersStay(s, a, p);
    } else if a.Next? {
      hide SystemOK;
    }
  }

  lemma {:induction false} StaysInEpisode(disk: Option<int>, run: seq<Action>, more: seq<Action>, p: Pid)
    requires Run(disk, run).Some? && InEpisode(Run(disk, run).value, p)
    requires Run(disk, run + more).Some? && EpisodeLasts(disk, run, more, p)
    ensures InEpisode(Run(disk, run + more).value, p)
  {
    hide SystemOK, EndsEpisode, Step, Enabled;
    if more == [] {
      assert run + more == run;
    } else {
      assert Front(run + more) == run + Front(more) && Last(run + more) == Last(more);
      StaysInEpisode(disk, run, Front(more), p);
      RunKeeps(disk, run + Front(more));
      EpisodeStays(Run(disk, run + Front(more)).value, Last(more), p);
    }
  }

  /** On the unstopped clock of `p` a bound passes: of its outstanding write, or of a
      value that waits for coverage. */
  predicate BoundPasses(s: System, a: Action, p: Pid) {
    && p in s.procs && s.procs[p].live && !s.procs[p].clock.closed
    && ((a.Bound? && a.p == p && s.procs[p].clock.write == Some(a.id))
        || (a == WaitBound(p) && s.procs[p].clock.waiting > 0))
  }

  lemma BoundOpens(s: System, a: Action, p: Pid)
    requires BoundPasses(s, a, p)
    ensures Enabled(s, a) && InEpisode(Step(s, a), p)
  {
  }

  /** Once the bound of its outstanding write or of a waiting value has passed, an
      unstopped clock signs: each Next below the ceiling issues at once the least value
      at or past the wall clock and past the last, whatever else happens, until a write
      completes that covers every value issued. */
  lemma StalledWriteSigns(disk: Option<int>, run: seq<Action>, p: Pid, a: Action, more: seq<Action>, wall: Int64,
                          waited: bool)
    requires Run(disk, run).Some? && BoundPasses(Run(disk, run).value, a, p)
    requires Run(disk, run + [a] + more).Some? && EpisodeLasts(disk, run + [a], more, p)
    ensures var end := Run(disk, run + [a] + more).value;
            && InEpisode(end, p)
            && var at := Max(wall, end.procs[p].clock.last + 1);
            (waited ==> end.procs[p].clock.waiting > 0) && at < SIGNING_CEILING ==>
              Enabled(end, Next(p, wall, waited)) && Step(end, Next(p, wall, waited)).issued == end.issued + [at]
  {
    hide SystemOK, EpisodeLasts, Step, Enabled;
    var bounded := run + [a];
    assert Front(bounded) == run;
    BoundOpens(Run(disk, run).value, a, p);
    assert Run(disk, bounded) == Some(Step(Run(disk, run).value, a));
    hide Run;
    StaysInEpisode(disk, bounded, more, p);
    var end := Run(disk, bounded + more).value;
    if (waited ==> end.procs[p].clock.waiting > 0) && Max(wall, end.procs[p].clock.last + 1) < SIGNING_CEILING {
      SignsInEpisode(end, p, wall, waited);
    }
  }

  lemma SignsInEpisode(s: System, p: Pid, wall: Int64, waited: bool)
    requires InEpisode(s, p) && (waited ==> s.procs[p].clock.waiting > 0)
    requires Max(wall, s.procs[p].clock.last + 1) < SIGNING_CEILING
    ensures Enabled(s, Next(p, wall, waited))
    ensures Step(s, Next(p, wall, waited)).issued == s.issued + [Max(wall, s.procs[p].clock.last + 1)]
  {
  }

  // ---------------------------------------------------------------------
  // No value is signed twice
  // ---------------------------------------------------------------------

  predicate Increasing(values: seq<int>) {
    forall i, j | 0 <= i < j < |values| :: values[i] < values[j]
  }

  /** What bounds every value signed so far while no run has ended uncovered. */
  function Ceiling(s: System): int {
    if s.lock.Some? && s.lock.value in s.procs && s.procs[s.lock.value].phase != Locked
    then s.procs[s.lock.value].clock.last else MarkOr0(s.disk)
  }

  predicate IssuedOK(s: System) {
    && (s.issued != [] ==> s.disk.Some?)
    && (forall v | v in s.issued :: 0 < v < SIGNING_CEILING)
    && (s.uncovered || (Increasing(s.issued) && (s.issued != [] ==> Last(s.issued) <= Ceiling(s))))
  }

  lemma NextKeepsIssued(s: System, a: Action)
    requires SystemOK(s) && IssuedOK(s) && Enabled(s, a) && a.Next?
    ensures IssuedOK(Step(s, a))
  {
    var pr := s.procs[a.p];
    if s.lock == Some(a.p) {
      HolderSigns(s, a.p, a.wall, a.waited);
    } else {
      StoppedClockIsQuiet(pr.clock, a.wall, a.waited, 0, 0, false);
      assert Ceiling(Step(s, a)) == Ceiling(s);
    }
  }

  lemma HolderSigns(s: System, p: Pid, wall: Int64, waited: bool)
    requires s.lock == Some(p) && p in s.procs && IssuedOK(s)
    requires s.procs[p].live && HolderOK(s.disk, s.procs[p]) && (waited ==> s.procs[p].clock.waiting > 0)
    ensures IssuedOK(Step(s, Next(p, wall, waited)))
  {
    PassKeeps(s.procs[p].clock, wall, waited);
    var (c, o) := Pass(s.procs[p].clock, wall, waited);
    var s' := Step(s, Next(p, wall, waited));
    assert Ceiling(s) == s.procs[p].clock.last && Ceiling(s') == c.last;
  }

  lemma EndKeepsIssued(s: System, a: Action)
    requires SystemOK(s) && IssuedOK(s) && Enabled(s, a) && (a.Release? || a.Exit?)
    ensures IssuedOK(Step(s, a))
  {
    if s.lock != Some(a.p) {
      assert Ceiling(Step(s, a)) == Ceiling(s);
    }
  }

  /** A step that only a process with a writer or a clock takes. */
  predicate Clocked(a: Action) {
    a.Land? || a.Return? || a.Bound? || a.WaitBound? || a.Retry?
  }

  lemma OpeningRaises(s: System, a: Action)
    requires SystemOK(s) && Enabled(s, a)
    requires a.Acquire? || a.ReadMark? || a.Begin? || a.StartBound? || a.Stop? || a.Abandon?
    ensures Ceiling(s) <= Ceiling(Step(s, a))
  {
  }

  lemma ClockRaises(s: System, a: Action)
    requires SystemOK(s) && Enabled(s, a)
    requires Clocked(a)
    ensures Ceiling(s) <= Ceiling(Step(s, a))
  {
  }

  lemma OtherKeepsIssued(s: System, a: Action)
    requires SystemOK(s) && IssuedOK(s) && Enabled(s, a) && !a.Next? && !a.Release? && !a.Exit?
    ensures IssuedOK(Step(s, a))
  {
    if Clocked(a) {
      ClockRaises(s, a);
    } else {
      OpeningRaises(s, a);
    }
    var s' := Step(s, a);
    assert s'.issued == s.issued && s'.uncovered == s.uncovered && (s.disk.Some? ==> s'.disk.Some?);
    hide Ceiling, SystemOK, Step, Enabled;
  }

  lemma StepKeepsIssued(s: System, a: Action)
    requires SystemOK(s) && IssuedOK(s) && Enabled(s, a)
    ensures IssuedOK(Step(s, a))
  {
    if a.Next? {
      NextKeepsIssued(s, a);
    } else if a.Release? || a.Exit? {
      EndKeepsIssued(s, a);
    } else {
      OtherKeepsIssued(s, a);
    }
  }

  lemma {:induction false} RunKeepsIssued(disk: Option<int>, run: seq<Action>)
    requires Run(disk, run).Some?
    ensures IssuedOK(Run(disk, run).value)
  {
    if run != [] {
      RunKeepsIssued(disk, Front(run));
      RunKeeps(disk, Front(run));
      StepKeepsIssued(Run(disk, Front(run)).value, Last(run));
    }
  }

  /** Over any number of runs and whatever the wall clock reads, every value is
      above all signed before it, unless some run ended with its last value
      above the mark on disk. */
  lemma SigningNeverRepeats(disk: Option<int>, run: seq<Action>)
    requires Run(disk, run).Some? && !Run(disk, run).value.uncovered
    ensures Increasing(Run(disk, run).value.issued)
  {
    RunKeepsIssued(disk, run);
  }

  /** Every run of the interleaving that ended had no episode open when it did. */
  predicate EndsWithoutEpisode(disk: Option<int>, run: seq<Action>)
    requires Run(disk, run).Some?
  {
    run != [] ==>
      && EndsWithoutEpisode(disk, Front(run))
      && var s, a := Run(disk, Front(run)).value, Last(run);
      (a.Release? || a.Exit?) && s.lock == Some(a.p) ==> !s.procs[a.p].clock.episode
  }

  lemma {:induction false} NeverUncovered(disk: Option<int>, run: seq<Action>)
    requires Run(disk, run).Some? && EndsWithoutEpisode(disk, run)
    ensures !Run(disk, run).value.uncovered
  {
    if run != [] {
      var s, a := Run(disk, Front(run)).value, Last(run);
      NeverUncovered(disk, Front(run));
      RunKeeps(disk, Front(run));
      if (a.Release? || a.Exit?) && s.lock == Some(a.p) { EndWithoutEpisodeIsCovered(disk, Front(run), a); }
    }
  }

  /** Over any number of runs on one state directory, whatever the wall clock reads
      and however the writes end, if each run ends with no episode open then every
      signing time is strictly greater than all issued before it. */
  lemma SigningTimesIncrease(disk: Option<int>, run: seq<Action>)
    requires Run(disk, run).Some? && EndsWithoutEpisode(disk, run)
    ensures Increasing(Run(disk, run).value.issued)
  {
    NeverUncovered(disk, run);
    SigningNeverRepeats(disk, run);
  }

  /** A run that ends with no episode open never ends uncovered. */
  lemma EndWithoutEpisodeIsCovered(disk: Option<int>, run: seq<Action>, a: Action)
    requires Run(disk, run).Some? && Enabled(Run(disk, run).value, a) && (a.Release? || a.Exit?)
    requires var s := Run(disk, run).value; s.lock == Some(a.p) && !s.uncovered && !s.procs[a.p].clock.episode
    ensures !Step(Run(disk, run).value, a).uncovered
  {
    hide SystemOK, IssuedOK, Step;
    RunKeepsIssued(disk, run);
    RunKeeps(disk, run);
    NoEpisodeIsCovered(Run(disk, run).value, a.p);
    hide Run;
    EndsCovered(Run(disk, run).value, a);
  }

  lemma EndsCovered(s: System, a: Action)
    requires Enabled(s, a) && (a.Release? || a.Exit?) && s.lock == Some(a.p)
    ensures Step(s, a).uncovered <==> s.uncovered || Uncovered(s)
  {
  }

  lemma NoEpisodeIsCovered(s: System, p: Pid)
    requires SystemOK(s) && IssuedOK(s) && s.lock == Some(p) && !s.uncovered && !s.procs[p].clock.episode
    ensures !Uncovered(s)
  {
  }

  /** The actions of `more` in turn, from `s`. */
  function Continue(s: System, more: seq<Action>): Option<System>
    decreases |more|
  {
    if more == [] then Some(s)
    else if Enabled(s, more[0]) then Continue(Step(s, more[0]), more[1..])
    else None
  }

  lemma {:induction false} RunContinues(disk: Option<int>, run: seq<Action>, more: seq<Action>)
    requires Run(disk, run).Some?
    ensures Run(disk, run + more) == Continue(Run(disk, run).value, more)
    decreases |more|
  {
    if more == [] {
      assert run + more == run;
    } else if Enabled(Run(disk, run).value, more[0]) {
      var next := run + [more[0]];
      assert Front(next) == run;
      assert next + more[1..] == run + more;
      RunContinues(disk, next, more[1..]);
    } else {
      NotEnabled(disk, run, more);
    }
  }

  lemma {:induction false} NotEnabled(disk: Option<int>, run: seq<Action>, more: seq<Action>)
    requires Run(disk, run).Some? && more != [] && !Enabled(Run(disk, run).value, more[0])
    ensures Run(disk, run + more).None?
    decreases |more|
  {
    assert Front(run + more) == run + Front(more);
    if |more| == 1 {
      assert run + Front(more) == run;
    } else {
      NotEnabled(disk, run, Front(more));
    }
  }

  lemma {:induction false} ContinueConcat(s: System, xs: seq<Action>, ys: seq<Action>)
    requires Continue(s, xs).Some?
    ensures Continue(s, xs + ys) == Continue(Continue(s, xs).value, ys)
    decreases |xs|
  {
    if xs == [] {
      assert xs + ys == ys;
    } else {
      assert (xs + ys)[1..] == xs[1..] + ys;
      ContinueConcat(Step(s, xs[0]), xs[1..], ys);
    }
  }

  lemma ContinueStep(s: System, more: seq<Action>)
    requires more != [] && Enabled(s, more[0])
    ensures Continue(s, more) == Continue(Step(s, more[0]), more[1..])
  {
  }

  /** A clean start of process `p`, up to serving. */
  function StartUp(p: Pid, wall: Int64): seq<Action> {
    [Acquire(p), ReadMark(p), Begin(p, wall), Land(p, 0), Return(p, 0, true)]
  }

  function Served(s: System, p: Pid, wall: Int64): System {
    var c := SigningClocks.Starting(s.disk, wall);
    s.(disk := Some(c.written), lock := Some(p), runs := s.runs + 1,
       procs := s.procs[p := Process(Serving, s.disk, c.written, c.(covered := Max(c.covered, c.written), started := 1),
                                     map[], true)])
  }

  lemma StartUpServes(s: System, p: Pid, wall: Int64)
    requires s.lock.None? && p !in s.procs && FirstValue(s.disk, wall) < SIGNING_CEILING
    requires MarkInRange(SigningClocks.Starting(s.disk, wall).written)
    ensures Continue(s, StartUp(p, wall)) == Some(Served(s, p, wall))
  {
    var c := SigningClocks.Starting(s.disk, wall);
    var r := StartUp(p, wall);
    var s3 := BeginsWith(s, p, wall);
    assert r[3..] == [Land(p, 0), Return(p, 0, true)];
    hide Continue, SigningClocks.Starting, Step, Enabled, StartUp, MarkInRange, FirstValue;
    FirstWriteServes(s3, p, c, r[3..]);
    UpdatedTwice(s.procs, p, s3.procs[p], Served(s, p, wall).procs[p]);
  }

  lemma UpdatedTwice(procs: map<Pid, Process>, p: Pid, x: Process, y: Process)
    ensures procs[p := x][p := y] == procs[p := y]
  {
  }

  /** The first three actions of a start: the lock, the mark, and its first write. */
  lemma BeginsWith(s: System, p: Pid, wall: Int64) returns (s3: System)
    requires s.lock.None? && p !in s.procs && FirstValue(s.disk, wall) < SIGNING_CEILING
    ensures var c := SigningClocks.Starting(s.disk, wall);
            && s3 == s.(lock := Some(p), runs := s.runs + 1,
                        procs := s.procs[p := Process(Starting, s.disk, -1, c, map[0 := Writer(c.written, false)],
                            false)])
            && Continue(s, StartUp(p, wall)) == Continue(s3, StartUp(p, wall)[3..])
  {
    hide Continue, SigningClocks.Starting;
    var c := SigningClocks.Starting(s.disk, wall);
    var r := StartUp(p, wall);
    var s1 := Step(s, r[0]);
    var s2 := Step(s1, r[1]);
    s3 := Step(s2, r[2]);
    assert s3.procs == s.procs[p := Process(Starting, s.disk, -1, c, map[0 := Writer(c.written, false)], false)];
    ContinueStep(s, r);
    ContinueStep(s1, r[1..]);
    assert r[1..][1..] == r[2..];
    ContinueStep(s2, r[2..]);
    assert r[2..][1..] == r[3..];
  }

  lemma FirstWriteServes(s: System, p: Pid, c: Clock, r: seq<Action>)
    requires p in s.procs
             && s.procs[p] == Process(Starting, s.procs[p].found, -1, c, map[0 := Writer(c.written, false)], false)
    requires MarkInRange(c.written) && r == [Land(p, 0), Return(p, 0, true)]
    ensures Continue(s, r) ==
            Some(Update(s, p, Process(Serving, s.procs[p].found, c.written, c.(covered := Max(c.covered, c.written),
                started := 1),
                                      map[], true)).(disk := Some(c.written)))
  {
    var s1 := Step(s, r[0]);
    assert s1.procs[p].writers == map[0 := Writer(c.written, true)];
    var s2 := Step(s1, r[1]);
    assert s2.procs[p].writers == map[];
    assert s2.procs == s.procs[p := s2.procs[p]];
    ContinueStep(s, r);
    ContinueStep(s1, r[1..]);
  }

  /** A clean start that signs one value. */
  function FreshRun(p: Pid, wall: Int64): seq<Action> {
    StartUp(p, wall) + [Next(p, wall, false)]
  }

  lemma FreshRunIssues(s: System, p: Pid, wall: Int64)
    requires s.lock.None? && p !in s.procs && s.disk.Some? && MarkInRange(s.disk.value)
    requires 0 <= wall == s.disk.value + 1 < SIGNING_CEILING
    ensures Continue(s, FreshRun(p, wall)).Some?
    ensures Continue(s, FreshRun(p, wall)).value.issued == s.issued + [wall]
  {
    StartUpServes(s, p, wall);
    var next := [Next(p, wall, false)];
    ContinueConcat(s, StartUp(p, wall), next);
    var s' := Served(s, p, wall);
    assert next[1..] == [];
    assert Continue(s', next) == Some(Step(s', next[0]));
  }

  /** The condition of SigningNeverRepeats is exact: from a free directory whose
      last value is above its mark, a fresh run can sign at or below that value. */
  lemma UncoveredEndCanRepeat(disk: Option<int>, run: seq<Action>, p: Pid)
    requires Run(disk, run).Some?
    requires var s := Run(disk, run).value; s.lock.None? && p !in s.procs && Uncovered(s)
    ensures var s := Run(disk, run).value;
            && s.disk.Some? && 0 <= s.disk.value + 1 < SIGNING_CEILING
            && var again := Continue(s, FreshRun(p, s.disk.value + 1));
            again.Some? && !Increasing(again.value.issued)
  {
    hide IssuedOK, Run, Continue, Increasing, FreshRun, HolderOK, FormerOK, Uncovered;
    RunKeeps(disk, run);
    RunKeepsIssued(disk, run);
    RepeatFrom(Run(disk, run).value, p);
  }

  lemma RepeatFrom(s: System, p: Pid)
    requires DiskOK(s) && IssuedOK(s) && s.lock.None? && p !in s.procs && Uncovered(s)
    ensures s.disk.Some? && 0 <= s.disk.value + 1 < SIGNING_CEILING
    ensures var again := Continue(s, FreshRun(p, s.disk.value + 1));
            again.Some? && !Increasing(again.value.issued)
  {
    assert Last(s.issued) in s.issued;
    FreshRunIssues(s, p, s.disk.value + 1);
    var values := s.issued + [s.disk.value + 1];
    assert values[|s.issued| - 1] >= values[|s.issued|];
  }

  /** Such an end is reachable: a value past the coverage, its write failing, is
      signed in the episode, and the process dies before a write covers it. */
  function EpisodeRun(p: Pid): seq<Action> {
    StartUp(p, 0) + [Next(p, 2000, false), Return(p, 1, false), Next(p, 2000, true), Exit(p)]
  }

  lemma EpisodeRunEndsUncovered(p: Pid)
    ensures var end := Run(None, EpisodeRun(p));
            end.Some? && end.value.lock.None? && p !in end.value.procs && Uncovered(end.value)
  {
    var r := [Next(p, 2000, false), Return(p, 1, false), Next(p, 2000, true), Exit(p)];
    StartUpServes(Initial(None), p, 0);
    ContinueConcat(Initial(None), StartUp(p, 0), r);
    EpisodeEnds(Served(Initial(None), p, 0), p, r);
    RunContinues(None, [], EpisodeRun(p));
    assert [] + EpisodeRun(p) == EpisodeRun(p);
  }

  lemma EpisodeEnds(s: System, p: Pid, r: seq<Action>)
    requires s == Served(Initial(None), p, 0)
    requires r == [Next(p, 2000, false), Return(p, 1, false), Next(p, 2000, true), Exit(p)]
    ensures var end := Continue(s, r);
            end.Some? && end.value.lock.None? && p !in end.value.procs && Uncovered(end.value)
  {
    var s1 := Step(s, r[0]);
    assert s1.procs[p].writers == map[1 := Writer(3000, false)];
    var s2 := Step(s1, r[1]);
    assert s2.procs[p].clock.episode;
    var s3 := Step(s2, r[2]);
    assert s3.issued == [2000];
    ContinueStep(s, r);
    ContinueStep(s1, r[1..]);
    ContinueStep(s2, r[1..][1..]);
    ContinueStep(s3, r[1..][1..][1..]);
  }

  // ---------------------------------------------------------------------
  // How far ahead of the wall clock signing can run
  // ---------------------------------------------------------------------

  predicate WallAtMost(a: Action, w: int) {
    match a
    case Begin(_, wall) => wall <= w
    case Next(_, wall, _) => wall <= w
    case Retry(_, wall) => wall <= w
    case _ => true
  }

  /** With `base` the greater of the first mark and one reservation past the
      latest wall reading: every value is below base plus the values signed plus
      the runs begun, and every mark at most that. */
  predicate LeadOK(s: System, base: int) {
    var bound := base + |s.issued| + s.runs;
    && (s.disk.Some? ==> s.disk.value <= bound)
    && (forall v | v in s.issued :: v < bound)
    && (s.lock.Some? && s.lock.value in s.procs && s.procs[s.lock.value].phase != Locked ==>
          var c := s.procs[s.lock.value].clock;
          c.last < bound && c.written <= bound)
  }

  lemma PassLead(c: Clock, wall: Int64, waited: bool, bound: int)
    requires ClockOK(c) && (waited ==> c.waiting > 0)
    requires c.last < bound && c.written <= bound && wall + SIGNING_RESERVATION <= bound
    ensures var (c', o) := Pass(c, wall, waited);
            && c'.written <= bound && c'.last <= bound && (o.Issued? ==> o.at <= bound)
            && (o.Issued? || c'.last == c.last)
  {
  }

  lemma NextKeepsLead(s: System, a: Action, base: int, w: int)
    requires SystemOK(s) && LeadOK(s, base) && Enabled(s, a) && a.Next?
    requires WallAtMost(a, w) && base >= w + SIGNING_RESERVATION
    ensures LeadOK(Step(s, a), base)
  {
    var c := s.procs[a.p].clock;
    var s' := Step(s, a);
    if s.lock == Some(a.p) {
      var (c', o) := Pass(c, a.wall, a.waited);
      var bound := base + |s.issued| + s.runs;
      PassLead(c, a.wall, a.waited, bound);
      hide Pass, ClockOK, SystemOK;
      assert o.Issued? ==> s'.issued == s.issued + [o.at];
    } else {
      StoppedClockIsQuiet(c, a.wall, a.waited, 0, 0, false);
      assert s'.issued == s.issued;
    }
  }

  lemma ClockKeepsLead(s: System, a: Action, base: int, w: int)
    requires SystemOK(s) && LeadOK(s, base) && Enabled(s, a) && Clocked(a)
    requires WallAtMost(a, w) && base >= 0 && base >= w + SIGNING_RESERVATION
    ensures LeadOK(Step(s, a), base)
  {
    assert Step(s, a).issued == s.issued;
  }

  lemma OtherKeepsLead(s: System, a: Action, base: int, w: int)
    requires SystemOK(s) && LeadOK(s, base) && Enabled(s, a) && !a.Next? && !Clocked(a)
    requires WallAtMost(a, w) && base >= 0 && base >= w + SIGNING_RESERVATION
    ensures LeadOK(Step(s, a), base)
  {
    assert Step(s, a).issued == s.issued;
  }

  /** Restarts add at most one millisecond each to how far signing runs ahead,
      and values at most one each, whatever the clock and the disk do. */
  lemma {:induction false} LeadIsBounded(disk: Option<int>, run: seq<Action>, w: int)
    requires Run(disk, run).Some?
    requires forall a | a in run :: WallAtMost(a, w)
    ensures LeadOK(Run(disk, run).value, Max(w + SIGNING_RESERVATION, MarkOr0(disk)))
  {
    if run != [] {
      forall a | a in Front(run)
        ensures WallAtMost(a, w)
      {
        assert a in run;
      }
      LeadIsBounded(disk, Front(run), w);
      RunKeeps(disk, Front(run));
      var base := Max(w + SIGNING_RESERVATION, MarkOr0(disk));
      RunPrefix(disk, run, 0);
      if Last(run).Next? {
        NextKeepsLead(Run(disk, Front(run)).value, Last(run), base, w);
      } else if Clocked(Last(run)) {
        ClockKeepsLead(Run(disk, Front(run)).value, Last(run), base, w);
      } else {
        OtherKeepsLead(Run(disk, Front(run)).value, Last(run), base, w);
      }
    }
  }

  /** One start that reserves a value it never signs: the mark moves past it. */
  function WastedRun(p: Pid, wall: Int64): seq<Action> {
    StartUp(p, wall) + [Next(p, wall, false), Land(p, 1), Exit(p)]
  }

  function WastedRuns(wall: Int64, k: nat): seq<Action> {
    if k == 0 then [] else WastedRuns(wall, k - 1) + WastedRun(k, wall)
  }

  lemma WastedRunRaises(m: int, runs: nat, p: Pid, wall: Int64)
    requires 0 <= m && m + 1 < SIGNING_CEILING && wall + SIGNING_RESERVATION <= m
    ensures Continue(System(Some(m), None, map[], [], false, runs), WastedRun(p, wall)) ==
            Some(System(Some(m + 1), None, map[], [], false, runs + 1))
  {
    var s := System(Some(m), None, map[], [], false, runs);
    StartsAtMark(m, wall);
    hide Continue, Served, StartUp, Step, Enabled, SigningClocks.Starting, FirstValue, MarkInRange;
    StartUpServes(s, p, wall);
    WastedAfterStart(s, p, wall);
  }

  lemma StartsAtMark(m: int, wall: Int64)
    requires 0 <= m && m + 1 < SIGNING_CEILING && wall + SIGNING_RESERVATION <= m
    ensures FirstValue(Some(m), wall) < SIGNING_CEILING && MarkInRange(SigningClocks.Starting(Some(m), wall).written)
  {
  }

  lemma WastedAfterStart(s: System, p: Pid, wall: Int64)
    requires s.lock.None? && s.procs == map[] && s.issued == [] && !s.uncovered && s.disk.Some?
    requires 0 <= s.disk.value && s.disk.value + 1 < SIGNING_CEILING && wall + SIGNING_RESERVATION <= s.disk.value
    requires Continue(s, StartUp(p, wall)) == Some(Served(s, p, wall))
    ensures Continue(s, WastedRun(p, wall)) ==
            Some(System(Some(s.disk.value + 1), None, map[], [], false, s.runs + 1))
  {
    hide Continue, Served, StartUp;
    var r := [Next(p, wall, false), Land(p, 1), Exit(p)];
    ContinueConcat(s, StartUp(p, wall), r);
    WastedRest(s, p, wall, r);
  }

  /** Served by a mark ahead of the wall clock, the next value waits for a write,
      which lands; the process then ends. */
  lemma WastedRest(s: System, p: Pid, wall: Int64, r: seq<Action>)
    requires s.lock.None? && s.procs == map[] && s.issued == [] && !s.uncovered && s.disk.Some?
    requires 0 <= s.disk.value && s.disk.value + 1 < SIGNING_CEILING && wall + SIGNING_RESERVATION <= s.disk.value
    requires r == [Next(p, wall, false), Land(p, 1), Exit(p)]
    ensures Continue(Served(s, p, wall), r) == Some(System(Some(s.disk.value + 1), None, map[], [], false, s.runs + 1))
  {
    hide Continue;
    var m := s.disk.value;
    var s5 := Served(s, p, wall);
    assert s5.disk == Some(m) && s5.procs[p].clock.last == m && s5.procs[p].persisted == m;
    var s6 := Step(s5, r[0]);
    assert s6.procs[p].writers == map[1 := Writer(m + 1, false)];
    ContinueStep(s5, r);
    LandsAndExits(s6, p, m, r[1..]);
  }

  lemma LandsAndExits(s6: System, p: Pid, m: int, r: seq<Action>)
    requires p in s6.procs && s6.procs.Keys == {p} && s6.lock == Some(p) && s6.disk == Some(m) && 0 <= m
             && m + 1 < SIGNING_CEILING
    requires s6.procs[p].writers == map[1 := Writer(m + 1, false)] && s6.procs[p].persisted < m + 1
    requires s6.issued == [] && !s6.uncovered && r == [Land(p, 1), Exit(p)]
    ensures Continue(s6, r) == Some(System(Some(m + 1), None, map[], [], false, s6.runs))
  {
    hide Continue;
    var s7 := Step(s6, r[0]);
    var s8 := Step(s7, r[1]);
    assert s8.procs == map[];
    ContinueStep(s6, r);
    ContinueStep(s7, r[1..]);
    NothingMore(s8);
    assert r[1..][1..] == [];
  }

  lemma NothingMore(s: System)
    ensures Continue(s, []) == Some(s)
  {
  }

  /** The bound is reached: k starts that sign nothing leave the mark k above the
      one found, however far behind it the wall clock is. */
  lemma {:induction false} RestartsCanLead(found: int, wall: Int64, k: nat)
    requires 0 <= found && found + k < SIGNING_CEILING && wall + SIGNING_RESERVATION <= found
    ensures Run(Some(found), WastedRuns(wall, k)) == Some(System(Some(found + k), None, map[], [], false, k))
  {
    if k > 0 {
      RestartsCanLead(found, wall, k - 1);
      OneMoreRestart(found, wall, k, WastedRuns(wall, k - 1));
    }
  }

  lemma OneMoreRestart(found: int, wall: Int64, k: nat, run: seq<Action>)
    requires 0 <= found && 0 < k && found + k < SIGNING_CEILING && wall + SIGNING_RESERVATION <= found
    requires Run(Some(found), run) == Some(System(Some(found + k - 1), None, map[], [], false, k - 1))
    ensures Run(Some(found), run + WastedRun(k, wall)) == Some(System(Some(found + k), None, map[], [], false, k))
  {
    hide Run, Continue, WastedRun;
    RunContinues(Some(found), run, WastedRun(k, wall));
    WastedRunRaises(found + k - 1, k - 1, k, wall);
  }
}

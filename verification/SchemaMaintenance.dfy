/** The crash-safe forward exchange and its recovery (deploy/serverA/schema_maintenance.py).

    One controller process runs one command at a time under the deployment locks. Everything that
    outlives the process is in a `World`; what the process only remembers is a field of the class.
    Every step may raise, and the process may die at any step, so each command promises its invariant
    whichever way it ends. */
module SchemaMaintenance {
  import opened Outcomes
  import opened Conversion
  import opened StopWindow

  /** The two fixed images of one maintenance identity. */
  datatype Release = Old | New

  function HeadOf(release: Release): Head {
    if release.Old? then H38 else H40
  }

  datatype HostPhase =
    | PreparingPhase | PreparedPhase
    | SwitchedStarting | SwitchedPhase
    | RecoveredStarting | RecoveredPhase
    | RolledBackStarting | RolledBackPhase

  /** The host journal host.json: the keys that steer a retry. */
  datatype Record = Record(
    phase: HostPhase,
    rehearsed: bool,
    stoppedAt: Option<int>,
    rollbackStoppedAt: Option<int>,
    stoppedBackup: Option<seq<nat>>,
    runtimeStarted: bool,
    oldRuntimeStarted: bool,
    forwardAborted: bool)

  /** What the controller sets in motion, with the circumstances at that moment. */
  datatype Event =
    | CopyIssued(dir: Direction, at: int, stop: int, running: set<Release>)
    | ExchangeIssued(dir: Direction, at: int, stop: int, running: set<Release>)
    | FastRollbackIssued(at: int, stop: int, running: set<Release>)
    | StartBegun(release: Release, at: int, stop: int, head: Head, running: set<Release>)

  /** Server A outside the process: clock, live schema, containers, durable files; `accepted` is
      every write a release ever committed and `trace` every step set in motion. */
  datatype World = World(
    now: int,
    live: Live,
    running: set<Release>,
    forward: Option<Journal>,
    reverse: Option<Journal>,
    record: Option<Record>,
    current: Release,
    accepted: seq<nat>,
    trace: seq<Event>)

  // ----- what a safe history is -----

  /** The stop instant that governs the steps of one direction. */
  function Instant(record: Option<Record>, dir: Direction): Option<int> {
    if record.None? then None
    else if dir.Forward? then record.value.stoppedAt
    else record.value.rollbackStoppedAt
  }

  predicate SafeEvent(e: Event, record: Option<Record>) {
    match e
    case CopyIssued(dir, at, stop, running) =>
      running == {} && OnTime(at, stop) && Instant(record, dir) == Some(stop)
    case ExchangeIssued(dir, _, stop, running) =>
      running == {} && Instant(record, dir) == Some(stop)
    case FastRollbackIssued(at, stop, running) =>
      running == {} && OnTime(at, stop) && Instant(record, Forward) == Some(stop)
    case StartBegun(release, at, stop, head, running) =>
      && head == HeadOf(release)
      && running <= {release}
      && InWindow(at, stop)
      && (Instant(record, Forward) == Some(stop) || (release.Old? && Instant(record, Reverse) == Some(stop)))
  }

  /** Steps that could put earlier rows back under a service that has been started since. */
  predicate CouldDiscard(e: Event) {
    || e.FastRollbackIssued?
    || (e.CopyIssued? && e.dir.Forward?)
    || (e.ExchangeIssued? && e.dir.Forward?)
  }

  ghost predicate SafeTrace(trace: seq<Event>, record: Option<Record>) {
    && (forall i :: 0 <= i < |trace| ==> SafeEvent(trace[i], record))
    && (forall i, j :: 0 <= i < j < |trace| && trace[i].StartBegun? ==> !CouldDiscard(trace[j]))
  }

  ghost predicate Started(trace: seq<Event>, release: Release) {
    exists i :: 0 <= i < |trace| && trace[i].StartBegun? && trace[i].release == release
  }

  predicate RuntimeStarted(w: World) {
    w.record.Some? && w.record.value.runtimeStarted
  }

  predicate ForwardAborted(w: World) {
    w.record.Some? && w.record.value.forwardAborted
  }

  /** One of the two runtimes has been set in motion: the forward exchange is decided. */
  predicate Decided(w: World) {
    RuntimeStarted(w) || ForwardAborted(w)
  }

  // ----- what an interruption leaves behind -----

  /** An undecided journal can be gone on with: it fits what is live, nothing runs between its copy and its end,
      and its stop instant is the recorded one. */
  predicate Resumable(j: Journal, w: World) {
    && Holds(j, w.live)
    && (Frozen(j) ==> w.running == {})
    && (j.stoppedAt.Some? ==> j.stoppedAt == Instant(w.record, j.dir))
  }

  /** A prepared exchange that has not been undone. */
  predicate Convertible(phase: Phase) {
    phase in {Prepared, CopyPending, Copied, Verified, SwitchPending, Switched}
  }

  predicate BackedUp(w: World) {
    w.record.Some? && w.record.value.stoppedBackup.Some?
  }

  /** Every command can be taken up again from here: before the decision the forward journal can go on or back,
      after a start of the new runtime the exchange is complete and the reverse journal can go on. */
  predicate Fitting(w: World) {
    && (!Decided(w) ==>
          && (w.forward.Some? ==> Resumable(w.forward.value, w) && (Frozen(w.forward.value) ==> BackedUp(w)))
          && (w.live.head == H40 ==> w.forward.Some? && w.forward.value.phase in {SwitchPending, Switched, RollbackPending})
          && (BackedUp(w) ==> w.running == {} && w.record.value.stoppedBackup == Some(w.live.rows)))
    && (RuntimeStarted(w) ==>
          && w.forward.Some? && w.forward.value.phase == Switched
          && (w.reverse.None? ==> w.live.head == H40)
          && (w.reverse.Some? ==> if w.reverse.value.phase == Switched then w.live.head == H38 else Resumable(w.reverse.value, w))
          && (w.reverse.Some? ==> w.reverse.value.stoppedAt in {None, Instant(w.record, Reverse)} && w.reverse.value.phase !in {RollbackPending, RolledBack}))
    && (!RuntimeStarted(w) ==> w.reverse.None?)
    && (Decided(w) ==> w.record.value.stoppedAt.Some?)
  }

  /** The invariant of every reachable world, also in the middle of a command and after a crash. */
  ghost predicate Inv(w: World) {
    && w.live.rows == w.accepted
    && (forall r :: r in w.running ==> w.live.head == HeadOf(r))
    && (New in w.running || Started(w.trace, New) || w.current.New? ==> RuntimeStarted(w))
    && (Started(w.trace, Old) ==> Decided(w))
    && (ForwardAborted(w) ==> !RuntimeStarted(w) && w.live.head == H38)
    && (w.forward.Some? ==> w.forward.value.dir.Forward? && Sound(w.forward.value))
    && (w.reverse.Some? ==> w.reverse.value.dir.Reverse? && Sound(w.reverse.value))
    && SafeTrace(w.trace, w.record)
    && Fitting(w)
  }

  // ----- what no step ever undoes -----

  /** A later journal keeps each stop instant once written and each latch once set. */
  predicate KeepsRecord(before: Record, after: Record) {
    && (before.stoppedAt.Some? ==> after.stoppedAt == before.stoppedAt)
    && (before.rollbackStoppedAt.Some? ==> after.rollbackStoppedAt == before.rollbackStoppedAt)
    && (before.stoppedBackup.Some? ==> after.stoppedBackup == before.stoppedBackup)
    && (before.runtimeStarted ==> after.runtimeStarted)
    && (before.forwardAborted ==> after.forwardAborted)
  }

  ghost predicate Keeps(before: World, after: World) {
    && before.now <= after.now
    && (before.record.Some? ==> after.record.Some? && KeepsRecord(before.record.value, after.record.value))
    && (before.forward.Some? ==> after.forward.Some? && Advances(before.forward.value, after.forward.value))
    && (before.reverse.Some? ==> after.reverse.Some? && Advances(before.reverse.value, after.reverse.value))
    && before.accepted <= after.accepted
    && before.trace <= after.trace
  }

  lemma KeepsTransitive(a: World, b: World, c: World)
    requires Keeps(a, b) && Keeps(b, c)
    ensures Keeps(a, c)
  {
  }

  lemma KeepsItself(w: World)
    ensures Keeps(w, w)
  {
  }

  /** A safe history stays safe when the journal only gains facts and the new event is safe. */
  lemma ExtendTrace(trace: seq<Event>, record: Option<Record>, e: Event)
    requires SafeTrace(trace, record) && SafeEvent(e, record)
    requires CouldDiscard(e) ==> !Started(trace, New) && !Started(trace, Old)
    ensures SafeTrace(trace + [e], record)
    ensures forall release ::
              Started(trace + [e], release) <==>
              Started(trace, release) || (e.StartBegun? && e.release == release)
  {
    var longer := trace + [e];
    forall release
      ensures Started(longer, release) <==>
              Started(trace, release) || (e.StartBegun? && e.release == release)
    {
      assert longer[|trace|] == e;
      if Started(trace, release) {
        var i :| 0 <= i < |trace| && trace[i].StartBegun? && trace[i].release == release;
        assert longer[i] == trace[i];
      }
    }
    forall i, j | 0 <= i < j < |longer| && longer[i].StartBegun?
      ensures !CouldDiscard(longer[j])
    {
      assert trace[i].StartBegun? && Started(trace, trace[i].release);
    }
  }

  lemma GrowRecord(trace: seq<Event>, before: Option<Record>, after: Record)
    requires SafeTrace(trace, before)
    requires before.Some? ==> KeepsRecord(before.value, after)
    ensures SafeTrace(trace, Some(after))
  {
    forall i | 0 <= i < |trace| ensures SafeEvent(trace[i], Some(after)) {
      assert SafeEvent(trace[i], before);
    }
  }

  /** Once a start was entered, the journal says so, and the steps that could discard the writes of
      the started runtime are over for good: the main safety statement, read off any reachable world. */
  lemma StartIsFinal(w: World, i: nat)
    requires Inv(w) && i < |w.trace| && w.trace[i].StartBegun?
    ensures Decided(w) && (w.trace[i].release.New? ==> RuntimeStarted(w))
    ensures forall j :: i < j < |w.trace| ==> !CouldDiscard(w.trace[j])
  {
    assert Started(w.trace, w.trace[i].release);
    assert w.trace[i].release in {Old, New};
  }

  /** Where every history begins: the old release serves the old layout and nothing is recorded yet. */
  lemma FreshWorldHolds(w: World)
    requires w.record.None? && w.forward.None? && w.reverse.None? && w.trace == []
    requires w.live.head == H38 && w.live.rows == w.accepted && w.running <= {Old} && w.current.Old?
    ensures Inv(w)
  {
  }

  /** Read off any reachable world: every copy is issued with all releases stopped and inside the copy
      budget of its recorded stop instant; every start is begun inside the window, on the layout the
      release requires, with no other release running. */
  lemma StepsAreInTime(w: World, i: nat)
    requires Inv(w) && i < |w.trace|
    ensures var e := w.trace[i];
            && (e.CopyIssued? ==>
                  e.running == {} && 0 <= e.at - e.stop < COPY_SECONDS && Instant(w.record, e.dir) == Some(e.stop))
            && (e.ExchangeIssued? ==> e.running == {} && Instant(w.record, e.dir) == Some(e.stop))
            && (e.StartBegun? ==>
                  && e.head == HeadOf(e.release) && e.running <= {e.release}
                  && 0 <= e.at - e.stop < WINDOW_SECONDS
                  && Some(e.stop) in {Instant(w.record, Forward), Instant(w.record, Reverse)})
  {
    assert SafeEvent(w.trace[i], w.record);
  }

  /** Time and the writes of running releases leave nothing that could not be taken up. */
  lemma TimeKeepsFitting(w: World, n: World)
    requires Fitting(w) && n == w.(now := n.now, live := n.live, accepted := n.accepted)
    requires n.live.head == w.live.head && (w.running == {} ==> n.live == w.live)
    ensures Fitting(n)
  {
  }

  lemma StopInstantStays(a: World, b: World, stop: int)
    requires Keeps(a, b) && Instant(a.record, Forward) == Some(stop)
    ensures Instant(b.record, Forward) == Some(stop)
  {
  }

  /** After an undisturbed exchange the journal's manifest is the backup that was made with everything stopped. */
  lemma ManifestIsBackup(w: World)
    requires Fitting(w) && !Decided(w) && BackedUp(w) && w.forward.Some? && w.forward.value.phase == Switched
    ensures w.record.value.stoppedBackup == Some(w.forward.value.manifest)
  {
  }

  // ----- the controller -----

  datatype Command = Prepare | Rehearse | SwitchCommand | RollbackCommand

  /** Preparation may run or be repeated until a stop instant is recorded. */
  predicate MayPrepare(w: World) {
    w.record.Some? ==> w.record.value.phase in {PreparingPhase, PreparedPhase} && w.record.value.stoppedAt.None?
  }

  predicate CanSwitch(w: World) {
    && w.record.Some? && w.forward.Some?
    && w.record.value.rehearsed && !w.record.value.runtimeStarted && !w.record.value.forwardAborted
  }

  class Maintenance {
    var world: World
    var state: Option<Record>
    var deadline: Option<int>
    var cleanupAttempts: map<Release, bool>
    /** What the environment has denied this process so far: a step that failed, a budget that had run out, a
        fence that found connections. */
    ghost var faults: nat
    /** The count at the moment when the guarded part of a switch raised. */
    ghost var caught: Option<nat>

    /** A new process finds only the durable facts (Maintenance.__init__). */
    constructor (world: World)
      ensures this.world == world && state == world.record && deadline == None && cleanupAttempts == map[]
      ensures faults == 0 && caught == None
    {
      this.world := world;
      state := world.record;
      deadline := None;
      cleanupAttempts := map[];
      faults, caught := 0, None;
    }

    /** A step of the environment. */
    method Try() returns (r: Outcome<()>)
      modifies this`faults
      ensures faults == old(faults) + if r.Done? then 0 else 1
    {
      r := Fate();
      Deny(!r.Done?);
    }

    ghost method Deny(denied: bool)
      modifies this`faults
      ensures faults == old(faults) + if denied then 1 else 0
    {
      faults := faults + if denied then 1 else 0;
    }

    /** What is left of a budget. */
    method Left(stop: int, seconds: int) returns (r: Outcome<int>)
      modifies this`faults
      ensures r.Done? <==> 0 <= world.now - stop < seconds
      ensures r.Done? ==> 0 < r.value && world.now + r.value == stop + seconds
      ensures !r.Crashed? && faults == old(faults) + if r.Done? then 0 else 1
    {
      r := Remaining(world.now, stop, seconds);
      Deny(!r.Done?);
    }

    /** A release that was drained does not run. */
    predicate Drained()
      reads this
    {
      forall r :: r in cleanupAttempts && cleanupAttempts[r] ==> r !in world.running
    }

    /** What the process remembers is never older than what it saved. */
    predicate Ahead()
      reads this
    {
      && state.Some?
      && (world.record.Some? ==> KeepsRecord(world.record.value, state.value))
      && (state.value.forwardAborted ==> !state.value.runtimeStarted && world.live.head == H38)
      && (state.value.runtimeStarted && !RuntimeStarted(world) ==>
            world.forward.Some? && world.forward.value.phase == Switched && world.live.head == H40)
      && (state.value.runtimeStarted || state.value.forwardAborted ==> state.value.stoppedAt.Some?)
      && (!state.value.runtimeStarted && !state.value.forwardAborted && state.value.stoppedBackup.Some? ==>
            world.running == {} && state.value.stoppedBackup == Some(world.live.rows))
    }

    // ----- the environment -----

    /** Time passes, and running releases commit writes. */
    method Elapse()
      requires Inv(world)
      modifies this`world
      ensures Inv(world) && Keeps(old(world), world)
      ensures world == old(world).(now := world.now, live := world.live, accepted := world.accepted)
      ensures world.live.head == old(world).live.head
      ensures world.running == {} ==> world.live == old(world).live && world.accepted == old(world).accepted
    {
      var seconds: int :| 0 <= seconds;
      var writes: seq<nat> := [];
      if world.running != {} {
        writes := *;
      }
      ghost var before := world;
      world := world.(now := world.now + seconds,
                      live := Live(world.live.head, world.live.rows + writes),
                      accepted := world.accepted + writes);
      TimeKeepsFitting(before, world);
      hide Fitting;
    }

    // ----- durable host journal and clocks -----

    /** Publishes the remembered journal. A failed save may or may not have replaced the file. */
    method Save() returns (r: Outcome<()>)
      requires Inv(world) && Ahead()
      modifies this`world, this`faults
      ensures Inv(world) && Keeps(old(world), world) && Ahead()
      ensures world == old(world).(record := world.record)
      ensures world.record == state || world.record == old(world).record
      ensures r.Done? ==> world.record == state
      ensures faults >= old(faults) && (faults == old(faults) ==> r.Done?)
    {
      r := Try();
      var replaced: bool := *;
      if r.Done? || replaced {
        GrowRecord(world.trace, world.record, state.value);
        world := world.(record := state);
      }
    }

    /** The stop instant of one direction: written once, and only ever read again by a retry. */
    method Clock(dir: Direction) returns (r: Outcome<int>)
      requires Inv(world) && Ahead()
      modifies this`world, this`state, this`faults
      ensures Inv(world) && Keeps(old(world), world) && Ahead()
      ensures world == old(world).(record := world.record)
      ensures state.value.runtimeStarted == old(state).value.runtimeStarted
      ensures state.value.forwardAborted == old(state).value.forwardAborted
      ensures state.value.stoppedBackup == old(state).value.stoppedBackup
      ensures Instant(old(state), dir).Some? ==> state == old(state) && world == old(world)
      ensures faults >= old(faults) && (faults == old(faults) ==> r.Done?)
      ensures r.Done? ==>
                && Instant(state, dir) == Some(r.value)
                && (Instant(old(state), dir).Some? || world.record == state)
                && (Instant(old(state), dir).None? ==> r.value == old(world).now)
    {
      if Instant(state, dir).None? {
        state := Some(if dir.Forward? then state.value.(stoppedAt := Some(world.now))
                      else state.value.(rollbackStoppedAt := Some(world.now)));
        var _ :- Save();
      }
      r := Done(Instant(state, dir).value);
    }

    /** Sets the container deadline: the copy budget, or a one-minute probe once the exchange is recorded. */
    method OperationBudget(stop: int, journal: Option<Journal>) returns (r: Outcome<()>)
      modifies this`deadline, this`faults
      ensures r.Done? ==> deadline.Some? && journal.Some?
      ensures r.Done? ==>
                || (deadline.value == stop + COPY_SECONDS && OnTime(world.now, stop))
                || journal.value.phase in {SwitchPending, Switched}
      ensures !r.Crashed?
      ensures faults >= old(faults) && (faults == old(faults) && journal.Some? ==> r.Done?)
    {
      if journal.None? {
        return Raised;
      }
      var budget := Remaining(world.now, stop, COPY_SECONDS);
      if budget.Raised? && journal.value.phase in {SwitchPending, Switched} {
        budget := Done(PROBE_SECONDS);
      }
      Deny(budget.Raised?);
      var seconds :- budget;
      deadline := Some(world.now + seconds);
      r := Done(());
    }

    // ----- steps on releases (deploy.py under host_budget) -----

    /** Stops a release; success means that no container of it runs. */
    method StopRelease(release: Release, budget: Budget) returns (r: Outcome<()>)
      requires Inv(world)
      modifies this`world, this`faults
      ensures Inv(world) && Keeps(old(world), world)
      ensures world.running in {old(world).running, old(world).running - {release}}
      ensures world == old(world).(now := world.now, live := world.live, accepted := world.accepted, running := world.running)
      ensures world.live.head == old(world).live.head
      ensures old(world).running == {} ==> world.live == old(world).live
      ensures r.Done? ==> release !in world.running
      ensures faults >= old(faults) && (faults == old(faults) ==> r.Done?)
    {
      Elapse();
      if !Allows(budget, world.now) {
        Deny(true);
        return Raised;
      }
      r := Try();
      var stopped: bool := *;
      if r.Done? || stopped {
        world := world.(running := world.running - {release});
      }
    }

    /** The release's own database check against the live head. */
    method Probe(release: Release, budget: Budget) returns (r: Outcome<()>)
      requires Inv(world)
      modifies this`world, this`faults
      ensures Inv(world) && Keeps(old(world), world)
      ensures world == old(world).(now := world.now, live := world.live, accepted := world.accepted)
      ensures world.live.head == old(world).live.head
      ensures old(world).running == {} ==> world.live == old(world).live
      ensures r.Done? ==> world.live.head == HeadOf(release)
      ensures faults >= old(faults) && (faults == old(faults) && world.live.head == HeadOf(release) ==> r.Done?)
    {
      Elapse();
      if !Allows(budget, world.now) {
        Deny(true);
        return Raised;
      }
      if world.live.head != HeadOf(release) {
        return Raised;
      }
      r := Try();
    }

    /** Brings the release up and probes it. From the first subprocess on, its writers may run,
        whatever the outcome. */
    method StartRelease(release: Release, stop: int) returns (r: Outcome<()>)
      requires Inv(world)
      requires world.live.head == HeadOf(release) && world.running <= {release}
      requires Instant(world.record, Forward) == Some(stop) || (release.Old? && Instant(world.record, Reverse) == Some(stop))
      requires if release.New? then RuntimeStarted(world) else Decided(world)
      requires world.reverse.Some? ==> world.reverse.value.phase == Switched
      modifies this`world, this`faults
      ensures Inv(world) && Keeps(old(world), world)
      ensures world == old(world).(now := world.now, live := world.live, accepted := world.accepted,
                                   running := world.running, trace := world.trace)
      ensures world.live.head == old(world).live.head && world.running <= {release}
      ensures faults >= old(faults) && (faults == old(faults) ==> r.Done?)
      ensures r.Done? ==> world.running == {release}
                          && |world.trace| == |old(world).trace| + 1
                          && world.trace[|old(world).trace|].StartBegun?
                          && world.trace[|old(world).trace|].release == release
    {
      Elapse();
      if !Allows(Window(stop), world.now) {
        Deny(true);
        return Raised;
      }
      var begun := StartBegun(release, world.now, stop, world.live.head, world.running);
      ExtendTrace(world.trace, world.record, begun);
      world := world.(trace := world.trace + [begun], running := {release});
      Elapse();
      r := Try();
    }

    /** One bounded drain per release and process, outside the stop window (stop_failed_release). */
    method StopFailedRelease(release: Release) returns (r: Outcome<()>)
      requires Inv(world) && Drained()
      modifies this`world, this`cleanupAttempts, this`faults
      ensures Inv(world) && Keeps(old(world), world)
      ensures world.running <= old(world).running
      ensures world == old(world).(now := world.now, live := world.live, accepted := world.accepted, running := world.running)
      ensures world.live.head == old(world).live.head
      ensures Drained() && old(cleanupAttempts).Keys + {release} == cleanupAttempts.Keys
      ensures r.Done? ==> cleanupAttempts[release]
      ensures faults >= old(faults) && (faults == old(faults) && release !in old(cleanupAttempts) ==> r.Done?)
      ensures forall x :: x in old(cleanupAttempts) ==> cleanupAttempts[x] == old(cleanupAttempts)[x]
    {
      if release in cleanupAttempts {
        return if cleanupAttempts[release] then Done(()) else Raised;
      }
      cleanupAttempts := cleanupAttempts[release := false];
      var _ :- StopRelease(release, Cleanup(world.now));
      cleanupAttempts := cleanupAttempts[release := true];
      r := Done(());
    }

    // ----- conversion containers (DockerTools.refactor) -----

    /** A container starts only before the deadline set last. */
    predicate BeforeDeadline()
      reads this
    {
      deadline.Some? ==> world.now < deadline.value
    }

    /** The complete live structure as the validation reader reports it; a fence refuses while other
        connections, those of any running release, remain. */
    method Actual(fenced: bool) returns (r: Outcome<Head>)
      requires Inv(world)
      modifies this`world, this`faults
      ensures Inv(world) && Keeps(old(world), world)
      ensures world == old(world).(now := world.now, live := world.live, accepted := world.accepted)
      ensures world.live.head == old(world).live.head
      ensures old(world).running == {} ==> world.live == old(world).live
      ensures r.Done? ==> r.value == world.live.head && (fenced ==> world.running == {})
      ensures faults >= old(faults) && (faults == old(faults) ==> r.Done?)
    {
      Elapse();
      if !BeforeDeadline() || (fenced && world.running != {}) {
        Deny(true);
        return Raised;
      }
      var _ :- Try();
      r := Done(world.live.head);
    }

    /** The exchange in this direction has begun and is not over. */
    predicate Underway(dir: Direction)
      reads this`world
    {
      JournalOf(dir).Some? && if dir.Forward? then !Decided(world) else RuntimeStarted(world)
    }

    function JournalOf(dir: Direction): Option<Journal>
      reads this`world
    {
      if dir.Forward? then world.forward else world.reverse
    }

    method Store(dir: Direction, journal: Journal, live: Live)
      requires Inv(world)
      requires journal.dir == dir && Sound(journal)
      requires JournalOf(dir).Some? ==> Advances(JournalOf(dir).value, journal)
      requires live.rows == world.live.rows
      requires live.head == world.live.head || (world.running == {} && (ForwardAborted(world) ==> live.head == H38))
      requires Fitting(if dir.Forward? then world.(forward := Some(journal), live := live)
                       else world.(reverse := Some(journal), live := live))
      modifies this`world
      ensures Inv(world) && Keeps(old(world), world)
      ensures world == old(world).(live := live, forward := world.forward, reverse := world.reverse)
      ensures JournalOf(dir) == Some(journal)
      ensures dir.Forward? ==> world.reverse == old(world).reverse
      ensures dir.Reverse? ==> world.forward == old(world).forward
    {
      world := if dir.Forward? then world.(forward := Some(journal), live := live)
               else world.(reverse := Some(journal), live := live);
    }

    /** Plans and prepares a journal's destinations; the live schema is not touched. */
    method PlanJournal(dir: Direction) returns (r: Outcome<()>)
      requires Inv(world) && (if dir.Forward? then !Decided(world) else RuntimeStarted(world))
      modifies this`world, this`faults
      ensures Inv(world) && Keeps(old(world), world)
      ensures world == old(world).(now := world.now, live := world.live, accepted := world.accepted,
                                   forward := world.forward, reverse := world.reverse)
      ensures world.live.head == old(world).live.head
      ensures r.Done? ==> Underway(dir) && JournalOf(dir).value.phase !in {Planned, PreparePending}
      ensures old(JournalOf(dir)).None? && r.Done? ==> JournalOf(dir).value.phase == Prepared
      ensures faults >= old(faults) && (faults == old(faults) && (old(JournalOf(dir)).None? ==> world.live.head == SourceHead(dir)) ==> r.Done?)
      ensures old(JournalOf(dir)).Some? && old(JournalOf(dir)).value.phase !in {Planned, PreparePending} ==>
                JournalOf(dir) == old(JournalOf(dir))
    {
      hide Inv;
      ghost var before := world;
      if JournalOf(dir).None? {
        var _ :- WritePlan(dir);
      }
      ghost var planned := world;
      r := FinishPlan(dir);
      KeepsTransitive(before, planned, world);
    }

    method WritePlan(dir: Direction) returns (r: Outcome<()>)
      requires Inv(world) && (if dir.Forward? then !Decided(world) else RuntimeStarted(world)) && JournalOf(dir).None?
      modifies this`world, this`faults
      ensures Inv(world) && Keeps(old(world), world)
      ensures world == old(world).(now := world.now, live := world.live, accepted := world.accepted,
                                   forward := world.forward, reverse := world.reverse)
      ensures world.live.head == old(world).live.head && (if dir.Forward? then !Decided(world) else RuntimeStarted(world))
      ensures r.Done? ==> JournalOf(dir).Some? && JournalOf(dir).value.phase == Planned
      ensures faults >= old(faults) && (faults == old(faults) && world.live.head == SourceHead(dir) ==> r.Done?)
    {
      hide SafeTrace;
      Elapse();
      if !BeforeDeadline() {
        Deny(true);
        return Raised;
      }
      var planned, denied := Conversion.Plan(dir, world.live, world.forward.Some? && world.forward.value.phase == Switched);
      Deny(denied);
      var journal :- planned;
      Store(dir, journal, world.live);
      r := Done(());
    }

    method FinishPlan(dir: Direction) returns (r: Outcome<()>)
      requires Inv(world) && Underway(dir)
      modifies this`world, this`faults
      ensures Inv(world) && Keeps(old(world), world)
      ensures world == old(world).(now := world.now, live := world.live, accepted := world.accepted,
                                   forward := world.forward, reverse := world.reverse)
      ensures world.live.head == old(world).live.head && Underway(dir)
      ensures r.Done? ==> JournalOf(dir).value.phase !in {Planned, PreparePending}
      ensures old(JournalOf(dir)).value.phase in {Planned, PreparePending} && r.Done? ==> JournalOf(dir).value.phase == Prepared
      ensures faults >= old(faults) && (faults == old(faults) ==> r.Done?)
      ensures old(JournalOf(dir)).value.phase !in {Planned, PreparePending} ==> world == old(world)
    {
      hide SafeTrace;
      if JournalOf(dir).value.phase !in {Planned, PreparePending} {
        return Done(());
      }
      Elapse();
      if !BeforeDeadline() {
        Deny(true);
        return Raised;
      }
      var journal;
      ghost var denied;
      journal, r, denied := Conversion.Prepare(JournalOf(dir).value, world.live);
      Deny(denied);
      Store(dir, journal, world.live);
    }

    method IssueCopy(dir: Direction, stop: int) returns (r: Outcome<()>)
      requires Inv(world) && world.running == {} && Underway(dir)
      requires deadline == Some(stop + COPY_SECONDS) && stop <= world.now
      requires Instant(world.record, dir) == Some(stop)
      requires JournalOf(dir).value.phase in {Prepared, CopyPending, Copied} && (dir.Forward? ==> BackedUp(world))
      modifies this`world, this`faults
      ensures Inv(world) && Keeps(old(world), world) && JournalOf(dir).Some?
      ensures world == old(world).(now := world.now, forward := world.forward, reverse := world.reverse, trace := world.trace)
      ensures Underway(dir) && world.live == old(world).live
      ensures r.Done? ==> JournalOf(dir).value.phase == Copied
      ensures faults >= old(faults) && (faults == old(faults) ==> r.Done?)
    {
      Elapse();
      if !BeforeDeadline() {
        Deny(true);
        return Raised;
      }
      var issued := CopyIssued(dir, world.now, stop, world.running);
      ExtendTrace(world.trace, world.record, issued);
      world := world.(trace := world.trace + [issued]);
      var journal;
      ghost var denied;
      journal, r, denied := Conversion.Copy(JournalOf(dir).value, world.live, stop, world.now);
      Deny(denied);
      Store(dir, journal, world.live);
      Elapse();
    }

    method IssueVerify(dir: Direction) returns (r: Outcome<()>)
      requires Inv(world) && world.running == {} && Underway(dir) && JournalOf(dir).value.phase == Copied
      modifies this`world, this`faults
      ensures Inv(world) && Keeps(old(world), world) && JournalOf(dir).Some?
      ensures world == old(world).(now := world.now, live := world.live, accepted := world.accepted,
                                   forward := world.forward, reverse := world.reverse)
      ensures world.live == old(world).live && world.accepted == old(world).accepted && Underway(dir)
      ensures r.Done? ==> JournalOf(dir).value.phase == Verified
      ensures faults >= old(faults) && (faults == old(faults) ==> r.Done?)
    {
      Elapse();
      if !BeforeDeadline() {
        Deny(true);
        return Raised;
      }
      var journal;
      ghost var denied;
      journal, r, denied := Conversion.Verify(JournalOf(dir).value, world.live, world.now);
      Deny(denied);
      Store(dir, journal, world.live);
    }

    method IssueSwitch(dir: Direction, stop: int) returns (r: Outcome<()>)
      requires Inv(world) && world.running == {} && Underway(dir)
      requires Instant(world.record, dir) == Some(stop)
      requires JournalOf(dir).value.phase in {Verified, SwitchPending, Switched}
      modifies this`world, this`faults
      ensures Inv(world) && Keeps(old(world), world) && JournalOf(dir).Some?
      ensures world == old(world).(now := world.now, live := world.live, forward := world.forward,
                                   reverse := world.reverse, trace := world.trace)
      ensures world.live.rows == old(world).live.rows
      ensures Underway(dir)
      ensures faults >= old(faults) && (faults == old(faults) ==> r.Done?)
      ensures r.Done? ==> world.live.head == TargetHead(dir) && JournalOf(dir).value.phase == Switched
    {
      Elapse();
      if !BeforeDeadline() {
        Deny(true);
        return Raised;
      }
      var issued := ExchangeIssued(dir, world.now, stop, world.running);
      ExtendTrace(world.trace, world.record, issued);
      world := world.(trace := world.trace + [issued]);
      var journal, live;
      ghost var denied;
      journal, live, r, denied := Conversion.Switch(JournalOf(dir).value, world.live, world.now);
      Deny(denied);
      Store(dir, journal, live);
      Elapse();
    }

    method IssueFastRollback(stop: int) returns (r: Outcome<()>)
      requires Inv(world) && world.running == {} && world.forward.Some? && world.live.head == H40
      requires deadline == Some(stop + COPY_SECONDS) && stop <= world.now
      requires Instant(world.record, Forward) == Some(stop) && !Decided(world)
      modifies this`world, this`faults
      ensures Inv(world) && Keeps(old(world), world) && world.forward.Some?
      ensures world == old(world).(now := world.now, live := world.live, forward := world.forward, trace := world.trace)
      ensures world.live.rows == old(world).live.rows && world.running == {}
      ensures r.Done? ==> world.forward.value.phase == RolledBack && world.live.head == H38
      ensures faults >= old(faults) && (faults == old(faults) ==> r.Done?)
    {
      Elapse();
      if !BeforeDeadline() {
        Deny(true);
        return Raised;
      }
      var issued := FastRollbackIssued(world.now, stop, world.running);
      ExtendTrace(world.trace, world.record, issued);
      world := world.(trace := world.trace + [issued]);
      var journal, live;
      ghost var denied;
      journal, live, r, denied := Conversion.FastRollback(world.forward.value, world.live, stop, world.now);
      Deny(denied);
      Store(Forward, journal, live);
      Elapse();
    }

    // ----- controller steps -----

    /** Drives a journal to `switched` from whatever phase an earlier attempt left. */
    method Exchange(dir: Direction, stop: int) returns (r: Outcome<()>)
      requires Inv(world) && world.running == {} && Underway(dir)
      requires Instant(world.record, dir) == Some(stop)
      requires dir.Forward? ==> BackedUp(world)
      requires || (deadline == Some(stop + COPY_SECONDS) && stop <= world.now)
               || JournalOf(dir).value.phase in {SwitchPending, Switched}
      modifies this`world, this`faults
      ensures Inv(world) && Keeps(old(world), world) && JournalOf(dir).Some?
      ensures world == old(world).(now := world.now, live := world.live, forward := world.forward,
                                   reverse := world.reverse, trace := world.trace)
      ensures Underway(dir) && world.live.rows == old(world).live.rows
      ensures faults >= old(faults) && (faults == old(faults) && old(JournalOf(dir)).value.phase !in {Planned, PreparePending, RollbackPending, RolledBack} ==> r.Done?)
      ensures r.Done? ==> world.live.head == TargetHead(dir) && JournalOf(dir).value.phase == Switched
    {
      hide SafeTrace, Sound;
      var started := JournalOf(dir).value;
      if started.stoppedAt.Some? && started.stoppedAt.value != stop {
        return Raised;
      }
      if started.phase in {Prepared, CopyPending, Copied} {
        var _ :- IssueCopy(dir, stop);
      }
      if JournalOf(dir).value.phase == Copied {
        var _ :- IssueVerify(dir);
      }
      if JournalOf(dir).value.phase in {Verified, SwitchPending, Switched} {
        r := IssueSwitch(dir, stop);
        return;
      }
      r := Raised;
    }

    /** Records the verified release and, for a hand-over, moves state.json to it (record_ready). */
    method RecordReady(release: Release, handOver: bool) returns (r: Outcome<()>)
      requires Inv(world) && (release.New? ==> RuntimeStarted(world))
      modifies this`world, this`faults
      ensures Inv(world) && Keeps(old(world), world)
      ensures world == old(world).(current := world.current)
      ensures world.current == old(world).current || (handOver && world.current == release)
      ensures r.Done? && handOver ==> world.current == release
      ensures faults >= old(faults) && (faults == old(faults) && world.live.head == HeadOf(release) ==> r.Done?)
    {
      if world.live.head != HeadOf(release) {
        return Raised;
      }
      var _ :- Try();
      if handOver {
        r := Try();
        var written: bool := *;
        if r.Done? || written {
          world := world.(current := release);
        }
      } else {
        r := Done(());
      }
    }

    /** Writes down, before anything is started, that the release's writers may run. */
    method AnnounceStart(release: Release, stop: int, starting: HostPhase) returns (r: Outcome<()>)
      requires Inv(world) && Ahead()
      requires if release.New? then !state.value.forwardAborted else state.value.runtimeStarted || state.value.forwardAborted
      requires release.New? ==> state.value.stoppedAt.Some?
      requires release.New? ==> world.forward.Some? && world.forward.value.phase == Switched && world.live.head == H40
      modifies this`world, this`state, this`faults
      ensures Inv(world) && Keeps(old(world), world) && Ahead()
      ensures world == old(world).(record := world.record)
      ensures KeepsRecord(old(state).value, state.value)
      ensures faults >= old(faults) && (faults == old(faults) ==> r.Done?)
      ensures state.value.forwardAborted == old(state).value.forwardAborted
      ensures release.Old? ==> state.value.runtimeStarted == old(state).value.runtimeStarted
      ensures r.Done? ==>
                && world.record == state && InWindow(world.now, stop)
                && (release.New? ==> state.value.runtimeStarted)
                && (release.Old? ==> state.value.oldRuntimeStarted)
    {
      hide Inv;
      var _ :- Left(stop, WINDOW_SECONDS);
      var _ :- Try();
      state := Some(if release.New? then state.value.(runtimeStarted := true, phase := starting)
                    else state.value.(oldRuntimeStarted := true, phase := starting));
      r := Save();
    }

    /** Starts a release only after the journal says that its writers may run. */
    method StartVerified(release: Release, handOver: bool, stop: int, starting: HostPhase, done: HostPhase)
      returns (r: Outcome<()>)
      requires Inv(world) && Ahead()
      requires if release.New? then !state.value.forwardAborted else state.value.runtimeStarted || state.value.forwardAborted
      requires world.live.head == HeadOf(release) && world.running <= {release}
      requires Instant(world.record, Forward) == Some(stop) || (release.Old? && Instant(world.record, Reverse) == Some(stop))
      requires release.New? ==> state.value.stoppedAt.Some?
      requires release.New? ==> world.forward.Some? && world.forward.value.phase == Switched
      requires world.reverse.Some? ==> world.reverse.value.phase == Switched
      requires Drained() && release !in cleanupAttempts
      modifies this`world, this`state, this`cleanupAttempts, this`faults
      ensures Inv(world) && Keeps(old(world), world) && Ahead()
      ensures KeepsRecord(old(state).value, state.value)
      ensures faults >= old(faults) && (faults == old(faults) ==> r.Done?)
      ensures Drained() && old(cleanupAttempts).Keys <= cleanupAttempts.Keys <= old(cleanupAttempts).Keys + {release}
      ensures state.value.forwardAborted == old(state).value.forwardAborted
      ensures release.Old? ==> state.value.runtimeStarted == old(state).value.runtimeStarted
      ensures world.live.head == HeadOf(release)
      ensures world.running <= {release}
      ensures r.Done? ==>
                && state.value.phase == done && world.record == state
                && world.running == {release}
                && (handOver ==> world.current == release)
                && (release.New? ==> state.value.runtimeStarted)
                && world.forward == old(world).forward && world.reverse == old(world).reverse
    {
      hide Inv, Keeps;
      ghost var before := world;
      var _ :- AnnounceStart(release, stop, starting);
      ghost var announced := world;
      r := StartAnnounced(release, handOver, stop, done);
      KeepsTransitive(before, announced, world);
    }

    /** The rest, once the journal says that the release's writers may run. */
    method StartAnnounced(release: Release, handOver: bool, stop: int, done: HostPhase) returns (r: Outcome<()>)
      requires Inv(world) && Ahead() && world.record == state
      requires if release.New? then state.value.runtimeStarted else state.value.runtimeStarted || state.value.forwardAborted
      requires world.live.head == HeadOf(release) && world.running <= {release}
      requires Instant(world.record, Forward) == Some(stop) || (release.Old? && Instant(world.record, Reverse) == Some(stop))
      requires world.reverse.Some? ==> world.reverse.value.phase == Switched
      requires Drained() && release !in cleanupAttempts
      modifies this`world, this`state, this`cleanupAttempts, this`faults
      ensures Inv(world) && Keeps(old(world), world) && Ahead()
      ensures state.Some? && state.value == old(state).value.(phase := state.value.phase)
      ensures world.live.head == HeadOf(release) && world.running <= {release}
      ensures world.forward == old(world).forward && world.reverse == old(world).reverse
      ensures faults >= old(faults) && (faults == old(faults) ==> r.Done?)
      ensures Drained() && old(cleanupAttempts).Keys <= cleanupAttempts.Keys <= old(cleanupAttempts).Keys + {release}
      ensures r.Raised? ==> release in cleanupAttempts || state.value.phase == done
      ensures r.Done? ==>
                && state.value.phase == done && world.record == state
                && world.running == {release} && (handOver ==> world.current == release)
    {
      hide Inv, Keeps;
      ghost var before := world;
      var _ :- VerifyOrStop(release, handOver, stop);
      ghost var started := world;
      state := Some(state.value.(phase := done));
      r := Save();
      KeepsTransitive(before, started, world);
    }

    /** A start that fails is drained before the failure is passed on. */
    method VerifyOrStop(release: Release, handOver: bool, stop: int) returns (r: Outcome<()>)
      requires Inv(world) && Drained() && release !in cleanupAttempts
      requires world.reverse.Some? ==> world.reverse.value.phase == Switched
      requires world.live.head == HeadOf(release) && world.running <= {release}
      requires Instant(world.record, Forward) == Some(stop) || (release.Old? && Instant(world.record, Reverse) == Some(stop))
      requires if release.New? then RuntimeStarted(world) else Decided(world)
      modifies this`world, this`cleanupAttempts, this`faults
      ensures Inv(world) && Keeps(old(world), world)
      ensures world == old(world).(now := world.now, live := world.live, accepted := world.accepted,
                                   running := world.running, trace := world.trace, current := world.current)
      ensures world.live.head == old(world).live.head && world.running <= {release}
      ensures faults >= old(faults) && (faults == old(faults) ==> r.Done?)
      ensures Drained() && old(cleanupAttempts).Keys <= cleanupAttempts.Keys <= old(cleanupAttempts).Keys + {release}
      ensures r.Raised? ==> release in cleanupAttempts
      ensures r.Done? ==> world.running == {release} && (handOver ==> world.current == release)
    {
      hide Inv;
      r := VerifyAndRecord(release, handOver, stop);
      if r.Raised? {
        r := StopFailedRelease(release);
        r := if r.Crashed? then Crashed else Raised;
      }
    }

    method VerifyAndRecord(release: Release, handOver: bool, stop: int) returns (r: Outcome<()>)
      requires Inv(world)
      requires world.reverse.Some? ==> world.reverse.value.phase == Switched
      requires world.live.head == HeadOf(release) && world.running <= {release}
      requires Instant(world.record, Forward) == Some(stop) || (release.Old? && Instant(world.record, Reverse) == Some(stop))
      requires if release.New? then RuntimeStarted(world) else Decided(world)
      modifies this`world, this`faults
      ensures Inv(world) && Keeps(old(world), world)
      ensures world == old(world).(now := world.now, live := world.live, accepted := world.accepted,
                                   running := world.running, trace := world.trace, current := world.current)
      ensures world.live.head == old(world).live.head && world.running <= {release}
      ensures faults >= old(faults) && (faults == old(faults) ==> r.Done?)
      ensures r.Done? ==> world.running == {release} && (handOver ==> world.current == release)
    {
      var _ :- StartRelease(release, stop);
      var _ :- Left(stop, WINDOW_SECONDS);
      r := RecordReady(release, handOver);
    }

    /** Leaves the old layout live, by the fast rollback if the exchange had already happened. */
    method UndoExchange(stop: int) returns (r: Outcome<()>)
      requires Inv(world) && Ahead() && !state.value.runtimeStarted
      requires Instant(world.record, Forward) == Some(stop)
      modifies this`world, this`deadline, this`faults
      ensures Inv(world) && Keeps(old(world), world) && Ahead()
      ensures world == old(world).(now := world.now, live := world.live, accepted := world.accepted,
                                   forward := world.forward, trace := world.trace)
      ensures world.running <= {Old}
      ensures r.Done? ==> world.live.head == H38 && world.running == {}
      ensures faults >= old(faults) && (faults == old(faults) ==> r.Done?)
    {
      hide SafeTrace, Sound;
      assert New !in world.running;
      var left :- Left(stop, WINDOW_SECONDS);
      deadline := Some(world.now + left);
      var head :- Actual(true);
      if head == H38 {
        return Done(());
      }
      left :- Left(stop, COPY_SECONDS);
      deadline := Some(world.now + left);
      if world.forward.None? {
        return Raised;
      }
      var _ :- IssueFastRollback(stop);
      head :- Actual(true);
      r := if world.forward.value.phase == RolledBack && head == H38 then Done(()) else Raised;
    }

    /** Puts the old runtime back, undoing a completed exchange only if the new one never started. */
    method RecoverOld(stop: int) returns (r: Outcome<()>)
      requires Inv(world) && Ahead() && !state.value.runtimeStarted
      requires Instant(world.record, Forward) == Some(stop) && Instant(state, Forward) == Some(stop)
      requires Drained() && Old !in cleanupAttempts
      modifies this
      ensures Inv(world) && Keeps(old(world), world) && Ahead()
      ensures Drained() && cleanupAttempts.Keys <= old(cleanupAttempts).Keys + {Old} && caught == old(caught)
      ensures faults >= old(faults) && (faults == old(faults) ==> r.Done?)
      ensures !state.value.runtimeStarted
      ensures r.Done? ==>
                && world.live.head == H38 && world.running == {Old}
                && world.record == state && state.value.phase == RecoveredPhase && state.value.forwardAborted
    {
      assert world.reverse.None?;
      hide Inv;
      var _ :- UndoExchange(stop);
      var _ :- Probe(Old, Window(stop));
      state := Some(state.value.(forwardAborted := true));
      var _ :- Save();
      r := StartVerified(Old, false, stop, RecoveredStarting, RecoveredPhase);
    }

    /** Backs the stopped source up once; a retry keeps the first receipt. */
    method BackUpStopped(stop: int) returns (r: Outcome<()>)
      requires Inv(world) && Ahead() && world.running == {} && world.record == state && world.forward.Some?
      modifies this`world, this`state, this`faults
      ensures Inv(world) && Keeps(old(world), world) && Ahead()
      ensures world == old(world).(now := world.now, live := world.live, accepted := world.accepted, record := world.record)
      ensures world.live.head == old(world).live.head
      ensures KeepsRecord(old(state).value, state.value)
      ensures state.value.runtimeStarted == old(state).value.runtimeStarted
      ensures state.value.forwardAborted == old(state).value.forwardAborted
      ensures world.live == old(world).live
      ensures r.Done? ==> state.value.stoppedBackup.Some? && world.record == state
      ensures faults >= old(faults) && (faults == old(faults) && Convertible(world.forward.value.phase) && !state.value.runtimeStarted && !state.value.forwardAborted ==> r.Done?)
    {
      assert Convertible(world.forward.value.phase) && !Decided(world) && !BackedUp(world) ==> world.live.head == H38;
      hide Inv;
      if state.value.stoppedBackup.Some? {
        return Done(());
      }
      var _ :- Left(stop, COPY_SECONDS);
      Elapse();
      if !BeforeDeadline() {
        Deny(true);
        return Raised;
      }
      if world.live.head != H38 {
        return Raised;
      }
      var _ :- Try();
      state := Some(state.value.(stoppedBackup := Some(world.live.rows)));
      r := Save();
    }

    /** The guarded part of the forward switch; how it raised is remembered for its handler. */
    method GuardedSwitch(stop: int) returns (r: Outcome<()>)
      requires Inv(world) && Ahead() && !state.value.runtimeStarted && !state.value.forwardAborted
      requires Instant(world.record, Forward) == Some(stop) && world.record == state && world.forward.Some?
      requires cleanupAttempts == map[] && caught.None?
      modifies this
      ensures Inv(world) && Keeps(old(world), world) && Ahead()
      ensures KeepsRecord(old(state).value, state.value) && !state.value.forwardAborted
      ensures Drained() && cleanupAttempts.Keys <= {New}
      ensures (r.Raised? <==> caught.Some?) && (caught.Some? ==> caught.value == faults)
      ensures faults >= old(faults) && (faults == old(faults) && Convertible(old(world).forward.value.phase) ==> r.Done?)
      ensures r.Done? ==>
                && world.live.head == H40 && world.running == {New} && world.current == New
                && world.record == state && state.value.phase == SwitchedPhase && state.value.runtimeStarted
                && world.forward.Some? && world.forward.value.phase == Switched
    {
      hide Inv, Keeps;
      r := AttemptSwitch(stop);
      caught := if r.Raised? then Some(faults) else None;
    }

    /** Everything from stopping the old release on. */
    method AttemptSwitch(stop: int) returns (r: Outcome<()>)
      requires Inv(world) && Ahead() && !state.value.runtimeStarted && !state.value.forwardAborted
      requires Instant(world.record, Forward) == Some(stop) && world.record == state && world.forward.Some?
      requires cleanupAttempts == map[]
      modifies this
      ensures Inv(world) && Keeps(old(world), world) && Ahead()
      ensures KeepsRecord(old(state).value, state.value) && !state.value.forwardAborted
      ensures Drained() && cleanupAttempts.Keys <= {New} && caught == old(caught)
      ensures faults >= old(faults) && (faults == old(faults) && Convertible(old(world).forward.value.phase) ==> r.Done?)
      ensures r.Done? ==>
                && world.live.head == H40 && world.running == {New} && world.current == New
                && world.record == state && state.value.phase == SwitchedPhase && state.value.runtimeStarted
                && world.forward.Some? && world.forward.value.phase == Switched
    {
      hide Inv, Keeps;
      ghost var before := world;
      var _ :- ConvertForward(stop);
      ghost var converted := world;
      r := StartNew(stop);
      KeepsTransitive(before, converted, world);
    }

    method ConvertForward(stop: int) returns (r: Outcome<()>)
      requires Inv(world) && Ahead() && !state.value.runtimeStarted && !state.value.forwardAborted
      requires Instant(world.record, Forward) == Some(stop) && world.record == state && world.forward.Some?
      modifies this`world, this`state, this`deadline, this`faults
      ensures Inv(world) && Keeps(old(world), world) && Ahead()
      ensures KeepsRecord(old(state).value, state.value) && !state.value.forwardAborted && !state.value.runtimeStarted
      ensures world.running <= old(world).running
      ensures faults >= old(faults) && (faults == old(faults) && Convertible(old(world).forward.value.phase) ==> r.Done?)
      ensures r.Done? ==>
                && world.live.head == H40 && world.running == {} && world.forward.Some? && world.forward.value.phase == Switched
                && world.reverse.None? && Instant(world.record, Forward) == Some(stop)
    {
      hide SafeTrace, Sound, Keeps;
      ghost var before := world;
      var _ :- StopRelease(Old, Window(stop));
      assert world.running == {};
      ghost var stopped := world;
      r := ExchangeStopped(stop);
      KeepsTransitive(before, stopped, world);
    }

    /** Backup, conversion and exchange with everything stopped. */
    method ExchangeStopped(stop: int) returns (r: Outcome<()>)
      requires Inv(world) && Ahead() && !state.value.runtimeStarted && !state.value.forwardAborted && world.running == {}
      requires Instant(world.record, Forward) == Some(stop) && world.record == state && world.forward.Some?
      modifies this`world, this`state, this`deadline, this`faults
      ensures Inv(world) && Keeps(old(world), world) && Ahead() && world.running == {}
      ensures KeepsRecord(old(state).value, state.value) && !state.value.forwardAborted && !state.value.runtimeStarted
      ensures faults >= old(faults) && (faults == old(faults) && Convertible(old(world).forward.value.phase) ==> r.Done?)
      ensures r.Done? ==>
                && world.live.head == H40 && world.forward.Some? && world.forward.value.phase == Switched
                && world.reverse.None? && Instant(world.record, Forward) == Some(stop)
    {
      hide SafeTrace, Sound, Holds;
      var _ :- BackUpStopped(stop);
      var _ :- OperationBudget(stop, world.forward);
      var _ :- Exchange(Forward, stop);
      ManifestIsBackup(world);
      if world.forward.value.manifest != state.value.stoppedBackup.value {
        return Raised;
      }
      r := Done(());
    }

    method StartNew(stop: int) returns (r: Outcome<()>)
      requires Inv(world) && Ahead() && !state.value.runtimeStarted && !state.value.forwardAborted
      requires world.live.head == H40 && world.running == {} && world.forward.Some? && world.forward.value.phase == Switched
      requires world.reverse.None? && Instant(world.record, Forward) == Some(stop) && cleanupAttempts == map[]
      modifies this
      ensures Inv(world) && Keeps(old(world), world) && Ahead()
      ensures KeepsRecord(old(state).value, state.value) && !state.value.forwardAborted
      ensures Drained() && cleanupAttempts.Keys <= {New} && caught == old(caught)
      ensures faults >= old(faults) && (faults == old(faults) ==> r.Done?)
      ensures r.Done? ==>
                && world.live.head == H40 && world.running == {New} && world.current == New
                && world.record == state && state.value.phase == SwitchedPhase && state.value.runtimeStarted
                && world.forward == old(world).forward
    {
      hide Inv, Keeps;
      ghost var before := world;
      var _ :- Probe(New, Window(stop));
      ghost var probed := world;
      r := StartVerified(New, true, stop, SwitchedStarting, SwitchedPhase);
      KeepsTransitive(before, probed, world);
    }

    /** How the handler of a failed switch leaves things: a started runtime has been drained, once; before that, if
        nothing more was denied, the old runtime serves again and the abort is recorded. */
    ghost predicate Handled()
      reads this
      requires caught.Some? && state.Some?
    {
      && (state.value.runtimeStarted ==> New in cleanupAttempts && (cleanupAttempts[New] ==> New !in world.running))
      && (!state.value.runtimeStarted && faults == caught.value ==>
            && world.live.head == H38 && world.running == {Old} && world.record == state
            && state.value.phase == RecoveredPhase && state.value.forwardAborted)
    }

    /** The forward switch (_switch): never after a start of the new runtime, never after an abort. */
    method Switch() returns (r: Outcome<()>)
      requires Inv(world) && state == world.record && cleanupAttempts == map[] && caught.None?
      modifies this
      ensures Inv(world) && Keeps(old(world), world)
      ensures r.Done? ==>
                && world.live.head == H40 && world.running == {New} && world.current == New
                && RuntimeStarted(world) && world.record.value.phase == SwitchedPhase
                && world.forward.Some? && world.forward.value.phase == Switched
      ensures faults >= old(faults)
      ensures faults == old(faults) && CanSwitch(old(world)) && Convertible(old(world).forward.value.phase) ==> r.Done?
      ensures r.Raised? && caught.Some? ==> state.Some? && Handled()
      ensures r.Raised? && caught.None? && CanSwitch(old(world)) ==>
                faults > old(faults) && world.running == old(world).running && world.trace == old(world).trace
      ensures RuntimeStarted(old(world)) || (old(world).record.Some? && old(world).record.value.forwardAborted) ==>
                !r.Done? && world == old(world)
    {
      KeepsItself(world);
      hide Inv, Keeps, Convertible;
      if !CanSwitch(world) {
        return Raised;
      }
      ghost var before := world;
      var stop :- EnterSwitch();
      ghost var entered := world;
      r := GuardedSwitch(stop);
      KeepsTransitive(before, entered, world);
      if r.Raised? {
        ghost var raised := world;
        StopInstantStays(entered, raised, stop);
        r := AfterFailedSwitch(stop);
        KeepsTransitive(before, raised, world);
      }
    }

    /** The inspections before anything is stopped, and the clock. */
    method EnterSwitch() returns (r: Outcome<int>)
      requires Inv(world) && state == world.record && CanSwitch(world)
      modifies this`world, this`state, this`deadline, this`faults
      ensures Inv(world) && Keeps(old(world), world) && Ahead()
      ensures world == old(world).(now := world.now, live := world.live, accepted := world.accepted, record := world.record)
      ensures faults >= old(faults) && (faults == old(faults) ==> r.Done?)
      ensures r.Done? ==>
                && Instant(world.record, Forward) == Some(r.value) && world.record == state
                && !state.value.runtimeStarted && !state.value.forwardAborted
    {
      hide SafeTrace, Sound;
      var _ :- BoundForSwitch();
      var _ :- Actual(false);
      var _ :- Try();
      r := Clock(Forward);
    }

    /** What the retry of an interrupted switch may spend on its inspections (switch). */
    method BoundForSwitch() returns (r: Outcome<()>)
      requires state.Some?
      modifies this`deadline, this`faults
      ensures !r.Crashed?
      ensures faults >= old(faults) && (faults == old(faults) ==> r.Done?)
    {
      if state.value.stoppedAt.None? {
        return Done(());
      }
      var stop := state.value.stoppedAt.value;
      if world.forward.Some? && world.forward.value.phase in {SwitchPending, Switched} {
        r := OperationBudget(stop, world.forward);
      } else {
        var left := Remaining(world.now, stop, WINDOW_SECONDS);
        deadline := Some(world.now + if left.Done? then left.value else PROBE_SECONDS);
        r := Done(());
      }
    }

    /** The handler of a failed switch: keep writers stopped, or recover the old runtime. */
    method AfterFailedSwitch(stop: int) returns (r: Outcome<()>)
      requires Inv(world) && Ahead() && Drained() && Old !in cleanupAttempts && caught == Some(faults)
      requires !state.value.runtimeStarted ==> !state.value.forwardAborted
      requires Instant(world.record, Forward) == Some(stop) && Instant(state, Forward) == Some(stop)
      modifies this
      ensures Inv(world) && Keeps(old(world), world)
      ensures !r.Done? && caught == old(caught)
      ensures faults >= old(faults) && state.Some? && (r.Raised? ==> Handled())
      ensures old(state).value.runtimeStarted ==>
                && world.running <= old(world).running && world.live.head == old(world).live.head
                && world.record == old(world).record && world.trace == old(world).trace
    {
      hide SafeTrace, Sound;
      if state.value.runtimeStarted {
        r := StopFailedRelease(New);
      } else {
        r := RecoverOld(stop);
      }
      r := if r.Crashed? then Crashed else Raised;
    }

    /** The budget a rollback starts under (rollback). */
    method BoundForRollback() returns (r: Outcome<()>)
      requires state.Some?
      modifies this`deadline, this`faults
      ensures !r.Crashed?
      ensures faults >= old(faults) && (faults == old(faults) ==> r.Done?)
    {
      var stop := if state.value.rollbackStoppedAt.Some? then state.value.rollbackStoppedAt else state.value.stoppedAt;
      if stop.None? || (state.value.rollbackStoppedAt.None? && state.value.runtimeStarted) {
        return Done(());
      }
      if world.reverse.Some? {
        r := OperationBudget(stop.value, world.reverse);
      } else {
        var left := Remaining(world.now, stop.value, WINDOW_SECONDS);
        deadline := Some(world.now + if left.Done? then left.value else PROBE_SECONDS);
        r := Done(());
      }
    }

    /** The inverse (_rollback): the full reverse conversion once the new runtime was started, the
        recovery of the old runtime before that. */
    method Rollback() returns (r: Outcome<()>)
      requires Inv(world) && state == world.record && cleanupAttempts == map[]
      modifies this
      ensures Inv(world) && Keeps(old(world), world)
      ensures faults >= old(faults) && (faults == old(faults) && old(world).record.Some? && old(world).record.value.stoppedAt.Some? ==> r.Done?)
      ensures r.Done? ==>
                && world.live.head == H38 && world.running == {Old}
                && world.record.Some?
                && world.record.value.phase == (if RuntimeStarted(old(world)) then RolledBackPhase else RecoveredPhase)
                && (RuntimeStarted(old(world)) ==> world.current == Old)
    {
      KeepsItself(world);
      hide Inv, Keeps;
      if state.None? || state.value.stoppedAt.None? {
        return Raised;
      }
      ghost var before := world;
      var stop :- EnterRollback();
      ghost var entered := world;
      if !state.value.runtimeStarted {
        r := RecoverOld(stop);
      } else {
        r := ReverseFully(stop);
      }
      KeepsTransitive(before, entered, world);
    }

    /** The inspections, the clock of the rollback, and the stop of both releases. */
    method EnterRollback() returns (r: Outcome<int>)
      requires Inv(world) && state == world.record && state.Some? && state.value.stoppedAt.Some? && cleanupAttempts == map[]
      modifies this`world, this`state, this`deadline, this`faults
      ensures Inv(world) && Keeps(old(world), world) && Drained()
      ensures faults >= old(faults) && (faults == old(faults) ==> r.Done?)
      ensures r.Done? ==>
                && Ahead() && world.running == {}
                && state.value.runtimeStarted == old(state).value.runtimeStarted == RuntimeStarted(world)
                && (var dir := if state.value.runtimeStarted then Reverse else Forward;
                    Instant(world.record, dir) == Some(r.value) && Instant(state, dir) == Some(r.value))
    {
      hide SafeTrace, Sound;
      var _ :- BoundForRollback();
      var _ :- Actual(false);
      var _ :- Try();
      var stop :- Clock(if state.value.runtimeStarted then Reverse else Forward);
      r := StopAll(stop);
    }

    method StopAll(stop: int) returns (r: Outcome<int>)
      requires Inv(world) && Ahead() && cleanupAttempts == map[]
      modifies this`world, this`faults
      ensures Inv(world) && Keeps(old(world), world) && Ahead()
      ensures world == old(world).(now := world.now, live := world.live, accepted := world.accepted, running := world.running)
      ensures faults >= old(faults) && (faults == old(faults) ==> r.Done?)
      ensures r.Done? ==> r.value == stop && world.running == {}
    {
      hide Inv;
      var _ :- StopRelease(New, Window(stop));
      var _ :- StopRelease(Old, Window(stop));
      assert forall x :: x in world.running ==> x == Old || x == New;
      r := Done(stop);
    }

    /** Converts the current rows back and starts the old runtime on them. */
    method ReverseFully(stop: int) returns (r: Outcome<()>)
      requires Inv(world) && Ahead() && world.running == {} && state.value.runtimeStarted && RuntimeStarted(world)
      requires Drained() && Old !in cleanupAttempts
      requires Instant(world.record, Reverse) == Some(stop) && Instant(state, Reverse) == Some(stop)
      modifies this
      ensures Inv(world) && Keeps(old(world), world) && Ahead()
      ensures faults >= old(faults) && (faults == old(faults) ==> r.Done?)
      ensures r.Done? ==>
                && world.live.head == H38 && world.running == {Old} && world.current == Old
                && world.record == state && state.value.phase == RolledBackPhase
    {
      hide Inv, Keeps;
      ghost var before := world;
      var _ :- ConvertBack(stop);
      ghost var converted := world;
      r := Probe(Old, Window(stop));
      ghost var probed := world;
      KeepsTransitive(before, converted, probed);
      if !r.Done? {
        return;
      }
      r := StartVerified(Old, true, stop, RolledBackStarting, RolledBackPhase);
      KeepsTransitive(before, probed, world);
    }

    /** Plans, prepares and carries out the reverse conversion within its budget. */
    method ConvertBack(stop: int) returns (r: Outcome<()>)
      requires Inv(world) && Ahead() && world.running == {} && RuntimeStarted(world)
      requires Instant(world.record, Reverse) == Some(stop)
      modifies this`world, this`deadline, this`faults
      ensures Inv(world) && Keeps(old(world), world) && Ahead() && RuntimeStarted(world)
      ensures world.running == {} && world.record == old(world).record
      ensures faults >= old(faults) && (faults == old(faults) ==> r.Done?)
      ensures r.Done? ==> world.live.head == H38 && world.reverse.Some? && world.reverse.value.phase == Switched
    {
      assert world.reverse.None? ==> world.live.head == H40;
      assert world.reverse.Some? ==> world.reverse.value.phase !in {RollbackPending, RolledBack};
      hide Inv;
      if world.reverse.Some? {
        var _ :- OperationBudget(stop, world.reverse);
      } else {
        var left :- Left(stop, COPY_SECONDS);
        deadline := Some(world.now + left);
      }
      var _ :- PlanJournal(Reverse);
      r := Exchange(Reverse, stop);
    }

    /** Preparation: plans the forward destinations, and never touches a started operation. */
    method PrepareRelease() returns (r: Outcome<()>)
      requires Inv(world) && state == world.record
      modifies this
      ensures Inv(world) && Keeps(old(world), world)
      ensures faults >= old(faults) && (faults == old(faults) && MayPrepare(old(world)) && old(world).live.head == H38 && old(deadline).None? ==> r.Done?)
      ensures r.Done? ==>
                && world.record.Some? && world.record.value.phase == PreparedPhase
                && world.record.value.stoppedAt.None? && world.forward.Some?
      ensures world.running == old(world).running && world.current == old(world).current
      ensures world.live.head == old(world).live.head && world.trace == old(world).trace
      ensures old(world).record.Some? && old(world).record.value.stoppedAt.Some? ==> !r.Done? && world == old(world)
    {
      hide SafeTrace, Sound;
      if !MayPrepare(world) {
        return Raised;
      }
      var head :- Actual(false);
      if head != H38 {
        return Raised;
      }
      var _ :- Try();
      if state.None? {
        state := Some(Record(PreparingPhase, false, None, None, None, false, false, false));
        var _ :- Save();
      }
      var _ :- PlanJournal(Forward);
      state := Some(state.value.(phase := PreparedPhase));
      r := Save();
    }

    /** The rehearsal runs on clones; on success it only records that it passed. */
    method RehearseOnClone() returns (r: Outcome<()>)
      requires Inv(world) && state == world.record
      modifies this
      ensures Inv(world) && Keeps(old(world), world)
      ensures world == old(world).(now := world.now, live := world.live, accepted := world.accepted, record := world.record)
      ensures world.live.head == old(world).live.head
      ensures world.record == old(world).record
              || (old(world).record.Some? && world.record == Some(old(world).record.value.(rehearsed := true)))
      ensures faults >= old(faults) && (faults == old(faults) && old(world).record.Some? && old(world).record.value.phase == PreparedPhase && old(world).live.head == H38 ==> r.Done?)
      ensures r.Done? ==> world.record.Some? && world.record.value.rehearsed
    {
      hide SafeTrace, Sound;
      if state.None? || state.value.phase != PreparedPhase {
        return Raised;
      }
      Elapse();
      if world.live.head != H38 {
        return Raised;
      }
      var _ :- Try();
      state := Some(state.value.(rehearsed := true));
      r := Save();
    }
  }

  /** Any history of commands, each in a new process that may have died at any step of the last one:
      nothing accepted is ever lost, the trace is safe, and no stop instant or latch is ever reset. */
  method RunCommands(commands: seq<Command>, start: World) returns (w: World)
    requires Inv(start)
    ensures Inv(w) && Keeps(start, w)
  {
    w := start;
    for i := 0 to |commands|
      invariant Inv(w) && Keeps(start, w)
    {
      hide SafeTrace, Sound;
      var process := new Maintenance(w);
      process.Elapse();
      match commands[i] {
        case Prepare => var _ := process.PrepareRelease();
        case Rehearse => var _ := process.RehearseOnClone();
        case SwitchCommand => var _ := process.Switch();
        case RollbackCommand => var _ := process.Rollback();
      }
      KeepsTransitive(start, w, process.world);
      w := process.world;
    }
  }
}

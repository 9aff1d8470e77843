/** Operations after the exchange (deploy/serverA/schema_followup.py): hand-over between runtimes of
    the 0040 layout, and the full reverse rollback to the legacy runtime. One durable operation record
    owns the maintenance window; it survives crashes and is resumed, never restarted. */
module SchemaFollowup {
  import opened Outcomes
  import opened Conversion
  import opened StopWindow

  /** An immutable release directory; its image requires exactly one schema head. */
  datatype Release = Release(name: nat, head: Head)

  datatype Kind = Handover | RuntimeRestore | FullRollback

  datatype OperationPhase = Pending | Closed

  /** The record operation-v2.json; `source` and `target` are its two allowed releases. */
  datatype Operation = Operation(
    id: nat,
    kind: Kind,
    phase: OperationPhase,
    stoppedAt: int,
    source: Release,
    target: Release,
    restored: Option<Release>,
    actualHead: Option<Head>)

  datatype HostPhase = Ready | OperationPending | RollbackStarting | RolledBackPhase

  /** The context's host.json: `operation` is the copy of the operation this context last saved. */
  datatype Host = Host(phase: HostPhase, operation: Option<Operation>, rehearsed: bool, oldMayHaveWritten: bool)

  /** `pending` tells a start inside its operation from one that a handler makes after the operation was
      closed; `CloseLost` is a closing write that raised although it had replaced its file. */
  datatype Event =
    | ConversionIssued(op: Operation, command: Command, phase: Phase, at: int, running: set<Release>)
    | StartBegun(op: Operation, release: Release, at: int, head: Head, running: set<Release>,
                 journal: Option<Phase>, published: bool, strays: set<Release>, pending: bool)
    | CloseLost(op: Operation)

  datatype Command = CopyCommand | VerifyCommand | SwitchCommand

  /** Everything outside the process. `log` is every content the operation file ever had, its last
      entry the present one; `pointer` is the release of the active binding. `strays` are releases that a
      handler has started after a lost close, until state.json names them or another start completes. */
  datatype World = World(
    now: int,
    live: Live,
    running: set<Release>,
    journals: map<Release, Journal>,
    host: Host,
    log: seq<Operation>,
    pointer: Release,
    bindings: map<Release, Head>,
    current: Release,
    strays: set<Release>,
    accepted: seq<nat>,
    trace: seq<Event>)

  // ----- the operation record -----

  predicate SameOperation(a: Operation, b: Operation) {
    a.id == b.id && a.kind == b.kind && a.stoppedAt == b.stoppedAt && a.source == b.source && a.target == b.target
  }

  predicate Closes(before: Operation, after: Operation) {
    && before.phase.Pending? && after.phase.Closed?
    && SameOperation(before, after)
    && after.restored in {Some(before.source), Some(before.target)}
    && after.actualHead.Some? && after.restored.value.head == after.actualHead.value
  }

  /** A handler that finds its operation closed on the target brings the source back and closes it again. */
  predicate Recloses(before: Operation, after: Operation) {
    && before.phase.Closed? && after.phase.Closed?
    && SameOperation(before, after) && !before.kind.FullRollback?
    && before.restored == Some(before.target) && after.restored == Some(before.source)
    && after.actualHead == Some(before.source.head)
  }

  predicate Succeeds(before: Operation, after: Operation) {
    Closes(before, after) || Recloses(before, after) || (before.phase.Closed? && after.phase.Pending? && before.id < after.id)
  }

  ghost predicate LegalLog(log: seq<Operation>) {
    && (|log| > 0 ==> log[0].phase.Pending?)
    && forall i :: 0 < i < |log| ==> Succeeds(log[i - 1], log[i])
  }

  predicate HasPending(w: World) {
    |w.log| > 0 && w.log[|w.log| - 1].phase.Pending?
  }

  function LastOperation(w: World): Operation
    requires |w.log| > 0
  {
    w.log[|w.log| - 1]
  }

  /** Identities in a legal history only grow, and a new pending record always has a new one. */
  lemma {:induction false} IdsGrow(log: seq<Operation>, i: nat, j: nat)
    requires LegalLog(log) && i <= j < |log|
    ensures log[i].id <= log[j].id
    ensures log[i].id == log[j].id ==> SameOperation(log[i], log[j])
    ensures i < j && log[j].phase.Pending? ==> log[i].id < log[j].id
    decreases j - i
  {
    if i < j {
      IdsGrow(log, i, j - 1);
      assert Succeeds(log[j - 1], log[j]);
    }
  }

  /** Over every run at most one operation is pending, and a pending one can only be followed by its
      own closing, on one of its two releases. */
  lemma PendingIsExclusive(log: seq<Operation>, i: nat, j: nat)
    requires LegalLog(log) && i < |log| && j < |log| && log[i].id == log[j].id
    ensures SameOperation(log[i], log[j])
    ensures log[i].phase.Pending? && log[j].phase.Pending? ==> i == j
    ensures log[i].phase.Pending? && i + 1 < |log| ==> Closes(log[i], log[i + 1])
  {
    IdsGrow(log, if i <= j then i else j, if i <= j then j else i);
    if i + 1 < |log| {
      assert Succeeds(log[i], log[i + 1]);
    }
  }

  lemma ExtendLog(log: seq<Operation>, next: Operation)
    requires LegalLog(log)
    requires if log == [] then next.phase.Pending? else Succeeds(log[|log| - 1], next)
    ensures LegalLog(log + [next])
  {
    var longer := log + [next];
    forall i | 0 < i < |longer| ensures Succeeds(longer[i - 1], longer[i]) {
      assert longer[i - 1] == log[i - 1];
    }
  }

  /** Who may act while an operation is pending: only a caller presenting that same operation. */
  predicate Idle(w: World, owner: Option<Operation>) {
    HasPending(w) ==> owner.Some? && owner.value.id == LastOperation(w).id
  }

  /** Whether a pending record can be resumed by this context: no saved copy, or a copy of the same one. */
  predicate Resumable(w: World) {
    HasPending(w) && (w.host.operation.Some? ==> SavedMatches(w.host.operation.value, LastOperation(w)))
  }

  predicate SavedMatches(saved: Operation, pending: Operation) {
    saved.id == pending.id && saved.kind == pending.kind && saved.stoppedAt == pending.stoppedAt
  }

  /** A pending operation that no command of this context can resume. */
  predicate Stuck(w: World) {
    HasPending(w) && !Resumable(w)
  }

  /** The first of the two durable writes of a new operation. */
  function RecordOperation(w: World, op: Operation): World {
    w.(log := w.log + [op])
  }

  /** The record that a command writes when nothing is pending. */
  function NewOperation(w: World, kind: Kind, source: Release, target: Release): Operation {
    Operation(if w.log == [] then 0 else LastOperation(w).id + 1, kind, Pending, w.now, source, target, None, None)
  }

  /** The host journal as the same command saves it next. */
  function Claimed(host: Host, op: Operation): Host {
    host.(operation := Some(op), phase := OperationPending)
  }

  /** A crash right after that write leaves an operation that nobody can resume exactly when the
      context had already saved an earlier operation. */
  lemma CrashBetweenWrites(w: World, op: Operation)
    requires !HasPending(w) && op.phase.Pending?
    requires w.host.operation.Some? ==> w.host.operation.value.id != op.id
    ensures Stuck(RecordOperation(w, op)) <==> w.host.operation.Some?
  {
    assert LastOperation(RecordOperation(w, op)) == op;
  }

  // ----- single durable effects, as the methods make them -----

  function SaveHost(w: World, host: Host): World {
    w.(host := host)
  }

  function Publish(w: World, release: Release): World {
    w.(current := release, strays := w.strays - {release})
  }

  function BindTo(w: World, release: Release, head: Head): World {
    w.(bindings := w.bindings[release := head], pointer := release)
  }

  function CloseOn(w: World, closed: Operation): World {
    w.(log := w.log + [closed])
  }

  /** The closing write raises although it has replaced its file. */
  function LoseClose(w: World, closed: Operation): World {
    w.(log := w.log + [closed], trace := w.trace + [CloseLost(closed)])
  }

  function StartOf(w: World, op: Operation, release: Release, pending: bool): Event {
    StartBegun(op, release, w.now, w.live.head, w.running,
               if op.source in w.journals then Some(w.journals[op.source].phase) else None,
               w.current == release, w.strays, pending)
  }

  /** A start is entered: the release may run from here on. */
  function BeginStart(w: World, op: Operation, release: Release): World {
    w.(trace := w.trace + [StartOf(w, op, release, true)], running := w.running + {release})
  }

  /** The same by a handler whose operation is closed already. */
  function BeginRestart(w: World, op: Operation): World {
    w.(trace := w.trace + [StartOf(w, op, op.source, false)], running := w.running + {op.source},
       strays := w.strays + {op.source})
  }

  function StopOne(w: World, release: Release): World {
    w.(running := w.running - {release})
  }

  /** The start is complete: the project's containers are exactly this release's. */
  function SettleOn(w: World, release: Release): World {
    w.(running := {release}, strays := {})
  }

  function ClosedOn(op: Operation, release: Release, head: Head): Operation {
    op.(phase := Closed, restored := Some(release), actualHead := Some(head))
  }

  // ----- the guard -----

  /** The guard of ordinary deployments: idle or owned, and state.json on an allowed release. */
  predicate GuardAdmits(w: World, token: Option<Operation>) {
    && Idle(w, token)
    && (|| w.current == w.pointer
        || (token.Some? && w.log != [] && w.current in {LastOperation(w).source, LastOperation(w).target}))
  }

  /** What every command of the context demands first (bound). */
  predicate Bound(w: World) {
    w.current == w.pointer || (HasPending(w) && w.current in {LastOperation(w).source, LastOperation(w).target})
  }

  /** After a lost close the handler has put state.json back on the source of an operation that is closed on
      its target. */
  predicate Displaced(w: World) {
    && w.log != [] && !HasPending(w) && !LastOperation(w).kind.FullRollback?
    && LastOperation(w).restored == Some(LastOperation(w).target) && w.current == LastOperation(w).source
  }

  /** ... and has not moved the pointer yet: nothing is pending, and nothing is admitted any more. */
  predicate Wedged(w: World) {
    Displaced(w) && w.pointer == LastOperation(w).target && w.pointer != w.current
  }

  // ----- what a safe history is -----

  predicate SafeEvent(e: Event) {
    match e
    case ConversionIssued(op, command, phase, at, running) =>
      && op.kind.FullRollback?
      && running == {}
      && (command.CopyCommand? ==> phase in {Prepared, CopyPending, Copied} && OnTime(at, op.stoppedAt))
      && (command.VerifyCommand? ==> phase in {Copied, Verified})
      && (command.SwitchCommand? ==> phase in {Verified, SwitchPending, Switched})
    case StartBegun(op, release, at, head, running, journal, published, strays, pending) =>
      && release.head == head
      && InWindow(at, op.stoppedAt)
      && (op.kind.FullRollback? ==>
            pending && release == op.target && head == H38 && journal == Some(Switched) && running <= {release})
      && (!op.kind.FullRollback? ==> release in {op.source, op.target} && head == H40)
      && (!op.kind.FullRollback? && pending ==>
            || running <= {release} + strays
            || (release == op.target && published && running <= {op.source, op.target} + strays))
      && (!pending ==> release == op.source && running == {})
    case CloseLost(op) => op.phase.Closed?
  }

  /** A start outside a pending operation. */
  predicate Restarts(e: Event, release: Release) {
    e.StartBegun? && !e.pending && e.release == release
  }

  ghost predicate Restarted(trace: seq<Event>, release: Release) {
    exists i :: 0 <= i < |trace| && Restarts(trace[i], release)
  }

  ghost predicate CloseWasLost(trace: seq<Event>, op: Operation) {
    exists i :: 0 <= i < |trace| && trace[i].CloseLost? && SameOperation(trace[i].op, op)
  }

  /** What must precede an event: a handler starts outside its operation only after that operation's close was
      lost, and only such starts leave strays. */
  ghost predicate Explained(trace: seq<Event>, e: Event) {
    e.StartBegun? ==>
      && (!e.pending ==> CloseWasLost(trace, e.op))
      && (forall r :: r in e.strays ==> Restarted(trace, r))
  }

  ghost predicate SafeTrace(trace: seq<Event>, log: seq<Operation>) {
    forall i :: 0 <= i < |trace| ==> SafeEvent(trace[i]) && trace[i].op in log && Explained(trace[..i], trace[i])
  }

  /** What must hold while an operation is pending. */
  predicate PendingInv(w: World, op: Operation, legacy: Release) {
    && w.current in {op.source, op.target}
    && w.pointer in {op.source, op.target}
    && w.running <= {op.source, op.target} + w.strays
    && op.source.head == H40
    && (op.kind.FullRollback? ==> op.target == legacy)
    && (!op.kind.FullRollback? ==> op.target.head == H40 && w.live.head == H40)
    && (w.live.head == H38 ==>
          && op.source in w.journals
          && w.journals[op.source].phase in {SwitchPending, Switched}
          && (w.journals[op.source].phase == SwitchPending ==> w.running == {}))
  }

  /** What must hold between operations: the last one closed on the release that state.json names, that the
      pointer binds, and whose layout is live; only a lost close leaves less. */
  predicate IdleInv(w: World) {
    && w.running <= {w.current} + w.strays
    && w.current.head == w.live.head
    && w.pointer in w.bindings && w.bindings[w.pointer] == w.live.head
    && (w.pointer == w.current || Wedged(w))
    && (w.log == [] ==> w.live.head == H40)
    && (w.log != [] ==>
          && LastOperation(w).actualHead == Some(w.live.head)
          && (LastOperation(w).restored == Some(w.current) || Displaced(w)))
    && (w.live.head == H38 ==> w.host.phase == RolledBackPhase)
  }

  /** Strays and displacement come from lost closes only. */
  ghost predicate LossesExplained(w: World) {
    && (forall r :: r in w.strays ==> r.head == H40 && Restarted(w.trace, r))
    && (Displaced(w) && LastOperation(w).restored != Some(w.current) ==> CloseWasLost(w.trace, LastOperation(w)))
  }

  /** Everything that is safe to say of a reachable world. */
  ghost predicate Standing(w: World, legacy: Release) {
    && legacy.head == H38
    && w.live.rows == w.accepted
    && (forall r :: r in w.running ==> r.head == w.live.head)
    && (forall r :: r in w.journals ==> w.journals[r].dir.Reverse? && Sound(w.journals[r]))
    && LegalLog(w.log)
    && (if HasPending(w) then PendingInv(w, LastOperation(w), legacy) else IdleInv(w))
    && LossesExplained(w)
    && SafeTrace(w.trace, w.log)
  }

  ghost predicate Inv(w: World, legacy: Release) {
    Standing(w, legacy) && Fitting(w)
  }

  // ----- the effects that commands are made of -----

  datatype Effect =
    | Wait(seconds: nat, writes: seq<nat>)
    | Record(op: Operation)
    | RecordAndSave(op: Operation)
    | Save(host: Host)
    | Stop(release: Release)
    | Start(op: Operation, release: Release)
    | Restart(op: Operation)
    | Settle(release: Release)
    | WriteState(op: Operation, release: Release)
    | WriteBinding(op: Operation, release: Release)
    | MovePointer(op: Operation, release: Release)
    | WriteClosed(last: Operation, closed: Operation, lost: bool)
    | Issue(op: Operation, command: Command, phase: Phase)
    | Tool(op: Operation, journal: Journal, live: Live)

  function Apply(w: World, e: Effect): World {
    match e
    case Wait(seconds, writes) =>
      w.(now := w.now + seconds, live := Live(w.live.head, w.live.rows + writes), accepted := w.accepted + writes)
    case Record(op) => RecordOperation(w, op)
    case RecordAndSave(op) => SaveHost(RecordOperation(w, op), Claimed(w.host, op))
    case Save(host) => SaveHost(w, host)
    case Stop(release) => StopOne(w, release)
    case Start(op, release) => BeginStart(w, op, release)
    case Restart(op) => BeginRestart(w, op)
    case Settle(release) => SettleOn(w, release)
    case WriteState(op, release) => Publish(w, release)
    case WriteBinding(op, release) => w.(bindings := w.bindings[release := w.live.head])
    case MovePointer(op, release) => w.(pointer := release)
    case WriteClosed(last, closed, lost) => if lost then LoseClose(w, closed) else CloseOn(w, closed)
    case Issue(op, command, phase) => w.(trace := w.trace + [ConversionIssued(op, command, phase, w.now, w.running)])
    case Tool(op, journal, live) => w.(journals := w.journals[op.source := journal], live := live)
  }

  /** The operation is the pending one, and this context can go on with it. */
  predicate WorksOn(w: World, op: Operation) {
    HasPending(w) && LastOperation(w) == op && Resumable(w)
  }

  /** The hand-over is closed on its target, its closing write has raised, and the new layout is live. */
  ghost predicate Abandoned(w: World, op: Operation) {
    && op.phase.Pending? && !op.kind.FullRollback? && op.source.head == H40 && op.target.head == H40
    && w.live.head == H40 && !HasPending(w) && w.log != []
    && LastOperation(w) == ClosedOn(op, op.target, H40) && op in w.log && CloseWasLost(w.trace, op)
  }

  /** Whoever publishes or binds a release: the pending operation either of its two, a handler that was
      entered too late only the source. */
  ghost predicate MayName(w: World, op: Operation, release: Release) {
    || (WorksOn(w, op) && release in {op.source, op.target})
    || (Abandoned(w, op) && release == op.source)
  }

  predicate MayRecord(w: World, op: Operation, legacy: Release) {
    && !HasPending(w) && Bound(w) && w.current.head == H40
    && op == NewOperation(w, op.kind, w.current, op.target)
    && (if op.kind.FullRollback? then op.target == legacy else op.target.head == H40 && w.host.rehearsed)
  }

  predicate MayStart(w: World, op: Operation, release: Release) {
    && WorksOn(w, op) && release in {op.source, op.target}
    && release.head == w.live.head && InWindow(w.now, op.stoppedAt)
    && (op.kind.FullRollback? ==>
          release == op.target && w.running <= {release}
          && op.source in w.journals && w.journals[op.source].phase == Switched)
    && (!op.kind.FullRollback? ==>
          w.running <= {release} + w.strays || (release == op.target && w.current == release))
  }

  predicate MayIssue(w: World, op: Operation, command: Command, phase: Phase) {
    && WorksOn(w, op) && op.kind.FullRollback? && w.running == {}
    && op.source in w.journals && w.journals[op.source].phase == phase
    && match command
       case CopyCommand => phase in {Prepared, CopyPending, Copied} && OnTime(w.now, op.stoppedAt)
       case VerifyCommand => phase in {Copied, Verified}
       case SwitchCommand => phase in {Verified, SwitchPending, Switched}
  }

  /** Every journal whose operation has not begun is at most prepared. */
  predicate Unstarted(j: Journal, live: Live) {
    Rank(j.phase) <= Rank(Prepared) && Holds(j, live) && j.stoppedAt.None?
  }

  /** The journal of a pending rollback can be gone on with: it fits what is live, nothing runs from its copy to its
      exchange, and its stop instant is that of the operation. */
  predicate Resumes(j: Journal, w: World, op: Operation) {
    && j.phase !in {RollbackPending, RolledBack}
    && j.stoppedAt in {None, Some(op.stoppedAt)}
    && (if j.phase == Switched then w.live.head == H38 else Holds(j, w.live) && (Frozen(j) ==> w.running == {}))
  }

  /** Every command can be taken up again from here. */
  ghost predicate Fitting(w: World) {
    && (forall r :: r in w.bindings ==> w.bindings[r] == r.head)
    && (if HasPending(w) && LastOperation(w).kind.FullRollback? then
          LastOperation(w).source in w.journals ==> Resumes(w.journals[LastOperation(w).source], w, LastOperation(w))
        else
          w.live.head == H40 ==> forall r :: r in w.journals ==> Unstarted(w.journals[r], w.live))
  }

  /** The closing record is written last: everything else names the release already. */
  predicate MayClose(w: World, last: Operation, closed: Operation) {
    && w.log != [] && LastOperation(w) == last
    && ((Closes(last, closed) && Resumable(w)) || Recloses(last, closed))
    && w.host.operation == Some(closed)
    && w.current == w.pointer == closed.restored.value && w.running == {w.current}
    && closed.actualHead == Some(w.live.head)
    && w.pointer in w.bindings && w.bindings[w.pointer] == w.live.head
    && (w.live.head == H38 ==> w.host.phase == RolledBackPhase)
    && (last.kind.FullRollback? ==> closed.restored == Some(last.target))
  }

  /** What a command may do to a world, and when; the environment may let time and writes pass. */
  ghost predicate Possible(w: World, e: Effect, legacy: Release) {
    match e
    case Wait(seconds, writes) => w.running == {} ==> writes == []
    case Record(op) => MayRecord(w, op, legacy)
    case RecordAndSave(op) => MayRecord(w, op, legacy)
    case Save(host) =>
      && host.rehearsed == w.host.rehearsed
      && (if HasPending(w) then
            Resumable(w) && (host.operation.Some? ==> SavedMatches(host.operation.value, LastOperation(w)))
          else w.live.head == H40)
    case Stop(release) => true
    case Start(op, release) => MayStart(w, op, release)
    case Restart(op) =>
      && Abandoned(w, op) && w.current == op.target == w.pointer
      && w.running == {} && w.strays == {} && InWindow(w.now, op.stoppedAt)
    case Settle(release) =>
      && HasPending(w) && Resumable(w) && release in {LastOperation(w).source, LastOperation(w).target}
      && release in w.running
    case WriteState(op, release) =>
      && MayName(w, op, release) && w.running == {release}
      && (Abandoned(w, op) ==> w.current == op.target == w.pointer)
    case WriteBinding(op, release) =>
      && MayName(w, op, release) && w.current == release && release.head == w.live.head
      && (release in w.bindings ==> w.bindings[release] == w.live.head)
    case MovePointer(op, release) =>
      && MayName(w, op, release) && w.current == release
      && release in w.bindings && w.bindings[release] == w.live.head
    case WriteClosed(last, closed, lost) => MayClose(w, last, closed)
    case Issue(op, command, phase) => MayIssue(w, op, command, phase)
    case Tool(op, journal, live) =>
      && WorksOn(w, op) && op.kind.FullRollback? && w.running == {}
      && Sound(journal) && journal.dir.Reverse? && (op.source in w.journals ==> Advances(w.journals[op.source], journal))
      && live.rows == w.live.rows && live.head in {w.live.head, H38}
      && (live.head == H38 ==> journal.phase in {SwitchPending, Switched})
      && Resumes(journal, w.(live := live), op)
  }

  ghost predicate Saturated(worlds: iset<World>, legacy: Release) {
    forall w, e :: w in worlds && Possible(w, e, legacy) ==> Apply(w, e) in worlds
  }

  /** One world is reached from another by possible effects: it is in every set that holds the other and
      whatever possible effects make of its members. */
  ghost predicate Reaches(a: World, b: World, legacy: Release) {
    forall worlds: iset<World> :: Saturated(worlds, legacy) && a in worlds ==> b in worlds
  }

  /** What no command ever undoes: recorded operations, journals' stop instants and progress, accepted
      writes and history; a stuck operation stays exactly as it is. And commands do only what is possible. */
  ghost predicate Keeps(before: World, after: World, legacy: Release) {
    && before.now <= after.now
    && before.log <= after.log
    && (forall r :: r in before.journals ==> r in after.journals && Advances(before.journals[r], after.journals[r]))
    && before.accepted <= after.accepted
    && before.trace <= after.trace
    && before.host.rehearsed == after.host.rehearsed
    && (Stuck(before) ==> after.log == before.log && after.host == before.host && after.trace == before.trace)
    && Reaches(before, after, legacy)
  }

  lemma KeepsTransitive(a: World, b: World, c: World, legacy: Release)
    requires Keeps(a, b, legacy) && Keeps(b, c, legacy)
    ensures Keeps(a, c, legacy)
  {
    if Stuck(a) {
      assert Stuck(b);
    }
  }

  lemma KeepsItself(w: World, legacy: Release)
    ensures Keeps(w, w, legacy)
  {
  }

  /** An event about a recorded operation, safe and explained, keeps the history safe. */
  lemma ExtendTrace(trace: seq<Event>, log: seq<Operation>, e: Event)
    requires SafeTrace(trace, log) && SafeEvent(e) && e.op in log && Explained(trace, e)
    ensures SafeTrace(trace + [e], log)
  {
    hide SafeEvent, Explained;
    var longer := trace + [e];
    forall i | 0 <= i < |longer| ensures SafeEvent(longer[i]) && longer[i].op in log && Explained(longer[..i], longer[i]) {
      assert longer[..i] == trace[..i];
      assert trace[..|trace|] == trace;
    }
  }

  lemma ExtendLogOfTrace(trace: seq<Event>, log: seq<Operation>, next: Operation)
    requires SafeTrace(trace, log)
    ensures SafeTrace(trace, log + [next])
  {
    hide SafeEvent, Explained;
  }

  lemma LostForSame(trace: seq<Event>, a: Operation, b: Operation)
    requires CloseWasLost(trace, a) && SameOperation(a, b)
    ensures CloseWasLost(trace, b)
  {
  }

  /** What has happened stays happened. */
  lemma TraceGrows(trace: seq<Event>, e: Event)
    ensures forall r :: Restarted(trace, r) || Restarts(e, r) ==> Restarted(trace + [e], r)
    ensures forall op :: CloseWasLost(trace, op) || (e.CloseLost? && SameOperation(e.op, op)) ==> CloseWasLost(trace + [e], op)
  {
    var longer := trace + [e];
    assert longer[|trace|] == e;
    forall r, i | 0 <= i < |trace| && Restarts(trace[i], r) ensures Restarted(longer, r) {
      assert Restarts(longer[i], r);
    }
    forall op, i | 0 <= i < |trace| && trace[i].CloseLost? && SameOperation(trace[i].op, op) ensures CloseWasLost(longer, op) {
      assert longer[i].CloseLost? && SameOperation(longer[i].op, op);
    }
  }

  /** A pending rollback leads to the legacy release, and on the legacy layout nothing else runs. */
  lemma TargetOfRollback(w: World, op: Operation, legacy: Release)
    requires Inv(w, legacy) && HasPending(w) && LastOperation(w) == op && op.kind.FullRollback?
    ensures op.target == legacy && legacy.head == H38
    ensures w.live.head == H38 ==> w.running <= {legacy}
  {
  }

  lemma NextReaches(a: World, w: World, e: Effect, legacy: Release)
    requires Reaches(a, w, legacy) && Possible(w, e, legacy)
    ensures Reaches(a, Apply(w, e), legacy)
  {
    hide Possible, Apply;
  }

  lemma NextKeepsFitting(w: World, e: Effect, legacy: Release)
    requires Inv(w, legacy) && Possible(w, e, legacy)
    ensures Fitting(Apply(w, e))
  {
    hide Inv, Possible, Apply, Fitting;
    match e
    case Record(_) | RecordAndSave(_) => RecordKeepsFitting(w, e, legacy);
    case WriteClosed(_, _, _) => WriteClosedKeepsFitting(w, e, legacy);
    case Tool(_, _, _) => ToolKeepsFitting(w, e, legacy);
    case Wait(_, _) => WaitKeepsFitting(w, e, legacy);
    case Start(_, _) | Restart(_) | Settle(_) | Stop(_) => RunningKeepsFitting(w, e, legacy);
    case Save(_) | WriteState(_, _) | WriteBinding(_, _) | MovePointer(_, _) | Issue(_, _, _) => NamesKeepFitting(w, e, legacy);
  }

  lemma RecordKeepsFitting(w: World, e: Effect, legacy: Release)
    requires Inv(w, legacy) && Possible(w, e, legacy) && (e.Record? || e.RecordAndSave?)
    ensures Fitting(Apply(w, e))
  {
    hide LegalLog, SafeTrace, Sound, Restarted, CloseWasLost, LossesExplained, Advances;
  }

  lemma WriteClosedKeepsFitting(w: World, e: Effect, legacy: Release)
    requires Inv(w, legacy) && Possible(w, e, legacy) && e.WriteClosed?
    ensures Fitting(Apply(w, e))
  {
    hide LegalLog, SafeTrace, Sound, Restarted, CloseWasLost, LossesExplained, Advances;
  }

  lemma ToolKeepsFitting(w: World, e: Effect, legacy: Release)
    requires Inv(w, legacy) && Possible(w, e, legacy) && e.Tool?
    ensures Fitting(Apply(w, e))
  {
    hide LegalLog, SafeTrace, Sound, Restarted, CloseWasLost, LossesExplained, Advances;
  }

  lemma WaitKeepsFitting(w: World, e: Effect, legacy: Release)
    requires Inv(w, legacy) && Possible(w, e, legacy) && e.Wait?
    ensures Fitting(Apply(w, e))
  {
    assert w.running == {} ==> Apply(w, e).live == w.live;
    hide LegalLog, SafeTrace, Sound, Restarted, CloseWasLost, LossesExplained, Advances;
  }

  lemma RunningKeepsFitting(w: World, e: Effect, legacy: Release)
    requires Inv(w, legacy) && Possible(w, e, legacy) && (e.Start? || e.Restart? || e.Settle? || e.Stop?)
    ensures Fitting(Apply(w, e))
  {
    hide LegalLog, SafeTrace, Sound, Restarted, CloseWasLost, LossesExplained, Advances;
  }

  lemma NamesKeepFitting(w: World, e: Effect, legacy: Release)
    requires Inv(w, legacy) && Possible(w, e, legacy) && (e.Save? || e.WriteState? || e.WriteBinding? || e.MovePointer? || e.Issue?)
    ensures Fitting(Apply(w, e))
  {
    hide LegalLog, SafeTrace, Sound, Restarted, CloseWasLost, LossesExplained, Advances;
  }

  /** No effect takes anything back. */
  lemma NextKeeps(w: World, e: Effect, legacy: Release)
    requires Inv(w, legacy) && Possible(w, e, legacy)
    ensures Keeps(w, Apply(w, e), legacy)
  {
    NextReaches(w, w, e, legacy);
    NextGrows(w, e, legacy);
    if Stuck(w) {
      StuckStays(w, e, legacy);
    }
    hide Reaches, Inv, Possible, Apply, Stuck;
  }

  lemma NextGrows(w: World, e: Effect, legacy: Release)
    requires Possible(w, e, legacy)
    ensures var n := Apply(w, e);
            && w.now <= n.now && w.log <= n.log && w.accepted <= n.accepted && w.trace <= n.trace
            && w.host.rehearsed == n.host.rehearsed
            && (forall r :: r in w.journals ==> r in n.journals && Advances(w.journals[r], n.journals[r]))
  {
    hide Holds, Sound, CloseWasLost, Restarted;
  }

  /** A stuck operation keeps its record, its host journal and its history. */
  lemma StuckStays(w: World, e: Effect, legacy: Release)
    requires Possible(w, e, legacy) && Stuck(w)
    ensures Apply(w, e).log == w.log && Apply(w, e).host == w.host && Apply(w, e).trace == w.trace
  {
    hide Holds, Sound, CloseWasLost, Restarted, Resumes;
  }

  /** A start that may begin is a safe event. */
  lemma StartIsSafe(w: World, op: Operation, release: Release, legacy: Release)
    requires Inv(w, legacy) && MayStart(w, op, release)
    ensures var begun := StartOf(w, op, release, true);
            SafeEvent(begun) && begun.op in w.log && Explained(w.trace, begun)
  {
    hide Fitting, LegalLog, Sound, IdleInv, SafeTrace, Restarted, CloseWasLost;
  }

  lemma StartKeepsPending(w: World, op: Operation, release: Release, legacy: Release)
    requires MayStart(w, op, release) && PendingInv(w, op, legacy)
    ensures PendingInv(BeginStart(w, op, release), op, legacy)
  {
  }

  lemma RestartIsSafe(w: World, op: Operation, legacy: Release)
    requires Inv(w, legacy) && Abandoned(w, op) && w.running == {} && w.strays == {} && InWindow(w.now, op.stoppedAt)
    ensures var begun := StartOf(w, op, op.source, false);
            SafeEvent(begun) && begun.op in w.log && Explained(w.trace, begun) && Restarts(begun, op.source)
  {
    hide Inv, Restarted, CloseWasLost;
  }

  lemma WaitKeepsInv(w: World, e: Effect, legacy: Release)
    requires Inv(w, legacy) && Possible(w, e, legacy) && (e.Wait? || e.Stop?)
    ensures Standing(Apply(w, e), legacy)
  {
    hide Fitting, LegalLog, Sound, SafeTrace, Restarted, CloseWasLost;
  }

  lemma SaveKeepsInv(w: World, e: Effect, legacy: Release)
    requires Inv(w, legacy) && Possible(w, e, legacy) && e.Save?
    ensures Standing(Apply(w, e), legacy)
  {
    hide Fitting, LegalLog, Sound, SafeTrace, Restarted, CloseWasLost;
  }

  lemma RecordKeepsInv(w: World, e: Effect, legacy: Release)
    requires Inv(w, legacy) && Possible(w, e, legacy) && (e.Record? || e.RecordAndSave?)
    ensures Standing(Apply(w, e), legacy)
  {
    hide Fitting, LegalLog, Sound, SafeTrace, Restarted, CloseWasLost;
    ExtendLog(w.log, e.op);
    ExtendLogOfTrace(w.trace, w.log, e.op);
  }

  lemma StartKeepsInv(w: World, e: Effect, legacy: Release)
    requires Inv(w, legacy) && Possible(w, e, legacy) && e.Start?
    ensures Standing(Apply(w, e), legacy)
  {
    assert MayStart(w, e.op, e.release) && Apply(w, e) == BeginStart(w, e.op, e.release);
    hide Apply, Possible;
    hide Fitting, LegalLog, Sound, IdleInv, PendingInv, SafeTrace, Restarted, CloseWasLost, SafeEvent, Explained;
    StartKeepsPending(w, e.op, e.release, legacy);
    StartIsSafe(w, e.op, e.release, legacy);
    var begun := StartOf(w, e.op, e.release, true);
    ExtendTrace(w.trace, w.log, begun);
    TraceGrows(w.trace, begun);
  }

  lemma SettleKeepsInv(w: World, e: Effect, legacy: Release)
    requires Inv(w, legacy) && Possible(w, e, legacy) && e.Settle?
    ensures Standing(Apply(w, e), legacy)
  {
    assert Apply(w, e) == SettleOn(w, e.release) && HasPending(w) && Resumable(w)
           && e.release in w.running && e.release in {LastOperation(w).source, LastOperation(w).target};
    hide Apply, Possible;
    hide Fitting, LegalLog, Sound, IdleInv, SafeTrace, Restarted, CloseWasLost;
  }

  lemma RestartKeepsInv(w: World, e: Effect, legacy: Release)
    requires Inv(w, legacy) && Possible(w, e, legacy) && e.Restart?
    ensures Standing(Apply(w, e), legacy)
  {
    assert Apply(w, e) == BeginRestart(w, e.op) && Abandoned(w, e.op) && w.current == e.op.target == w.pointer
           && w.running == {} && w.strays == {} && InWindow(w.now, e.op.stoppedAt);
    hide Apply, Possible;
    hide Fitting, LegalLog, Sound, PendingInv, SafeTrace, Restarted, CloseWasLost, SafeEvent, Explained;
    RestartIsSafe(w, e.op, legacy);
    var begun := StartOf(w, e.op, e.op.source, false);
    ExtendTrace(w.trace, w.log, begun);
    TraceGrows(w.trace, begun);
  }

  lemma PublishKeepsInv(w: World, e: Effect, legacy: Release)
    requires Inv(w, legacy) && Possible(w, e, legacy) && e.WriteState? && WorksOn(w, e.op)
    ensures Standing(Apply(w, e), legacy)
  {
    assert Apply(w, e) == Publish(w, e.release) && e.release in {e.op.source, e.op.target};
    hide Apply, Possible;
    hide Fitting, LegalLog, Sound, IdleInv, SafeTrace, Restarted, CloseWasLost;
  }

  lemma PublishLateKeepsInv(w: World, e: Effect, legacy: Release)
    requires Inv(w, legacy) && Possible(w, e, legacy) && e.WriteState? && Abandoned(w, e.op)
    ensures Standing(Apply(w, e), legacy)
  {
    hide Fitting, LegalLog, Sound, SafeTrace, Restarted, CloseWasLost;
    LostForSame(w.trace, e.op, LastOperation(w));
  }

  lemma BindKeepsInv(w: World, e: Effect, legacy: Release)
    requires Inv(w, legacy) && Possible(w, e, legacy) && (e.WriteBinding? || e.MovePointer?) && WorksOn(w, e.op)
    ensures Standing(Apply(w, e), legacy)
  {
    hide Fitting, LegalLog, Sound, IdleInv, SafeTrace, Restarted, CloseWasLost;
    hide Abandoned;
  }

  lemma BindLateKeepsInv(w: World, e: Effect, legacy: Release)
    requires Inv(w, legacy) && Possible(w, e, legacy) && (e.WriteBinding? || e.MovePointer?) && Abandoned(w, e.op)
    ensures Standing(Apply(w, e), legacy)
  {
    hide Fitting, LegalLog, Sound, SafeTrace, Restarted, CloseWasLost;
  }

  lemma WriteClosedKeepsInv(w: World, e: Effect, legacy: Release)
    requires Inv(w, legacy) && Possible(w, e, legacy) && e.WriteClosed?
    ensures Standing(Apply(w, e), legacy)
  {
    assert MayClose(w, e.last, e.closed)
           && Apply(w, e) == if e.lost then LoseClose(w, e.closed) else CloseOn(w, e.closed);
    hide Apply, Possible;
    hide Fitting, LegalLog, Sound, SafeTrace, Restarted, CloseWasLost;
    ExtendLog(w.log, e.closed);
    ExtendLogOfTrace(w.trace, w.log, e.closed);
    if e.lost {
      ExtendTrace(w.trace, w.log + [e.closed], CloseLost(e.closed));
      TraceGrows(w.trace, CloseLost(e.closed));
    }
    hide SafeEvent, Explained, PendingInv;
  }

  lemma IssueKeepsInv(w: World, e: Effect, legacy: Release)
    requires Inv(w, legacy) && Possible(w, e, legacy) && e.Issue?
    ensures Standing(Apply(w, e), legacy)
  {
    hide Fitting, LegalLog, Sound, IdleInv, SafeTrace, Restarted, CloseWasLost;
    var issued := ConversionIssued(e.op, e.command, e.phase, w.now, w.running);
    ExtendTrace(w.trace, w.log, issued);
    TraceGrows(w.trace, issued);
    hide SafeEvent, Explained;
  }

  lemma ToolKeepsInv(w: World, e: Effect, legacy: Release)
    requires Inv(w, legacy) && Possible(w, e, legacy) && e.Tool?
    ensures Standing(Apply(w, e), legacy)
  {
    hide Fitting, LegalLog, Sound, IdleInv, SafeTrace, Restarted, CloseWasLost;
  }

  /** Every possible effect keeps the invariant, and takes nothing back. */
  lemma NextKeepsInv(w: World, e: Effect, legacy: Release)
    requires Inv(w, legacy) && Possible(w, e, legacy)
    ensures Inv(Apply(w, e), legacy) && Keeps(w, Apply(w, e), legacy)
  {
    assert (e.WriteState? || e.WriteBinding? || e.MovePointer?) ==> WorksOn(w, e.op) || Abandoned(w, e.op);
    NextKeepsFitting(w, e, legacy);
    NextKeeps(w, e, legacy);
    hide Standing, Fitting, Possible, Apply, Keeps, WorksOn, Abandoned;
    match e
    case Wait(_, _) | Stop(_) => WaitKeepsInv(w, e, legacy);
    case Save(_) => SaveKeepsInv(w, e, legacy);
    case Record(_) | RecordAndSave(_) => RecordKeepsInv(w, e, legacy);
    case Start(_, _) => StartKeepsInv(w, e, legacy);
    case Settle(_) => SettleKeepsInv(w, e, legacy);
    case Restart(_) => RestartKeepsInv(w, e, legacy);
    case WriteState(_, _) =>
      if WorksOn(w, e.op) {
        PublishKeepsInv(w, e, legacy);
      } else {
        PublishLateKeepsInv(w, e, legacy);
      }
    case WriteBinding(_, _) | MovePointer(_, _) =>
      if WorksOn(w, e.op) {
        BindKeepsInv(w, e, legacy);
      } else {
        BindLateKeepsInv(w, e, legacy);
      }
    case WriteClosed(_, _, _) => WriteClosedKeepsInv(w, e, legacy);
    case Issue(_, _, _) => IssueKeepsInv(w, e, legacy);
    case Tool(_, _, _) => ToolKeepsInv(w, e, legacy);
  }

  /** What is reached by possible effects, in any order and number, satisfies the invariant and takes
      nothing back. */
  lemma ReachedKeepsInv(a: World, b: World, legacy: Release)
    requires Inv(a, legacy) && Reaches(a, b, legacy)
    ensures Inv(b, legacy) && Keeps(a, b, legacy)
  {
    var worlds := iset w: World | Inv(w, legacy) && Keeps(a, w, legacy);
    forall w, e | w in worlds && Possible(w, e, legacy) ensures Apply(w, e) in worlds {
      NextKeepsInv(w, e, legacy);
      KeepsTransitive(a, w, Apply(w, e), legacy);
    }
    assert Saturated(worlds, legacy) && a in worlds;
  }

  lemma HandoverHeads(w: World, op: Operation, legacy: Release)
    requires Inv(w, legacy) && HasPending(w) && LastOperation(w) == op && !op.kind.FullRollback?
    ensures w.live.head == H40 && op.source.head == H40 && op.target.head == H40
    ensures w.current in {op.source, op.target}
  {
  }

  /** An idle bound world is on the layout of its release, and on the legacy one it is rolled back. */
  lemma IdleLegacyIsRolledBack(w: World, legacy: Release)
    requires Inv(w, legacy)
    ensures !HasPending(w) && w.pointer.head == H38 && Bound(w) ==> w.host.phase == RolledBackPhase
    ensures !HasPending(w) && Bound(w) ==> w.pointer.head == w.live.head
    ensures HasPending(w) ==> LastOperation(w).source.head == H40
    ensures HasPending(w) && LastOperation(w).kind.FullRollback? ==> LastOperation(w).target == legacy
  {
  }

  /** The journal of a pending rollback can be gone on with. */
  lemma JournalResumes(w: World, op: Operation, legacy: Release)
    requires Inv(w, legacy) && HasPending(w) && LastOperation(w) == op && op.kind.FullRollback? && op.source in w.journals
    ensures var j := w.journals[op.source];
            && j.dir.Reverse? && Sound(j) && Resumes(j, w, op)
            && (w.live.head == H38 ==> j.phase in {SwitchPending, Switched})
  {
    hide SafeTrace, LegalLog, LossesExplained, IdleInv;
  }

  lemma BindingsFit(w: World, legacy: Release)
    requires Inv(w, legacy)
    ensures forall r :: r in w.bindings ==> w.bindings[r] == r.head
  {
    hide SafeTrace, LegalLog, LossesExplained, PendingInv, IdleInv;
  }

  lemma ClosedOnLiveHead(w: World, legacy: Release)
    requires Inv(w, legacy) && !HasPending(w) && w.log != []
    ensures LastOperation(w).actualHead == Some(w.live.head)
  {
  }

  /** In every reachable world the guard lets a deployment through exactly when it presents the pending
      operation, if there is one, or, if state.json is wedged off the pointer, any operation at all. */
  lemma GuardAdmitsOnlyTheOwner(w: World, legacy: Release, token: Option<Operation>)
    requires Inv(w, legacy)
    ensures GuardAdmits(w, token) <==>
            && (HasPending(w) ==> token.Some? && token.value.id == LastOperation(w).id)
            && (Wedged(w) ==> token.Some?)
    ensures Wedged(w) ==> CloseWasLost(w.trace, LastOperation(w)) && !Bound(w)
  {
    hide LegalLog, SafeTrace, Sound, Restarted, CloseWasLost;
  }

  /** Where this context begins: no operation yet, the new layout live under its bound release. */
  ghost predicate FirstContext(w: World, legacy: Release) {
    && legacy.head == H38 && w.live.head == H40 && w.live.rows == w.accepted
    && w.log == [] && w.trace == [] && w.journals == map[] && w.strays == {}
    && w.running <= {w.current} && w.pointer == w.current && w.current.head == H40
    && w.bindings == map[w.pointer := H40]
  }

  lemma FirstContextHolds(w: World, legacy: Release)
    requires FirstContext(w, legacy)
    ensures Inv(w, legacy)
  {
  }

  /** Read off any reachable world: what may be set in motion, and when. Strays of lost
      closes aside, another release runs at a start exactly if it is the source of a hand-over that is still
      running when the target, which state.json names already, is started again. */
  lemma StepsAreSafe(w: World, legacy: Release, i: nat)
    requires Inv(w, legacy) && i < |w.trace|
    ensures var e := w.trace[i];
            && e.op in w.log
            && (e.ConversionIssued? ==>
                  && e.op.kind.FullRollback? && e.running == {}
                  && (e.command.CopyCommand? ==>
                        e.phase !in {Verified, SwitchPending, Switched} && 0 <= e.at - e.op.stoppedAt < COPY_SECONDS))
            && (e.StartBegun? ==>
                  && e.release in {e.op.source, e.op.target} && e.release.head == e.head
                  && 0 <= e.at - e.op.stoppedAt < WINDOW_SECONDS
                  && (e.release.head == H38 ==> e.op.kind.FullRollback? && e.journal == Some(Switched))
                  && e.running <= {e.op.source, e.op.target} + e.strays
                  && (!(e.running <= {e.release} + e.strays) <==>
                        && e.release == e.op.target && e.release != e.op.source && e.published
                        && !e.op.kind.FullRollback? && e.op.source in e.running && e.op.source !in e.strays)
                  && (!e.pending ==> e.running == {} && CloseWasLost(w.trace[..i], e.op))
                  && (forall r :: r in e.strays ==> Restarted(w.trace[..i], r)))
  {
    assert SafeEvent(w.trace[i]) && Explained(w.trace[..i], w.trace[i]);
  }

  lemma NoRestart(trace: seq<Event>, i: nat, r: Release)
    requires i <= |trace| && forall j :: 0 <= j < |trace| && trace[j].StartBegun? ==> trace[j].pending
    ensures !Restarted(trace[..i], r)
  {
  }

  /** Without a lost close there are no strays, and no world is ever wedged. */
  lemma NothingLostNothingStray(w: World, legacy: Release)
    requires Inv(w, legacy) && forall i :: 0 <= i < |w.trace| ==> !w.trace[i].CloseLost?
    ensures w.strays == {} && !Wedged(w) && (!HasPending(w) ==> w.running <= {w.current})
    ensures forall i :: 0 <= i < |w.trace| && w.trace[i].StartBegun? ==> w.trace[i].pending && w.trace[i].strays == {}
  {
    forall i | 0 <= i < |w.trace| && w.trace[i].StartBegun? ensures w.trace[i].pending {
      assert Explained(w.trace[..i], w.trace[i]);
    }
    forall i | 0 <= i < |w.trace| && w.trace[i].StartBegun? ensures w.trace[i].strays == {} {
      assert Explained(w.trace[..i], w.trace[i]);
      forall r ensures r !in w.trace[i].strays {
        NoRestart(w.trace, i, r);
      }
    }
    forall r ensures r !in w.strays {
      assert w.trace[..|w.trace|] == w.trace;
      NoRestart(w.trace, |w.trace|, r);
    }
    hide SafeTrace, LegalLog, PendingInv;
  }

  // ----- three worlds that are reached -----

  /** A fresh context after its rehearsal. */
  ghost predicate RehearsedContext(w: World, legacy: Release) {
    FirstContext(w, legacy) && w.host.rehearsed && w.host.operation.None?
  }

  /** Its first hand-over up to the publication of its target: recorded, saved, the source stopped, the
      target started and named by state.json. */
  function Published(w: World, op: Operation): World {
    var begun := SaveHost(RecordOperation(w, op), Claimed(w.host, op));
    Publish(SettleOn(BeginStart(StopOne(begun, op.source), op, op.target), op.target), op.target)
  }

  /** ... and on to the last write: bound, and the host journal saved as closed. */
  function Closing(w: World, op: Operation): World {
    var bound := BindTo(Published(w, op), op.target, H40);
    SaveHost(bound, bound.host.(phase := Ready, operation := Some(ClosedOn(op, op.target, H40))))
  }

  lemma PublishedIsReached(w: World, legacy: Release, target: Release)
    requires RehearsedContext(w, legacy) && target.head == H40 && target != w.current
    ensures var op := NewOperation(w, Handover, w.current, target);
            Reaches(w, Published(w, op), legacy) && Resumable(Published(w, op))
  {
    assert Reaches(w, w, legacy);
    hide Reaches;
    var op := NewOperation(w, Handover, w.current, target);
    var begun := Apply(w, Effect.RecordAndSave(op));
    NextReaches(w, w, Effect.RecordAndSave(op), legacy);
    var stopped := Apply(begun, Effect.Stop(op.source));
    NextReaches(w, begun, Effect.Stop(op.source), legacy);
    var started := Apply(stopped, Effect.Start(op, target));
    NextReaches(w, stopped, Effect.Start(op, target), legacy);
    var settled := Apply(started, Effect.Settle(target));
    NextReaches(w, started, Effect.Settle(target), legacy);
    NextReaches(w, settled, Effect.WriteState(op, target), legacy);
  }

  lemma ClosingIsReached(w: World, legacy: Release, target: Release)
    requires RehearsedContext(w, legacy) && target.head == H40 && target != w.current
    ensures var op := NewOperation(w, Handover, w.current, target);
            && Reaches(w, Closing(w, op), legacy)
            && MayClose(Closing(w, op), op, ClosedOn(op, target, H40))
  {
    PublishedIsReached(w, legacy, target);
    hide Reaches;
    var op := NewOperation(w, Handover, w.current, target);
    var published := Published(w, op);
    var written := Apply(published, Effect.WriteBinding(op, target));
    NextReaches(w, published, Effect.WriteBinding(op, target), legacy);
    var bound := Apply(written, Effect.MovePointer(op, target));
    NextReaches(w, written, Effect.MovePointer(op, target), legacy);
    NextReaches(w, bound, Effect.Save(Closing(w, op).host), legacy);
  }

  /** A crash between the two writes of the second hand-over leaves an operation that no command resumes. */
  lemma SecondOperationSticks(w: World, legacy: Release, target: Release)
    requires RehearsedContext(w, legacy) && target.head == H40 && target != w.current
    ensures var op := NewOperation(w, Handover, w.current, target);
            var closed := CloseOn(Closing(w, op), ClosedOn(op, target, H40));
            var crashed := RecordOperation(closed, NewOperation(closed, Handover, target, w.current));
            Reaches(w, crashed, legacy) && Inv(crashed, legacy) && Stuck(crashed)
  {
    FirstContextHolds(w, legacy);
    ClosingIsReached(w, legacy, target);
    hide Reaches, Inv, MayClose;
    var op := NewOperation(w, Handover, w.current, target);
    var closing, last := Closing(w, op), ClosedOn(op, target, H40);
    var closed := Apply(closing, Effect.WriteClosed(op, last, false));
    NextReaches(w, closing, Effect.WriteClosed(op, last, false), legacy);
    var second := NewOperation(closed, Handover, target, w.current);
    NextReaches(w, closed, Effect.Record(second), legacy);
    CrashBetweenWrites(closed, second);
    ReachedKeepsInv(w, RecordOperation(closed, second), legacy);
  }

  lemma LostIsReached(w: World, legacy: Release, target: Release)
    requires RehearsedContext(w, legacy) && target.head == H40 && target != w.current
    ensures var op := NewOperation(w, Handover, w.current, target);
            var stopped := StopOne(LoseClose(Closing(w, op), ClosedOn(op, target, H40)), target);
            Reaches(w, stopped, legacy) && CloseWasLost(stopped.trace, op) && op in stopped.log
  {
    ClosingIsReached(w, legacy, target);
    hide Reaches, MayClose, CloseWasLost;
    var op := NewOperation(w, Handover, w.current, target);
    var closing, last := Closing(w, op), ClosedOn(op, target, H40);
    var lost := Apply(closing, Effect.WriteClosed(op, last, true));
    NextReaches(w, closing, Effect.WriteClosed(op, last, true), legacy);
    TraceGrows(closing.trace, CloseLost(last));
    NextReaches(w, lost, Effect.Stop(target), legacy);
    assert op == lost.log[0];
  }

  /** The closing write of the first hand-over raises although it has replaced its file, and the handler dies
      between state.json and the pointer: nothing is pending and nothing is admitted. */
  lemma LostCloseWedges(w: World, legacy: Release, target: Release)
    requires RehearsedContext(w, legacy) && target.head == H40 && target != w.current
    ensures var op := NewOperation(w, Handover, w.current, target);
            var lost := LoseClose(Closing(w, op), ClosedOn(op, target, H40));
            var wedged := Publish(BeginRestart(StopOne(lost, target), op), op.source);
            && Reaches(w, wedged, legacy) && Inv(wedged, legacy)
            && !HasPending(wedged) && Wedged(wedged) && !Bound(wedged) && !GuardAdmits(wedged, None)
  {
    FirstContextHolds(w, legacy);
    LostIsReached(w, legacy, target);
    hide Reaches, Inv, CloseWasLost;
    var op := NewOperation(w, Handover, w.current, target);
    var stopped := StopOne(LoseClose(Closing(w, op), ClosedOn(op, target, H40)), target);
    var begun := Apply(stopped, Effect.Restart(op));
    NextReaches(w, stopped, Effect.Restart(op), legacy);
    TraceGrows(stopped.trace, StartOf(stopped, op, op.source, false));
    NextReaches(w, begun, Effect.WriteState(op, op.source), legacy);
    ReachedKeepsInv(w, Publish(begun, op.source), legacy);
  }

  /** The first hand-over fails after its publication; its handler runs the source again but neither
      publishes nor stops it. The retry then starts the target while the source is running. */
  lemma SourceRunsAtStart(w: World, legacy: Release, target: Release)
    requires RehearsedContext(w, legacy) && target.head == H40 && target != w.current
    ensures var op := NewOperation(w, Handover, w.current, target);
            var returned := SettleOn(BeginStart(StopOne(Published(w, op), target), op, op.source), op.source);
            var retried := BeginStart(returned, op, target);
            && Reaches(w, retried, legacy) && Inv(retried, legacy) && |retried.trace| == 3
            && var e := retried.trace[2];
               e.StartBegun? && e.release == target && e.pending && e.published && e.strays == {} && e.running == {op.source}
  {
    FirstContextHolds(w, legacy);
    PublishedIsReached(w, legacy, target);
    hide Reaches, Inv;
    var op := NewOperation(w, Handover, w.current, target);
    var published := Published(w, op);
    var stopped := Apply(published, Effect.Stop(target));
    NextReaches(w, published, Effect.Stop(target), legacy);
    var started := Apply(stopped, Effect.Start(op, op.source));
    NextReaches(w, stopped, Effect.Start(op, op.source), legacy);
    var returned := Apply(started, Effect.Settle(op.source));
    NextReaches(w, started, Effect.Settle(op.source), legacy);
    NextReaches(w, returned, Effect.Start(op, target), legacy);
    ReachedKeepsInv(w, BeginStart(returned, op, target), legacy);
  }

  // ----- the controller -----

  datatype FollowupCommand =
    | ReleaseCommand(target: Release)
    | RestoreCommand(target: Release)
    | RollbackCommand

  /** A hand-over to this target can begin or be resumed. */
  predicate MayRelease(w: World, target: Release, restore: bool) {
    && Bound(w) && w.host.rehearsed && w.live.head == H40 && target.head == H40
    && (HasPending(w) ==>
          && Resumable(w) && LastOperation(w).target == target
          && LastOperation(w).kind == (if restore then RuntimeRestore else Handover))
  }

  /** A rollback can begin, be resumed, or is done. */
  predicate MayRollback(w: World) {
    Bound(w) && (HasPending(w) ==> Resumable(w) && LastOperation(w).kind.FullRollback?)
  }

  /** The phases that the first few conversion commands lead to. */
  predicate Carried(phase: Phase, commands: int) {
    && phase !in {Planned, PreparePending, RollbackPending, RolledBack}
    && (commands >= 1 ==> phase !in {Prepared, CopyPending})
    && (commands >= 2 ==> phase != Copied)
    && (commands >= 3 ==> phase == Switched)
  }

  lemma CarriedThrough(phase: Phase)
    ensures Carried(phase, 3) ==> phase == Switched
  {
  }

  datatype Catch = Catch(op: Operation, faults: nat, world: World)

  class Followup {
    const legacy: Release
    var world: World
    var state: Host
    var deadline: Option<int>
    var cleanupAttempts: map<Release, bool>
    /** What the environment has denied this process so far: a step that failed, a budget that had run out, a
        fence that found connections. */
    ghost var faults: nat
    /** How the guarded part of a command raised, and whether its handler has saved a note of that. */
    ghost var caught: Option<Catch>
    ghost var noted: bool

    constructor (world: World, legacy: Release)
      ensures this.world == world && state == world.host && this.legacy == legacy
      ensures New() && deadline == None && faults == 0
    {
      this.world := world;
      this.legacy := legacy;
      state := world.host;
      deadline := None;
      cleanupAttempts := map[];
      faults, caught, noted := 0, None, false;
    }

    /** Nothing has been caught or drained yet. */
    ghost predicate New()
      reads this`cleanupAttempts, this`caught, this`noted
    {
      cleanupAttempts == map[] && caught.None? && !noted
    }

    /** A step of the environment. */
    method Try() returns (r: Outcome<()>)
      modifies this`faults
      ensures faults == old(faults) + if r.Done? then 0 else 1
    {
      r := Fate();
      Deny(!r.Done?);
    }

    ghost method Deny(denied: bool)
      modifies this`faults
      ensures faults == old(faults) + if denied then 1 else 0
    {
      faults := faults + if denied then 1 else 0;
    }

    /** What is left of a budget. */
    method Left(stop: int, seconds: int) returns (r: Outcome<int>)
      modifies this`faults
      ensures r.Done? <==> 0 <= world.now - stop < seconds
      ensures r.Done? ==> 0 < r.value && world.now + r.value == stop + seconds
      ensures !r.Crashed? && faults == old(faults) + if r.Done? then 0 else 1
    {
      r := Remaining(world.now, stop, seconds);
      Deny(!r.Done?);
    }

    /** A release that was drained does not run. */
    predicate Drained()
      reads this`cleanupAttempts, this`world
    {
      forall r :: r in cleanupAttempts && cleanupAttempts[r] ==> r !in world.running
    }

    /** Both releases have been drained in this order, as far as the first allowed it. */
    predicate DrainedBoth(first: Release, second: Release)
      reads this`cleanupAttempts, this`world
    {
      && first in cleanupAttempts
      && (cleanupAttempts[first] ==>
            && first !in world.running && second in cleanupAttempts
            && (cleanupAttempts[second] ==> second !in world.running))
    }

    /** The hand-over is closed on its source, which runs, is published and is bound. */
    ghost predicate Restored(op: Operation)
      reads this`world
    {
      && !HasPending(world) && world.log != [] && LastOperation(world) == ClosedOn(op, op.source, H40)
      && world.current == op.source == world.pointer && world.running == {op.source}
    }

    /** How the handler of a failed hand-over leaves things: with its note saved it restores the source or drains both
        releases, and it restores if nothing more was denied; without the note it has touched nothing. */
    ghost predicate Handled()
      reads this
      requires caught.Some?
    {
      && caught.value.op in world.log
      && (faults == caught.value.faults ==> Restored(caught.value.op))
      && (noted ==> Restored(caught.value.op) || DrainedBoth(caught.value.op.target, caught.value.op.source))
      && (!noted ==> world == caught.value.world.(host := world.host))
    }

    ghost predicate Good()
      reads this
    {
      Inv(world, legacy)
    }

    /** The operation this process works on is the pending one. */
    predicate Working(op: Operation)
      reads this`world
    {
      WorksOn(world, op)
    }

    /** What the process would save does not lose its claim on the pending operation. */
    predicate Claims(op: Operation)
      reads this`state, this`world
    {
      && state.rehearsed == world.host.rehearsed
      && (state.operation.Some? ==> SavedMatches(state.operation.value, op))
    }

    /** The one way in which this process changes the world. */
    method Take(e: Effect)
      requires Good() && Possible(world, e, legacy)
      modifies this`world
      ensures Good() && Keeps(old(world), world, legacy)
      ensures world == Apply(old(world), e)
    {
      hide Inv, Possible, Apply, Keeps;
      NextKeepsInv(world, e, legacy);
      world := Apply(world, e);
    }

    // ----- environment and durable writes -----

    method Elapse()
      requires Good()
      modifies this`world
      ensures Good() && Keeps(old(world), world, legacy)
      ensures world == old(world).(now := world.now, live := world.live, accepted := world.accepted)
      ensures world.live.head == old(world).live.head
      ensures world.running == {} ==> world.live == old(world).live && world.accepted == old(world).accepted
    {
      var seconds: int :| 0 <= seconds;
      var writes: seq<nat> := [];
      if world.running != {} {
        writes := *;
      }
      hide Inv;
      Take(Effect.Wait(seconds, writes));
    }

    /** Saves host.json while an operation is pending. */
    method Save(op: Operation) returns (r: Outcome<()>)
      requires Good() && Working(op) && Claims(op)
      modifies this`world, this`faults
      ensures Good() && Keeps(old(world), world, legacy) && Working(op)
      ensures world == old(world).(host := world.host)
      ensures world.host == state || world.host == old(world).host
      ensures r.Done? ==> world.host == state
      ensures faults >= old(faults) && (faults == old(faults) ==> r.Done?)
    {
      hide Inv;
      r := Try();
      var replaced: bool := *;
      if r.Done? || replaced {
        Take(Effect.Save(state));
      }
    }

    /** Saves host.json while nothing is pending on the new layout. */
    method SaveIdle() returns (r: Outcome<()>)
      requires Good() && !HasPending(world) && world.live.head == H40 && state.rehearsed == world.host.rehearsed
      modifies this`world, this`faults
      ensures Good() && Keeps(old(world), world, legacy)
      ensures world in {old(world), SaveHost(old(world), state)}
      ensures faults >= old(faults) && (faults == old(faults) ==> r.Done?)
      ensures r.Done? ==> world == SaveHost(old(world), state)
    {
      hide Inv;
      r := Try();
      var replaced: bool := *;
      if r.Done? || replaced {
        Take(Effect.Save(state));
      }
    }

    // ----- steps on releases, all inside the operation's own window -----

    method StopRelease(release: Release, budget: Budget) returns (r: Outcome<()>)
      requires Good()
      modifies this`world, this`faults
      ensures Good() && Keeps(old(world), world, legacy)
      ensures world.running in {old(world).running, old(world).running - {release}}
      ensures world == old(world).(now := world.now, live := world.live, accepted := world.accepted, running := world.running)
      ensures world.live.head == old(world).live.head
      ensures r.Done? ==> release !in world.running
      ensures faults >= old(faults) && (faults == old(faults) ==> r.Done?)
    {
      hide Inv;
      Elapse();
      if !Allows(budget, world.now) {
        Deny(true);
        return Raised;
      }
      r := Try();
      var stopped: bool := *;
      if r.Done? || stopped {
        Take(Effect.Stop(release));
      }
    }

    method StopFailedRelease(release: Release) returns (r: Outcome<()>)
      requires Good() && Drained()
      modifies this`world, this`cleanupAttempts, this`faults
      ensures Drained() && old(cleanupAttempts).Keys + {release} == cleanupAttempts.Keys
      ensures r.Done? ==> cleanupAttempts[release]
      ensures release !in old(cleanupAttempts) && !r.Done? ==> !cleanupAttempts[release]
      ensures faults >= old(faults) && (faults == old(faults) && release !in old(cleanupAttempts) ==> r.Done?)
      ensures forall x :: x in old(cleanupAttempts) ==> cleanupAttempts[x] == old(cleanupAttempts)[x]
      ensures Good() && Keeps(old(world), world, legacy)
      ensures world == old(world).(now := world.now, live := world.live, accepted := world.accepted, running := world.running)
      ensures world.live.head == old(world).live.head && world.running <= old(world).running
    {
      if release in cleanupAttempts {
        return if cleanupAttempts[release] then Done(()) else Raised;
      }
      cleanupAttempts := cleanupAttempts[release := false];
      var _ :- StopRelease(release, Cleanup(world.now));
      cleanupAttempts := cleanupAttempts[release := true];
      r := Done(());
    }

    /** The drains of a failed command, one bounded attempt for each release; the second only after the first. */
    method DrainBoth(first: Release, second: Release) returns (r: Outcome<()>)
      requires Good() && cleanupAttempts == map[]
      modifies this`world, this`cleanupAttempts, this`faults
      ensures Good() && Keeps(old(world), world, legacy)
      ensures world == old(world).(now := world.now, live := world.live, accepted := world.accepted, running := world.running)
      ensures world.live.head == old(world).live.head && world.running <= old(world).running
      ensures faults >= old(faults) && (!r.Crashed? ==> DrainedBoth(first, second))
    {
      hide Inv;
      var _ :- StopFailedRelease(first);
      r := StopFailedRelease(second);
    }

    method Probe(release: Release, stop: int) returns (r: Outcome<()>)
      requires Good()
      modifies this`world, this`faults
      ensures Good() && Keeps(old(world), world, legacy)
      ensures world == old(world).(now := world.now, live := world.live, accepted := world.accepted)
      ensures world.live.head == old(world).live.head
      ensures r.Done? ==> world.live.head == release.head
      ensures faults >= old(faults) && (faults == old(faults) && world.live.head == release.head ==> r.Done?)
    {
      Elapse();
      if !InWindow(world.now, stop) {
        Deny(true);
        return Raised;
      }
      if world.live.head != release.head {
        return Raised;
      }
      r := Try();
    }

    /** The complete live structure; `None` accepts either head. A fenced validation refuses while other
        connections, those of any running release, remain. */
    method Validate(expected: Option<Head>, fenced: bool) returns (r: Outcome<Head>)
      requires Good()
      modifies this`world, this`faults
      ensures Good() && Keeps(old(world), world, legacy)
      ensures world == old(world).(now := world.now, live := world.live, accepted := world.accepted)
      ensures world.live.head == old(world).live.head
      ensures r.Done? ==> r.value == world.live.head && (expected.Some? ==> expected.value == r.value)
      ensures r.Done? && fenced ==> world.running == {}
      ensures faults >= old(faults) && (faults == old(faults) && expected in {None, Some(world.live.head)} ==> r.Done?)
    {
      Elapse();
      if (fenced && world.running != {}) || (deadline.Some? && world.now >= deadline.value) {
        Deny(true);
        return Raised;
      }
      if expected.Some? && expected.value != world.live.head {
        return Raised;
      }
      var _ :- Try();
      r := Done(world.live.head);
    }

    /** Brings a release of the pending operation up. Success means that the project's containers are
        exactly those of this release; a failure leaves any mixture. */
    method StartRelease(op: Operation, release: Release) returns (r: Outcome<()>)
      requires Good() && Working(op)
      requires release in {op.source, op.target} && release.head == world.live.head
      requires op.kind.FullRollback? ==>
                 release == op.target && world.running <= {release}
                 && op.source in world.journals && world.journals[op.source].phase == Switched
      requires !op.kind.FullRollback? ==>
                 world.running <= {release} + world.strays || (release == op.target && world.current == release)
      modifies this`world, this`faults
      ensures Good() && Keeps(old(world), world, legacy) && Working(op)
      ensures world == old(world).(now := world.now, live := world.live, accepted := world.accepted,
                                   running := world.running, strays := world.strays, trace := world.trace)
      ensures world.live.head == old(world).live.head
      ensures faults >= old(faults) && (faults == old(faults) ==> r.Done?)
      ensures r.Done? ==> world.running == {release} && world.strays == {}
    {
      KeepsItself(world, legacy);
      hide Inv, Keeps, SafeEvent;
      ghost var before := world;
      Elapse();
      if !InWindow(world.now, op.stoppedAt) {
        Deny(true);
        return Raised;
      }
      ghost var elapsed := world;
      RecordStart(op, release);
      KeepsTransitive(before, elapsed, world, legacy);
      ghost var begun := world;
      Elapse();
      KeepsTransitive(before, begun, world, legacy);
      var _ :- Try();
      ghost var started := world;
      Settle(op, release);
      KeepsTransitive(before, started, world, legacy);
      r := Done(());
    }

    method RecordStart(op: Operation, release: Release)
      requires Good() && MayStart(world, op, release)
      modifies this`world
      ensures Good() && Keeps(old(world), world, legacy) && Working(op)
      ensures world == BeginStart(old(world), op, release)
    {
      hide Inv, Keeps;
      Take(Effect.Start(op, release));
    }

    method Settle(op: Operation, release: Release)
      requires Good() && Working(op) && release in world.running && release in {op.source, op.target}
      modifies this`world
      ensures Good() && Keeps(old(world), world, legacy) && Working(op)
      ensures world == SettleOn(old(world), release)
    {
      hide Inv, Keeps;
      Take(Effect.Settle(release));
    }

    /** Publishes the running release in state.json. */
    method WriteState(op: Operation, release: Release) returns (r: Outcome<()>)
      requires Good() && Working(op) && release in {op.source, op.target} && world.running == {release}
      modifies this`world, this`faults
      ensures Good() && Keeps(old(world), world, legacy) && Working(op)
      ensures world in {old(world), Publish(old(world), release)}
      ensures r.Done? ==> world.current == release
      ensures faults >= old(faults) && (faults == old(faults) ==> r.Done?)
    {
      hide Inv, CloseWasLost;
      r := Try();
      var written: bool := *;
      if r.Done? || written {
        Take(Effect.WriteState(op, release));
      }
    }

    /** Writes the immutable binding of a release once and then moves the pointer (append_binding). */
    method AppendBinding(op: Operation, release: Release, head: Head) returns (r: Outcome<()>)
      requires Good() && Working(op) && release in {op.source, op.target}
      requires world.current == release && head == world.live.head && release.head == head
      modifies this`world, this`faults
      ensures Good() && Keeps(old(world), world, legacy) && Working(op)
      ensures world == old(world).(bindings := world.bindings, pointer := world.pointer)
      ensures forall x :: x in old(world).bindings ==> x in world.bindings && world.bindings[x] == old(world).bindings[x]
      ensures faults >= old(faults) && (faults == old(faults) ==> r.Done?)
      ensures r.Done? ==> world.pointer == release && release in world.bindings && world.bindings[release] == head
    {
      hide Inv, Keeps, CloseWasLost;
      BindingsFit(world, legacy);
      KeepsItself(world, legacy);
      if release in world.bindings && world.bindings[release] != head {
        return Raised;
      }
      ghost var before := world;
      r := FileBinding(op, release);
      if !r.Done? {
        return;
      }
      ghost var filed := world;
      r := PointAt(op, release);
      KeepsTransitive(before, filed, world, legacy);
    }

    method FileBinding(op: Operation, release: Release) returns (r: Outcome<()>)
      requires Good() && MayName(world, op, release) && world.current == release && release.head == world.live.head
      requires release in world.bindings ==> world.bindings[release] == world.live.head
      modifies this`world, this`faults
      ensures Good() && Keeps(old(world), world, legacy)
      ensures world in {old(world), Apply(old(world), Effect.WriteBinding(op, release))}
      ensures faults >= old(faults) && (faults == old(faults) ==> r.Done?)
      ensures r.Done? ==> world == Apply(old(world), Effect.WriteBinding(op, release))
    {
      KeepsItself(world, legacy);
      hide Inv, Keeps, MayName;
      var _ :- Try();
      Take(Effect.WriteBinding(op, release));
      r := Done(());
    }

    method PointAt(op: Operation, release: Release) returns (r: Outcome<()>)
      requires Good() && MayName(world, op, release) && world.current == release
      requires release in world.bindings && world.bindings[release] == world.live.head
      modifies this`world, this`faults
      ensures Good() && Keeps(old(world), world, legacy)
      ensures world in {old(world), Apply(old(world), Effect.MovePointer(op, release))}
      ensures faults >= old(faults) && (faults == old(faults) ==> r.Done?)
      ensures r.Done? ==> world == Apply(old(world), Effect.MovePointer(op, release))
    {
      KeepsItself(world, legacy);
      hide Inv, Keeps, MayName;
      var _ :- Try();
      Take(Effect.MovePointer(op, release));
      r := Try();
    }

    // ----- beginning and closing the operation -----

    /** Begins an operation, or resumes exactly the pending one with its original clock. */
    method Begin(kind: Kind, source: Release, target: Release) returns (r: Outcome<Operation>)
      requires Good() && state == world.host && Bound(world)
      requires source.head == H40 && (if kind.FullRollback? then target == legacy else target.head == H40)
      requires !HasPending(world) ==> source == world.current && (kind.FullRollback? || world.host.rehearsed)
      modifies this`world, this`state, this`faults
      ensures Good() && Keeps(old(world), world, legacy)
      ensures HasPending(old(world)) ==>
                && world == old(world) && state == old(state) && !r.Crashed?
                && (r.Done? <==> Resumable(world) && LastOperation(world).kind == kind
                                 && LastOperation(world).source == source && LastOperation(world).target == target)
      ensures !HasPending(old(world)) ==>
                && (world.log == old(world).log
                    || (world.log == old(world).log + [LastOperation(world)]
                        && LastOperation(world).stoppedAt == old(world).now
                        && LastOperation(world).kind == kind))
                && world == old(world).(log := world.log, host := world.host)
                && (r.Done? ==> state == world.host && state.operation == Some(r.value))
      ensures faults >= old(faults) && (faults == old(faults) && !HasPending(old(world)) ==> r.Done?)
      ensures HasPending(old(world)) ==> faults == old(faults)
      ensures r.Done? ==> Working(r.value) && Claims(r.value)
                          && r.value.kind == kind && r.value.source == source && r.value.target == target
    {
      hide Inv;
      if HasPending(world) {
        var pending := LastOperation(world);
        if pending.kind != kind || pending.source != source || pending.target != target || !Resumable(world) {
          return Raised;
        }
        return Done(pending);
      }
      var op := NewOperation(world, kind, source, target);
      var _ :- Try();
      state := Claimed(state, op);
      var ending := Try();
      var saved: bool := *;
      if !ending.Done? && !saved {
        Take(Effect.Record(op));
        return if ending.Raised? then Raised else Crashed;
      }
      Take(Effect.RecordAndSave(op));
      r := if ending.Done? then Done(op) else if ending.Raised? then Raised else Crashed;
    }

    /** The operation is closed on a release, although the write that closed it has raised. */
    ghost predicate Lost(op: Operation, release: Release)
      reads this`world, this`state
    {
      && !HasPending(world) && world.log != []
      && LastOperation(world) == ClosedOn(op, release, release.head) && op in world.log
      && CloseWasLost(world.trace, op) && state.rehearsed == world.host.rehearsed
      && world.current == release && world.pointer == release && world.running <= {release}
    }

    /** Closes the operation on a release: only with a proof of the live layout, after state.json names
        that release and the pointer binds it, and after its containers were seen healthy. */
    method Close(op: Operation, head: Head, release: Release, phase: HostPhase) returns (r: Outcome<()>)
      requires Good() && Working(op) && Claims(op)
      requires release in {op.source, op.target} && release.head == head && head == world.live.head
      requires world.running <= {release}
      requires head == H38 ==> phase == RolledBackPhase
      requires op.kind.FullRollback? ==> release == op.target
      modifies this`world, this`state, this`faults
      ensures Good() && Keeps(old(world), world, legacy)
      ensures world.running == old(world).running && world.live.head == old(world).live.head
      ensures world.current == old(world).current && world.journals == old(world).journals
      ensures world.strays == old(world).strays
      ensures faults >= old(faults) && (faults == old(faults) && old(world).current == release && old(world).running == {release} ==> r.Done?)
      ensures r.Done? ==> world.log != [] && LastOperation(world) == ClosedOn(op, release, head) && world.running == {release}
      ensures r.Done? ==> !HasPending(world) && world.current == release && world.pointer == release
                          && world.host == state && state.phase == phase
      ensures r.Raised? ==> (Working(op) && Claims(op)) || Lost(op, release)
      ensures r.Crashed? ==> Working(op) || !HasPending(world)
    {
      hide Inv, CloseWasLost;
      if world.current != release {
        return Raised;
      }
      var _ :- AppendBinding(op, release, head);
      Elapse();
      if !InWindow(world.now, op.stoppedAt) {
        Deny(true);
        return Raised;
      }
      if world.running != {release} {
        return Raised;
      }
      var _ :- Try();
      ghost var bound := world;
      r := SaveClosed(op, release, phase);
      KeepsTransitive(old(world), bound, world, legacy);
    }

    /** The two closing writes: the host journal, then the operation itself. */
    method SaveClosed(op: Operation, release: Release, phase: HostPhase) returns (r: Outcome<()>)
      requires Good() && Working(op) && Claims(op) && op.phase.Pending?
      requires release in {op.source, op.target} && release.head == world.live.head
      requires world.current == world.pointer == release && world.running == {release}
      requires world.pointer in world.bindings && world.bindings[world.pointer] == world.live.head
      requires world.live.head == H38 ==> phase == RolledBackPhase
      requires op.kind.FullRollback? ==> release == op.target
      modifies this`world, this`state, this`faults
      ensures Good() && Keeps(old(world), world, legacy)
      ensures world == old(world).(host := world.host, log := world.log, trace := world.trace)
      ensures faults >= old(faults) && (faults == old(faults) ==> r.Done?)
      ensures r.Done? ==> world.log != [] && LastOperation(world) == ClosedOn(op, release, release.head)
      ensures r.Done? ==> !HasPending(world) && world.host == state && state.phase == phase
      ensures r.Raised? ==> (Working(op) && Claims(op)) || Lost(op, release)
      ensures r.Crashed? ==> Working(op) || !HasPending(world)
    {
      hide Inv, CloseWasLost;
      var closed := ClosedOn(op, release, release.head);
      state := state.(phase := phase, operation := Some(closed));
      var _ :- Save(op);
      r := WriteClosed(op, closed);
    }

    /** Replaces the operation file by a closed record; the write may raise before or after that. */
    method WriteClosed(last: Operation, closed: Operation) returns (r: Outcome<()>)
      requires Good() && MayClose(world, last, closed)
      modifies this`world, this`faults
      ensures Good() && Keeps(old(world), world, legacy)
      ensures faults >= old(faults) && (faults == old(faults) ==> r.Done?)
      ensures r.Done? ==> world == CloseOn(old(world), closed)
      ensures r.Raised? ==> world in {old(world), LoseClose(old(world), closed)}
      ensures r.Crashed? ==> world in {old(world), CloseOn(old(world), closed)}
      ensures world == LoseClose(old(world), closed) ==> CloseWasLost(world.trace, last) && last in world.log
    {
      hide Inv, CloseWasLost;
      r := Try();
      var written: bool := *;
      if r.Done? || written {
        TraceGrows(world.trace, CloseLost(closed));
        Take(Effect.WriteClosed(last, closed, r.Raised?));
      }
    }

    // ----- hand-over between 0040 runtimes -----

    /** Replaces one runtime by another, and puts the first one back when the second does not start
        (apply and restore of deploy.py, which share this core). */
    method ReplaceRuntime(op: Operation) returns (r: Outcome<()>)
      requires Good() && Working(op) && !op.kind.FullRollback? && world.current == op.source
      modifies this`world, this`faults
      ensures Good() && Keeps(old(world), world, legacy) && Working(op)
      ensures world.host == old(world).host && world.log == old(world).log
      ensures faults >= old(faults) && (faults == old(faults) ==> r.Done?)
      ensures r.Done? ==> world.current == op.target && world.running == {op.target} && world.strays == {}
    {
      HandoverHeads(world, op, legacy);
      hide Inv, Keeps, Resumable;
      ghost var before := world;
      r := InspectBoth(op);
      if !r.Done? {
        return;
      }
      ghost var inspected := world;
      r := StopThenStart(op, op.source, op.target);
      ghost var started := world;
      KeepsTransitive(before, inspected, started, legacy);
      if r.Raised? {
        r := StopThenStart(op, op.target, op.source);
        KeepsTransitive(before, started, world, legacy);
        return if r.Crashed? then Crashed else Raised;
      }
      if r.Done? {
        r := NameTarget(op);
        KeepsTransitive(before, started, world, legacy);
      }
    }

    /** What apply and restore check before they touch anything. */
    method InspectBoth(op: Operation) returns (r: Outcome<()>)
      requires Good() && Working(op) && op.source.head == world.live.head && op.target.head == world.live.head
      modifies this`world, this`faults
      ensures Good() && Keeps(old(world), world, legacy) && Working(op)
      ensures world == old(world).(now := world.now, live := world.live, accepted := world.accepted)
      ensures world.live.head == old(world).live.head
      ensures faults >= old(faults) && (faults == old(faults) ==> r.Done?)
    {
      hide Inv;
      var _ :- Try();
      var _ :- Probe(op.source, op.stoppedAt);
      r := Probe(op.target, op.stoppedAt);
    }

    method NameTarget(op: Operation) returns (r: Outcome<()>)
      requires Good() && Working(op) && world.running == {op.target} && op.target.head == world.live.head
      modifies this`world, this`faults
      ensures Good() && Keeps(old(world), world, legacy) && Working(op)
      ensures world.host == old(world).host && world.log == old(world).log
      ensures world.running == old(world).running && world.strays <= old(world).strays
      ensures faults >= old(faults) && (faults == old(faults) ==> r.Done?)
      ensures r.Done? ==> world.current == op.target
    {
      hide Inv;
      var _ :- WriteState(op, op.target);
      r := AppendBinding(op, op.target, world.live.head);
    }

    /** Stops one allowed release, probes the other and starts it. */
    method StopThenStart(op: Operation, stopped: Release, started: Release) returns (r: Outcome<()>)
      requires Good() && Working(op) && !op.kind.FullRollback?
      requires {stopped, started} == {op.source, op.target}
      modifies this`world, this`faults
      ensures Good() && Keeps(old(world), world, legacy) && Working(op)
      ensures world == old(world).(now := world.now, live := world.live, accepted := world.accepted,
                                   running := world.running, strays := world.strays, trace := world.trace)
      ensures faults >= old(faults) && (faults == old(faults) ==> r.Done?)
      ensures r.Done? ==> world.running == {started} && world.strays == {}
    {
      hide LegalLog, Sound, IdleInv, SafeTrace, Restarted, CloseWasLost;
      var _ :- StopRelease(stopped, Window(op.stoppedAt));
      assert world.running <= {started} + world.strays;
      var _ :- Probe(started, op.stoppedAt);
      r := StartRelease(op, started);
    }

    /** The attempt to reach the target; a retry that finds it published only verifies it again. */
    method ReachTarget(op: Operation) returns (r: Outcome<()>)
      requires Good() && Working(op) && Claims(op) && !op.kind.FullRollback?
      modifies this`world, this`state, this`faults
      ensures Good() && Keeps(old(world), world, legacy)
      ensures faults >= old(faults) && (faults == old(faults) ==> r.Done?)
      ensures r.Done? ==> !HasPending(world) && world.current == op.target && world.pointer == op.target
                          && world.live.head == H40
      ensures r.Raised? ==> (Working(op) && Claims(op)) || (Lost(op, op.target) && world.strays == {})
    {
      HandoverHeads(world, op, legacy);
      hide Inv, Keeps, CloseWasLost, Resumable;
      ghost var before := world;
      if world.current != op.target {
        r := ReplaceRuntime(op);
      } else {
        r := VerifyTarget(op);
      }
      if r.Done? {
        ghost var reached := world;
        r := ProveAndClose(op, op.target);
        KeepsTransitive(before, reached, world, legacy);
      }
    }

    /** What a retry does that finds the target published. */
    method VerifyTarget(op: Operation) returns (r: Outcome<()>)
      requires Good() && Working(op) && !op.kind.FullRollback? && world.current == op.target && world.live.head == op.target.head
      modifies this`world, this`faults
      ensures Good() && Keeps(old(world), world, legacy) && Working(op)
      ensures world.host == old(world).host && world.current == old(world).current
      ensures faults >= old(faults) && (faults == old(faults) ==> r.Done?)
      ensures r.Done? ==> world.running == {op.target} && world.strays == {}
    {
      hide Inv;
      var _ :- Probe(op.target, op.stoppedAt);
      r := StartRelease(op, op.target);
    }

    /** The last validation and the closing of a hand-over on the release that runs and is published. */
    method ProveAndClose(op: Operation, release: Release) returns (r: Outcome<()>)
      requires Good() && Working(op) && Claims(op) && !op.kind.FullRollback? && release in {op.source, op.target}
      requires world.running == {release} && world.current == release
      modifies this`world, this`state, this`faults
      ensures Good() && Keeps(old(world), world, legacy)
      ensures faults >= old(faults) && (faults == old(faults) ==> r.Done?)
      ensures r.Done? ==>
                && !HasPending(world) && world.log != [] && LastOperation(world) == ClosedOn(op, release, H40)
                && world.current == release == world.pointer && world.running == {release} && world.live.head == H40
      ensures world.strays == old(world).strays
      ensures r.Raised? ==> (Working(op) && Claims(op)) || Lost(op, release)
    {
      HandoverHeads(world, op, legacy);
      hide Inv, Keeps, CloseWasLost, Resumable;
      ghost var before := world;
      var head :- Validate(Some(H40), false);
      ghost var validated := world;
      r := Close(op, head, release, Ready);
      KeepsTransitive(before, validated, world, legacy);
    }

    /** The handler of a failed attempt: bring the source back and close on it. */
    method ReturnToSource(op: Operation) returns (r: Outcome<()>)
      requires Good() && Working(op) && Claims(op) && !op.kind.FullRollback?
      modifies this`world, this`state, this`faults
      ensures Good() && Keeps(old(world), world, legacy)
      ensures faults >= old(faults) && (faults == old(faults) ==> r.Done?)
      ensures r.Done? ==> !HasPending(world) && world.current == op.source && world.pointer == op.source
      ensures r.Done? ==> Restored(op)
      ensures r.Raised? ==> (Working(op) && Claims(op)) || !HasPending(world)
    {
      HandoverHeads(world, op, legacy);
      hide Inv, CloseWasLost;
      var _ :- StopThenStart(op, op.target, op.source);
      ghost var started := world;
      r := CloseOnSource(op);
      KeepsTransitive(old(world), started, world, legacy);
    }

    method CloseOnSource(op: Operation) returns (r: Outcome<()>)
      requires Good() && Working(op) && Claims(op) && !op.kind.FullRollback? && op.source.head == H40 && world.running == {op.source}
      modifies this`world, this`state, this`faults
      ensures Good() && Keeps(old(world), world, legacy)
      ensures faults >= old(faults) && (faults == old(faults) ==> r.Done?)
      ensures r.Done? ==> !HasPending(world) && world.current == op.source && world.pointer == op.source
      ensures r.Done? ==> Restored(op)
      ensures r.Raised? ==> (Working(op) && Claims(op)) || !HasPending(world)
    {
      hide Inv, Keeps, CloseWasLost, Resumable;
      ghost var before := world;
      r := WriteState(op, op.source);
      if !r.Done? {
        return;
      }
      ghost var written := world;
      r := ProveAndClose(op, op.source);
      KeepsTransitive(before, written, world, legacy);
    }

    // ----- the same handler, entered with its operation already closed -----

    /** Starts the source outside any pending operation. */
    method Restart(op: Operation) returns (r: Outcome<()>)
      requires Good() && Abandoned(world, op) && world.current == op.target == world.pointer
      requires world.running == {} && world.strays == {}
      modifies this`world, this`faults
      ensures Good() && Keeps(old(world), world, legacy) && Abandoned(world, op)
      ensures world == old(world).(now := world.now, live := world.live, accepted := world.accepted,
                                   running := world.running, strays := world.strays, trace := world.trace)
      ensures faults >= old(faults) && (faults == old(faults) ==> r.Done?)
      ensures r.Done? ==> world.running == {op.source} == world.strays
    {
      hide Inv, CloseWasLost;
      Elapse();
      if !InWindow(world.now, op.stoppedAt) {
        Deny(true);
        return Raised;
      }
      TraceGrows(world.trace, StartOf(world, op, op.source, false));
      Take(Effect.Restart(op));
      Elapse();
      r := Try();
    }

    /** state.json goes back to the source; until the pointer follows, the world is wedged. */
    method Republish(op: Operation) returns (r: Outcome<()>)
      requires Good() && Abandoned(world, op) && world.current == op.target == world.pointer && world.running == {op.source}
      modifies this`world, this`faults
      ensures Good() && Keeps(old(world), world, legacy) && Abandoned(world, op)
      ensures world in {old(world), Publish(old(world), op.source)}
      ensures faults >= old(faults) && (faults == old(faults) ==> r.Done?)
      ensures r.Done? ==> world == Publish(old(world), op.source)
    {
      hide Inv, CloseWasLost;
      r := Try();
      var written: bool := *;
      if r.Done? || written {
        Take(Effect.WriteState(op, op.source));
      }
    }

    method Rebind(op: Operation) returns (r: Outcome<()>)
      requires Good() && Abandoned(world, op) && world.current == op.source && world.pointer in {op.source, op.target}
      modifies this`world, this`faults
      ensures Good() && Keeps(old(world), world, legacy) && Abandoned(world, op)
      ensures world == old(world).(bindings := world.bindings, pointer := world.pointer)
      ensures faults >= old(faults) && (faults == old(faults) ==> r.Done?)
      ensures r.Done? ==> world.pointer == op.source && op.source in world.bindings && world.bindings[op.source] == H40
    {
      hide Inv, Keeps, CloseWasLost;
      BindingsFit(world, legacy);
      KeepsItself(world, legacy);
      if op.source in world.bindings && world.bindings[op.source] != H40 {
        return Raised;
      }
      ghost var before := world;
      r := FileBinding(op, op.source);
      if !r.Done? {
        return;
      }
      ghost var filed := world;
      r := PointAt(op, op.source);
      KeepsTransitive(before, filed, world, legacy);
    }

    /** The second closing of the operation, on its source. */
    method CloseAgain(op: Operation) returns (r: Outcome<()>)
      requires Good() && Abandoned(world, op) && world.current == op.source && world.pointer in {op.source, op.target}
      requires state.rehearsed == world.host.rehearsed
      modifies this`world, this`state, this`faults
      ensures Good() && Keeps(old(world), world, legacy)
      ensures faults >= old(faults) && (faults == old(faults) && old(world).running == {op.source} ==> r.Done?)
      ensures r.Done? ==> Restored(op)
      ensures r.Done? ==> !HasPending(world) && world.current == op.source == world.pointer
    {
      hide Inv, Keeps, CloseWasLost;
      ghost var before := world;
      var _ :- Rebind(op);
      ghost var rebound := world;
      Elapse();
      KeepsTransitive(before, rebound, world, legacy);
      if !InWindow(world.now, op.stoppedAt) {
        Deny(true);
        return Raised;
      }
      if world.running != {op.source} {
        return Raised;
      }
      var _ :- Try();
      ghost var elapsed := world;
      r := SaveClosedAgain(op);
      KeepsTransitive(before, elapsed, world, legacy);
    }

    method SaveClosedAgain(op: Operation) returns (r: Outcome<()>)
      requires Good() && Abandoned(world, op) && world.current == op.source == world.pointer && world.running == {op.source}
      requires state.rehearsed == world.host.rehearsed
      requires op.source in world.bindings && world.bindings[op.source] == H40
      modifies this`world, this`state, this`faults
      ensures Good() && Keeps(old(world), world, legacy)
      ensures faults >= old(faults) && (faults == old(faults) ==> r.Done?)
      ensures r.Done? ==> Restored(op)
      ensures r.Done? ==> !HasPending(world) && world.current == op.source == world.pointer
    {
      hide Inv, Keeps, CloseWasLost;
      ghost var before := world;
      state := state.(phase := Ready, operation := Some(ClosedOn(op, op.source, H40)));
      var _ :- SaveIdle();
      ghost var saved := world;
      r := WriteClosed(ClosedOn(op, op.target, H40), ClosedOn(op, op.source, H40));
      KeepsTransitive(before, saved, world, legacy);
    }

    method RestartSource(op: Operation) returns (r: Outcome<()>)
      requires Good() && Abandoned(world, op) && world.current == op.target == world.pointer
      requires world.running <= {op.target} && world.strays == {} && state.rehearsed == world.host.rehearsed
      modifies this`world, this`state, this`faults
      ensures Good() && Keeps(old(world), world, legacy)
      ensures faults >= old(faults) && (faults == old(faults) ==> r.Done?)
      ensures r.Done? ==> Restored(op)
      ensures r.Done? ==> !HasPending(world) && world.current == op.source == world.pointer
    {
      hide Inv, Keeps, CloseWasLost;
      ghost var before := world;
      r := StopTarget(op);
      if !r.Done? {
        return;
      }
      ghost var stopped := world;
      r := Restart(op);
      ghost var restarted := world;
      KeepsTransitive(before, stopped, restarted, legacy);
      if !r.Done? {
        return;
      }
      r := ReturnAgain(op);
      KeepsTransitive(before, restarted, world, legacy);
    }

    method StopTarget(op: Operation) returns (r: Outcome<()>)
      requires Good() && Abandoned(world, op)
      modifies this`world, this`faults
      ensures Good() && Keeps(old(world), world, legacy) && Abandoned(world, op)
      ensures world == old(world).(now := world.now, live := world.live, accepted := world.accepted, running := world.running)
      ensures world.running <= old(world).running
      ensures faults >= old(faults) && (faults == old(faults) ==> r.Done?)
      ensures r.Done? ==> op.target !in world.running
    {
      hide Inv, CloseWasLost;
      var _ :- StopRelease(op.target, Window(op.stoppedAt));
      r := Probe(op.source, op.stoppedAt);
    }

    method ReturnAgain(op: Operation) returns (r: Outcome<()>)
      requires Good() && Abandoned(world, op) && world.current == op.target == world.pointer
      requires world.running == {op.source} && state.rehearsed == world.host.rehearsed
      modifies this`world, this`state, this`faults
      ensures Good() && Keeps(old(world), world, legacy)
      ensures faults >= old(faults) && (faults == old(faults) ==> r.Done?)
      ensures r.Done? ==> Restored(op)
      ensures r.Done? ==> !HasPending(world) && world.current == op.source == world.pointer
    {
      hide Inv, CloseWasLost;
      var _ :- Republish(op);
      var _ :- Validate(Some(H40), false);
      r := CloseAgain(op);
    }

    /** The handler of a hand-over whose close was lost: it takes the closed target down again. */
    method RecoverClosed(op: Operation) returns (r: Outcome<()>)
      requires Good() && Abandoned(world, op) && world.current == op.target == world.pointer
      requires world.running <= {op.target} && world.strays == {} && state.rehearsed == world.host.rehearsed
      requires cleanupAttempts == map[] && !noted && caught == Some(Catch(op, faults, world)) && op in world.log
      modifies this`world, this`state, this`cleanupAttempts, this`noted, this`faults
      ensures Good() && Keeps(old(world), world, legacy)
      ensures !r.Done? && faults >= old(faults) && (r.Raised? ==> Handled())
    {
      hide Inv, CloseWasLost;
      r := SaveIdle();
      if !r.Done? {
        return;
      }
      noted := true;
      r := RestartSource(op);
      if r.Raised? {
        r := DrainBoth(op.target, op.source);
      }
      r := if r.Crashed? then Crashed else Raised;
    }

    /** The release an operation starts from: the pending one's, or else the bound one. */
    method SourceRelease() returns (source: Release)
      requires Good() && Bound(world)
      ensures if HasPending(world) then source == LastOperation(world).source && source.head == H40
              else source == world.pointer == world.current
    {
      hide LegalLog, SafeTrace, Sound;
      source := if HasPending(world) then LastOperation(world).source else world.pointer;
    }

    /** `release` and `runtime restore`: move from the bound runtime to another one of the same layout. */
    method ReleaseTo(target: Release, restore: bool) returns (r: Outcome<()>)
      requires Good() && state == world.host && New()
      modifies this
      ensures Good() && Keeps(old(world), world, legacy)
      ensures r.Done? ==> !HasPending(world) && world.current == target && world.pointer == target && world.live.head == H40
      ensures faults >= old(faults) && (faults == old(faults) && MayRelease(old(world), target, restore) ==> r.Done?)
      ensures r.Raised? && caught.Some? ==> Handled()
      ensures r.Raised? && caught.None? ==> world.running == old(world).running && world.trace == old(world).trace
      ensures Stuck(old(world)) ==> !r.Done?
      ensures Wedged(old(world)) ==> r.Raised? && world == old(world)
    {
      KeepsItself(world, legacy);
      IdleLegacyIsRolledBack(world, legacy);
      hide Inv, Keeps, CloseWasLost;
      if !Bound(world) {
        return Raised;
      }
      var kind := if restore then RuntimeRestore else Handover;
      if !state.rehearsed {
        return Raised;
      }
      if HasPending(world) && (LastOperation(world).kind != kind || LastOperation(world).target != target) {
        return Raised;
      }
      var source := SourceRelease();
      if source.head != H40 || target.head != H40 {
        return Raised;
      }
      ghost var before := world;
      var op :- BeginRelease(kind, source, target);
      ghost var begun := world;
      r := ContinueRelease(op);
      KeepsTransitive(before, begun, world, legacy);
    }

    /** Validates the live layout in a short probe and begins or resumes the operation. */
    method BeginRelease(kind: Kind, source: Release, target: Release) returns (r: Outcome<Operation>)
      requires Good() && state == world.host && Bound(world) && !kind.FullRollback?
      requires source.head == H40 && target.head == H40
      requires if HasPending(world) then source == LastOperation(world).source else source == world.current && world.host.rehearsed
      modifies this`world, this`state, this`deadline, this`faults
      ensures Good() && Keeps(old(world), world, legacy)
      ensures Stuck(old(world)) ==> !r.Done?
      ensures r.Done? ==> Working(r.value) && Claims(r.value) && r.value.kind == kind && r.value.target == target
      ensures world.running == old(world).running && world.trace == old(world).trace
      ensures faults >= old(faults)
      ensures faults == old(faults) && old(world).live.head == H40
              && (HasPending(old(world)) ==> Resumable(old(world)) && LastOperation(old(world)).kind == kind && LastOperation(old(world)).target == target)
              ==> r.Done?
    {
      hide Inv, CloseWasLost;
      deadline := Some(world.now + PROBE_SECONDS);
      var _ :- Validate(Some(H40), false);
      ghost var validated := world;
      r := Begin(kind, source, target);
      KeepsTransitive(old(world), validated, world, legacy);
    }

    method ContinueRelease(op: Operation) returns (r: Outcome<()>)
      requires Good() && Working(op) && Claims(op) && !op.kind.FullRollback? && New()
      modifies this
      ensures Good() && Keeps(old(world), world, legacy)
      ensures r.Done? ==> !HasPending(world) && world.current == op.target && world.pointer == op.target && world.live.head == H40
      ensures faults >= old(faults) && (faults == old(faults) ==> r.Done?)
      ensures r.Raised? && caught.Some? ==> Handled()
      ensures r.Raised? && caught.None? ==> world.running == old(world).running && world.trace == old(world).trace
    {
      KeepsItself(world, legacy);
      hide Inv, Keeps, CloseWasLost;
      var left :- Left(op.stoppedAt, WINDOW_SECONDS);
      deadline := Some(world.now + left);
      r := HandOver(op);
    }

    /** The attempt, and its handler when it raises: with the operation still pending or, after a lost close,
        already closed. */
    method HandOver(op: Operation) returns (r: Outcome<()>)
      requires Good() && Working(op) && Claims(op) && !op.kind.FullRollback? && New()
      modifies this
      ensures Good() && Keeps(old(world), world, legacy)
      ensures r.Done? ==> !HasPending(world) && world.current == op.target && world.pointer == op.target && world.live.head == H40
      ensures faults >= old(faults) && (faults == old(faults) ==> r.Done?)
      ensures r.Raised? ==> caught.Some? && Handled()
    {
      HandoverHeads(world, op, legacy);
      hide Inv, Keeps, CloseWasLost;
      ghost var before := world;
      r := GuardedReach(op);
      if r.Raised? {
        ghost var failed := world;
        if HasPending(world) {
          r := RecoverHandover(op);
        } else {
          ClosedOnLiveHead(world, legacy);
          r := RecoverClosed(op);
        }
        KeepsTransitive(before, failed, world, legacy);
      }
    }

    /** The guarded part; how it raised is remembered for the handler. */
    method GuardedReach(op: Operation) returns (r: Outcome<()>)
      requires Good() && Working(op) && Claims(op) && !op.kind.FullRollback? && New()
      modifies this`world, this`state, this`caught, this`faults
      ensures Good() && Keeps(old(world), world, legacy)
      ensures r.Done? ==> !HasPending(world) && world.current == op.target && world.pointer == op.target && world.live.head == H40
      ensures faults >= old(faults) && (faults == old(faults) ==> r.Done?)
      ensures caught == if r.Raised? then Some(Catch(op, faults, world)) else None
      ensures r.Raised? ==> op in world.log && ((Working(op) && Claims(op)) || (Lost(op, op.target) && world.strays == {}))
    {
      hide Inv, CloseWasLost;
      r := ReachTarget(op);
      caught := if r.Raised? then Some(Catch(op, faults, world)) else None;
    }

    method RecoverHandover(op: Operation) returns (r: Outcome<()>)
      requires Good() && Working(op) && Claims(op) && !op.kind.FullRollback?
      requires cleanupAttempts == map[] && !noted && caught == Some(Catch(op, faults, world)) && op in world.log
      modifies this`world, this`state, this`cleanupAttempts, this`noted, this`faults
      ensures Good() && Keeps(old(world), world, legacy)
      ensures !r.Done? && faults >= old(faults) && (r.Raised? ==> Handled())
    {
      hide Inv;
      var _ :- Save(op);
      noted := true;
      r := ReturnToSource(op);
      if r.Raised? {
        r := DrainBoth(op.target, op.source);
      }
      r := if r.Crashed? then Crashed else Raised;
    }

    // ----- the full reverse rollback -----

    /** One conversion container of the reverse journal; only the full kind exists here. */
    method Convert(op: Operation, command: Command) returns (r: Outcome<()>)
      requires Good() && Working(op) && op.kind.FullRollback? && world.running == {}
      requires op.source in world.journals
      requires match command
               case CopyCommand => world.journals[op.source].phase in {Prepared, CopyPending, Copied}
                                   && deadline == Some(op.stoppedAt + COPY_SECONDS) && op.stoppedAt <= world.now
               case VerifyCommand => world.journals[op.source].phase in {Copied, Verified}
               case SwitchCommand => world.journals[op.source].phase in {Verified, SwitchPending, Switched}
      modifies this`world, this`faults
      ensures Good() && Keeps(old(world), world, legacy) && Working(op)
      ensures world == old(world).(now := world.now, live := world.live, journals := world.journals, trace := world.trace)
      ensures op.source in world.journals
      ensures !command.SwitchCommand? ==> world.live == old(world).live
      ensures faults >= old(faults) && (faults == old(faults) ==> r.Done?)
      ensures r.Done? && command.CopyCommand? ==> world.journals[op.source].phase == Copied
      ensures r.Done? && command.VerifyCommand? ==> world.journals[op.source].phase == Verified
      ensures r.Done? && command.SwitchCommand? ==> world.journals[op.source].phase == Switched && world.live.head == H38
    {
      hide Inv;
      ghost var before := world;
      Elapse();
      if deadline.Some? && world.now >= deadline.value {
        Deny(true);
        return Raised;
      }
      ghost var elapsed := world;
      Take(Effect.Issue(op, command, world.journals[op.source].phase));
      KeepsTransitive(before, elapsed, world, legacy);
      ghost var issued := world;
      r := RunTool(op, command);
      KeepsTransitive(before, issued, world, legacy);
    }

    method RunTool(op: Operation, command: Command) returns (r: Outcome<()>)
      requires Good() && Working(op) && op.kind.FullRollback? && world.running == {}
      requires op.source in world.journals
      requires match command
               case CopyCommand => world.journals[op.source].phase in {Prepared, CopyPending, Copied} && OnTime(world.now, op.stoppedAt)
               case VerifyCommand => world.journals[op.source].phase in {Copied, Verified}
               case SwitchCommand => world.journals[op.source].phase in {Verified, SwitchPending, Switched}
      modifies this`world, this`faults
      ensures Good() && Keeps(old(world), world, legacy) && Working(op)
      ensures world == old(world).(live := world.live, journals := world.journals)
      ensures op.source in world.journals
      ensures !command.SwitchCommand? ==> world.live == old(world).live
      ensures faults >= old(faults) && (faults == old(faults) ==> r.Done?)
      ensures r.Done? && command.CopyCommand? ==> world.journals[op.source].phase == Copied
      ensures r.Done? && command.VerifyCommand? ==> world.journals[op.source].phase == Verified
      ensures r.Done? && command.SwitchCommand? ==> world.journals[op.source].phase == Switched && world.live.head == H38
    {
      hide Inv, Keeps;
      JournalResumes(world, op, legacy);
      var journal := world.journals[op.source];
      var live := world.live;
      ghost var denied;
      match command {
        case CopyCommand => journal, r, denied := Conversion.Copy(journal, live, op.stoppedAt, world.now);
        case VerifyCommand => journal, r, denied := Conversion.Verify(journal, live, world.now);
        case SwitchCommand => journal, live, r, denied := Conversion.Switch(journal, live, world.now);
      }
      Deny(denied);
      assert Resumes(journal, world.(live := live), op);
      hide Resumes, Holds, Fits;
      Take(Effect.Tool(op, journal, live));
    }

    method ReversePlan(op: Operation) returns (r: Outcome<()>)
      requires Good() && Working(op) && op.kind.FullRollback? && world.running == {} && world.live.head == H40
      requires op.source !in world.journals
      modifies this`world, this`faults
      ensures Good() && Keeps(old(world), world, legacy) && Working(op)
      ensures world == old(world).(journals := world.journals)
      ensures faults >= old(faults) && (faults == old(faults) ==> r.Done?)
      ensures r.Done? ==> op.source in world.journals && world.journals[op.source].dir.Reverse? && Sound(world.journals[op.source])
      ensures !r.Done? ==> world == old(world)
    {
      hide Inv;
      var plan, denied := Conversion.Plan(Reverse, world.live, true);
      Deny(denied);
      var planned :- plan;
      Take(Effect.Tool(op, planned, world.live));
      r := Done(());
    }

    /** Plans and prepares the reverse destinations for the operation's source. */
    method ReversePrepare(op: Operation) returns (r: Outcome<()>)
      requires Good() && Working(op) && op.kind.FullRollback? && world.running == {} && world.live.head == H40
      modifies this`world, this`faults
      ensures Good() && Keeps(old(world), world, legacy) && Working(op)
      ensures world == old(world).(journals := world.journals)
      ensures faults >= old(faults) && (faults == old(faults) ==> r.Done?)
      ensures r.Done? ==> op.source in world.journals && world.journals[op.source].phase !in {Planned, PreparePending}
      ensures op.source in old(world).journals && old(world).journals[op.source].phase !in {Planned, PreparePending} ==>
                world == old(world)
    {
      hide Inv, Keeps, CloseWasLost;
      ghost var before := world;
      KeepsItself(world, legacy);
      if op.source !in world.journals {
        var _ :- ReversePlan(op);
      }
      ghost var planned := world;
      r := FinishPrepare(op);
      KeepsTransitive(before, planned, world, legacy);
    }

    method FinishPrepare(op: Operation) returns (r: Outcome<()>)
      requires Good() && Working(op) && op.kind.FullRollback? && world.running == {} && world.live.head == H40
      requires op.source in world.journals
      modifies this`world, this`faults
      ensures Good() && Keeps(old(world), world, legacy) && Working(op)
      ensures world == old(world).(journals := world.journals) && op.source in world.journals
      ensures faults >= old(faults) && (faults == old(faults) ==> r.Done?)
      ensures r.Done? ==> world.journals[op.source].phase !in {Planned, PreparePending}
      ensures old(world).journals[op.source].phase !in {Planned, PreparePending} ==> world == old(world)
    {
      KeepsItself(world, legacy);
      hide Inv, Keeps;
      JournalResumes(world, op, legacy);
      var journal := world.journals[op.source];
      if journal.phase !in {Planned, PreparePending} {
        return Done(());
      }
      ghost var denied;
      journal, r, denied := Conversion.Prepare(journal, world.live);
      Deny(denied);
      assert Resumes(journal, world, op);
      hide Resumes, Holds, Fits;
      Take(Effect.Tool(op, journal, world.live));
    }

    /** The command loop of the reverse journal: each command is issued only in its own phases. */
    method ConvertFully(op: Operation) returns (r: Outcome<()>)
      requires Good() && Working(op) && op.kind.FullRollback? && world.running == {}
      requires op.source in world.journals
      requires || (deadline == Some(op.stoppedAt + COPY_SECONDS) && op.stoppedAt <= world.now)
               || world.journals[op.source].phase in {SwitchPending, Switched}
      requires world.journals[op.source].phase !in {Planned, PreparePending}
      modifies this`world, this`faults
      ensures Good() && Keeps(old(world), world, legacy) && Working(op)
      ensures world == old(world).(now := world.now, live := world.live, journals := world.journals, trace := world.trace)
      ensures faults >= old(faults) && (faults == old(faults) ==> r.Done?)
      ensures r.Done? ==> op.source in world.journals && world.journals[op.source].phase == Switched
    {
      assert Carried(world.journals[op.source].phase, 0);
      KeepsItself(world, legacy);
      hide Inv, Keeps, Carried;
      var commands := [CopyCommand, VerifyCommand, SwitchCommand];
      for i := 0 to |commands|
        invariant Good() && Keeps(old(world), world, legacy) && Working(op) && world.running == {}
        invariant op.source in world.journals && faults >= old(faults)
        invariant faults == old(faults) ==> Carried(world.journals[op.source].phase, i)
        invariant world == old(world).(now := world.now, live := world.live, journals := world.journals, trace := world.trace)
        invariant i == 0 ==> world == old(world)
      {
        ghost var before := world;
        r := ConvertIfDue(op, commands[i], i);
        KeepsTransitive(old(world), before, world, legacy);
        if !r.Done? {
          return;
        }
      }
      r := if world.journals[op.source].phase == Switched then Done(()) else Raised;
      assert Carried(world.journals[op.source].phase, 3) ==> r.Done? by {
        CarriedThrough(world.journals[op.source].phase);
      }
    }

    /** One of the three commands, if the saved phase asks for it. */
    method ConvertIfDue(op: Operation, command: Command, index: int) returns (r: Outcome<()>)
      requires Good() && Working(op) && op.kind.FullRollback? && world.running == {}
      requires op.source in world.journals && index == (match command case CopyCommand => 0 case VerifyCommand => 1 case SwitchCommand => 2)
      requires command.CopyCommand? ==>
                 || (deadline == Some(op.stoppedAt + COPY_SECONDS) && op.stoppedAt <= world.now)
                 || world.journals[op.source].phase in {SwitchPending, Switched}
      modifies this`world, this`faults
      ensures Good() && Keeps(old(world), world, legacy) && Working(op)
      ensures world == old(world).(now := world.now, live := world.live, journals := world.journals, trace := world.trace)
      ensures op.source in world.journals
      ensures faults >= old(faults) && (faults == old(faults) ==> r.Done?)
      ensures faults == old(faults) && Carried(old(world).journals[op.source].phase, index) ==>
                Carried(world.journals[op.source].phase, index + 1)
    {
      KeepsItself(world, legacy);
      hide Inv, Keeps;
      var phase := world.journals[op.source].phase;
      var due := match command
        case CopyCommand => phase in {Prepared, CopyPending, Copied}
        case VerifyCommand => phase in {Copied, Verified}
        case SwitchCommand => phase in {Verified, SwitchPending, Switched};
      r := Done(());
      if due {
        r := Convert(op, command);
      }
    }

    /** Brings the legacy layout live: by finishing a recorded exchange, or by the full conversion. A
        legacy layout without a recorded exchange is refused. */
    method ExchangeBack(op: Operation, exchanged: bool) returns (r: Outcome<()>)
      requires Good() && Working(op) && op.kind.FullRollback?
      requires exchanged == (op.source in world.journals && world.journals[op.source].phase in {SwitchPending, Switched})
      requires exchanged || (deadline == Some(op.stoppedAt + COPY_SECONDS) && op.stoppedAt <= world.now)
      modifies this`world, this`faults
      ensures Good() && Keeps(old(world), world, legacy) && Working(op)
      ensures world.host == old(world).host && world.current == old(world).current
      ensures faults >= old(faults) && (faults == old(faults) ==> r.Done?)
      ensures r.Done? ==> op.source in world.journals && world.journals[op.source].phase == Switched && world.live.head == H38
      ensures old(world).live.head == H38 && !exchanged ==> !r.Done? && world.trace == old(world).trace
    {
      hide LegalLog, SafeTrace, IdleInv, Sound;
      var budget := if exchanged then RecoveryProbe(op.stoppedAt, world.now) else Window(op.stoppedAt);
      var head :- Validate(None, false);
      if head == H38 {
        if !exchanged {
          return Raised;
        }
        if world.journals[op.source].phase == SwitchPending {
          var _ :- Convert(op, SwitchCommand);
        }
        r := if world.journals[op.source].phase == Switched then Done(()) else Raised;
      } else {
        r := StopAndConvert(op, budget);
      }
    }

    /** Everything is stopped and fenced before the reverse journal is prepared and carried out. */
    method StopAndConvert(op: Operation, budget: Budget) returns (r: Outcome<()>)
      requires Good() && Working(op) && op.kind.FullRollback? && world.live.head == H40
      requires || (deadline == Some(op.stoppedAt + COPY_SECONDS) && op.stoppedAt <= world.now)
               || (op.source in world.journals && world.journals[op.source].phase in {SwitchPending, Switched})
      modifies this`world, this`faults
      ensures Good() && Keeps(old(world), world, legacy) && Working(op)
      ensures world.host == old(world).host && world.current == old(world).current
      ensures faults >= old(faults) && (faults == old(faults) ==> r.Done?)
      ensures r.Done? ==> op.source in world.journals && world.journals[op.source].phase == Switched
    {
      hide Inv;
      var _ :- StopBoth(op, budget);
      var _ :- Validate(Some(H40), true);
      var _ :- ReversePrepare(op);
      r := ConvertFully(op);
    }

    method StopBoth(op: Operation, budget: Budget) returns (r: Outcome<()>)
      requires Good() && Working(op)
      modifies this`world, this`faults
      ensures Good() && Keeps(old(world), world, legacy) && Working(op)
      ensures world == old(world).(now := world.now, live := world.live, accepted := world.accepted, running := world.running)
      ensures world.live.head == old(world).live.head
      ensures faults >= old(faults) && (faults == old(faults) ==> r.Done?)
      ensures r.Done? ==> world.running <= world.strays
    {
      hide LegalLog, SafeTrace, IdleInv, Sound;
      var _ :- StopRelease(op.source, budget);
      r := StopRelease(op.target, budget);
    }

    /** Starts the legacy runtime on the fenced legacy layout and closes the operation on it. */
    method StartLegacy(op: Operation) returns (r: Outcome<()>)
      requires Good() && Working(op) && Claims(op) && op.kind.FullRollback?
      requires op.source in world.journals && world.journals[op.source].phase == Switched && world.live.head == H38
      modifies this`world, this`state, this`deadline, this`faults
      ensures Good() && Keeps(old(world), world, legacy)
      ensures faults >= old(faults) && (faults == old(faults) ==> r.Done?)
      ensures r.Done? ==> !HasPending(world) && world.current == legacy && world.pointer == legacy
                          && world.live.head == H38 && world.host.phase == RolledBackPhase
      ensures r.Raised? ==> (Working(op) && Claims(op)) || !HasPending(world)
    {
      hide Inv, CloseWasLost;
      ghost var before := world;
      r := EnterLegacy(op);
      if r.Done? {
        ghost var entered := world;
        r := CloseOnLegacy(op);
        KeepsTransitive(before, entered, world, legacy);
      }
    }

    /** Fences the legacy layout, announces the start durably and starts the old image. */
    method EnterLegacy(op: Operation) returns (r: Outcome<()>)
      requires Good() && Working(op) && Claims(op) && op.kind.FullRollback?
      requires op.source in world.journals && world.journals[op.source].phase == Switched && world.live.head == H38
      modifies this`world, this`state, this`deadline, this`faults
      ensures Good() && Keeps(old(world), world, legacy)
      ensures faults >= old(faults) && (faults == old(faults) ==> r.Done?)
      ensures r.Done? ==> world.live.head == H38 && world.running == {legacy}
      ensures !r.Crashed? ==> Working(op) && Claims(op)
    {
      hide Inv;
      TargetOfRollback(world, op, legacy);
      var left :- Left(op.stoppedAt, WINDOW_SECONDS);
      deadline := Some(world.now + left);
      var head :- Validate(Some(H38), true);
      TargetOfRollback(world, op, legacy);
      var _ :- Probe(legacy, op.stoppedAt);
      state := state.(oldMayHaveWritten := true, phase := RollbackStarting);
      var _ :- Save(op);
      r := StartRelease(op, legacy);
    }

    /** state.json, the final validation and the closing record, in this order. */
    method CloseOnLegacy(op: Operation) returns (r: Outcome<()>)
      requires Good() && Working(op) && Claims(op) && op.kind.FullRollback?
      requires world.live.head == H38 && world.running == {legacy}
      modifies this`world, this`state, this`deadline, this`faults
      ensures Good() && Keeps(old(world), world, legacy)
      ensures faults >= old(faults) && (faults == old(faults) ==> r.Done?)
      ensures r.Done? ==> !HasPending(world) && world.current == legacy && world.pointer == legacy
                          && world.live.head == H38 && world.host.phase == RolledBackPhase
      ensures r.Raised? ==> (Working(op) && Claims(op)) || !HasPending(world)
    {
      hide Inv, CloseWasLost;
      TargetOfRollback(world, op, legacy);
      var _ :- WriteState(op, legacy);
      var head :- Validate(Some(H38), false);
      r := Close(op, head, legacy, RolledBackPhase);
    }

    /** The copy budget, or a one-minute probe once the exchange is recorded. */
    method ConversionBudget(op: Operation, exchanged: bool) returns (r: Outcome<()>)
      modifies this`deadline, this`faults
      ensures r.Done? && !exchanged ==> deadline == Some(op.stoppedAt + COPY_SECONDS) && op.stoppedAt <= world.now
      ensures !r.Crashed?
      ensures faults >= old(faults) && (faults == old(faults) ==> r.Done?)
    {
      var left := Remaining(world.now, op.stoppedAt, COPY_SECONDS);
      if left.Raised? && exchanged {
        left := Done(PROBE_SECONDS);
      }
      Deny(left.Raised?);
      var seconds :- left;
      deadline := Some(world.now + seconds);
      r := Done(());
    }

    method AttemptRollback(op: Operation, exchanged: bool) returns (r: Outcome<()>)
      requires Good() && Working(op) && Claims(op) && op.kind.FullRollback?
      requires exchanged == (op.source in world.journals && world.journals[op.source].phase in {SwitchPending, Switched})
      requires exchanged || (deadline == Some(op.stoppedAt + COPY_SECONDS) && op.stoppedAt <= world.now)
      modifies this`world, this`state, this`deadline, this`faults
      ensures Good() && Keeps(old(world), world, legacy)
      ensures faults >= old(faults) && (faults == old(faults) ==> r.Done?)
      ensures r.Done? ==> !HasPending(world) && world.current == legacy && world.pointer == legacy
                          && world.live.head == H38 && world.host.phase == RolledBackPhase
      ensures r.Raised? ==> (Working(op) && Claims(op)) || !HasPending(world)
      ensures old(world).live.head == H38 && !exchanged ==> !r.Done? && world.trace == old(world).trace
    {
      hide Inv;
      var _ :- ExchangeBack(op, exchanged);
      r := StartLegacy(op);
    }

    /** The full rollback to the legacy runtime, from whatever journal phase an earlier attempt left. */
    method Rollback() returns (r: Outcome<()>)
      requires Good() && state == world.host && New()
      modifies this
      ensures Good() && Keeps(old(world), world, legacy)
      ensures r.Done? ==> !HasPending(world) && world.host.phase == RolledBackPhase
      ensures r.Done? && world.log != old(world).log ==> world.current == legacy && world.live.head == H38
      ensures faults >= old(faults) && (faults == old(faults) && MayRollback(old(world)) ==> r.Done?)
      ensures r.Raised? && caught.Some? ==>
                caught.value.op in world.log && DrainedBoth(caught.value.op.source, caught.value.op.target)
      ensures r.Raised? && caught.None? ==> world.running == old(world).running && world.trace == old(world).trace
      ensures Stuck(old(world)) ==> !r.Done?
      ensures Wedged(old(world)) ==> r.Raised? && world == old(world)
    {
      KeepsItself(world, legacy);
      IdleLegacyIsRolledBack(world, legacy);
      hide Inv, Keeps;
      if !Bound(world) {
        return Raised;
      }
      if state.phase == RolledBackPhase && !HasPending(world) {
        return Done(());
      }
      var source := SourceRelease();
      if source.head != H40 {
        return Raised;
      }
      ghost var before := world;
      var op :- Begin(FullRollback, source, legacy);
      ghost var begun := world;
      r := ContinueRollback(op);
      KeepsTransitive(before, begun, world, legacy);
    }

    /** The budget, the guarded part, and its handler. */
    method ContinueRollback(op: Operation) returns (r: Outcome<()>)
      requires Good() && Working(op) && Claims(op) && op.kind.FullRollback? && New()
      modifies this
      ensures Good() && Keeps(old(world), world, legacy)
      ensures r.Done? ==> !HasPending(world) && world.current == legacy && world.pointer == legacy
                          && world.live.head == H38 && world.host.phase == RolledBackPhase
      ensures faults >= old(faults) && (faults == old(faults) ==> r.Done?)
      ensures r.Raised? && caught.Some? ==>
                caught.value.op in world.log && DrainedBoth(caught.value.op.source, caught.value.op.target)
      ensures r.Raised? && caught.None? ==> world.running == old(world).running && world.trace == old(world).trace
    {
      KeepsItself(world, legacy);
      hide Inv, Keeps, CloseWasLost;
      ghost var before := world;
      var exchanged := op.source in world.journals && world.journals[op.source].phase in {SwitchPending, Switched};
      var _ :- ConversionBudget(op, exchanged);
      r := GuardedRollback(op, exchanged);
      if r.Raised? {
        ghost var failed := world;
        r := DrainBoth(op.source, op.target);
        r := if r.Crashed? then Crashed else Raised;
        KeepsTransitive(before, failed, world, legacy);
      }
    }

    method GuardedRollback(op: Operation, exchanged: bool) returns (r: Outcome<()>)
      requires Good() && Working(op) && Claims(op) && op.kind.FullRollback? && New()
      requires exchanged == (op.source in world.journals && world.journals[op.source].phase in {SwitchPending, Switched})
      requires exchanged || (deadline == Some(op.stoppedAt + COPY_SECONDS) && op.stoppedAt <= world.now)
      modifies this`world, this`state, this`deadline, this`caught, this`faults
      ensures Good() && Keeps(old(world), world, legacy)
      ensures r.Done? ==> !HasPending(world) && world.current == legacy && world.pointer == legacy
                          && world.live.head == H38 && world.host.phase == RolledBackPhase
      ensures faults >= old(faults) && (faults == old(faults) ==> r.Done?)
      ensures caught == if r.Raised? then Some(Catch(op, faults, world)) else None
      ensures op in world.log
    {
      hide Inv;
      r := AttemptRollback(op, exchanged);
      caught := if r.Raised? then Some(Catch(op, faults, world)) else None;
    }
  }

  /** One command in its own process; a wedged world only sees time and writes pass. */
  method RunCommand(command: FollowupCommand, start: World, legacy: Release) returns (w: World)
    requires Inv(start, legacy)
    ensures Inv(w, legacy) && Keeps(start, w, legacy)
    ensures Wedged(start) ==> w == start.(now := w.now, live := w.live, accepted := w.accepted)
  {
    hide Inv, Keeps;
    var process := new Followup(start, legacy);
    process.Elapse();
    var begun := process.world;
    assert Wedged(start) ==> Wedged(begun);
    match command {
      case ReleaseCommand(target) => var _ := process.ReleaseTo(target, false);
      case RestoreCommand(target) => var _ := process.ReleaseTo(target, true);
      case RollbackCommand => var _ := process.Rollback();
    }
    w := process.world;
    KeepsTransitive(start, begun, w, legacy);
  }

  /** Any history of commands, each in its own process: the invariant, the recorded operations and the
      accepted writes survive; an operation that became stuck stays pending for good, and a wedged world stays
      exactly as it is, whatever is commanded. */
  method RunCommands(commands: seq<FollowupCommand>, start: World, legacy: Release) returns (w: World)
    requires Inv(start, legacy)
    ensures Inv(w, legacy) && Keeps(start, w, legacy)
    ensures Wedged(start) ==> w == start.(now := w.now, live := w.live, accepted := w.accepted)
  {
    hide Inv;
    w := start;
    for i := 0 to |commands|
      invariant Inv(w, legacy) && Keeps(start, w, legacy)
      invariant Wedged(start) ==> w == start.(now := w.now, live := w.live, accepted := w.accepted)
    {
      var next := RunCommand(commands[i], w, legacy);
      KeepsTransitive(start, w, next, legacy);
      w := next;
    }
  }
}

/** Retiring the empty publisher table and repairing its ledger entry forward
    (src/qs_ai/maintenance/empty_publisher_retirement.py, src/qs_ai/maintenance/publisher_window.py).

    Any number of processes take their steps in any order against one database and one directory of private
    files; a process may die between any two steps, which frees its locks and rolls its ledger update back.
    Dropping a table commits at once in MySQL, the ledger row only with its transaction. Approval documents
    are pinned by their digest, so one review stands for every reading of it. */
module Retirement {
  import opened Outcomes

  type Path = string
  type Pid = nat

  const HOUR := 3600

  datatype Head = Previous | Current

  datatype Window = Window(issued: int, expires: int) {
    predicate Open(now: int) {
      && now - HOUR <= issued <= now
      && now < expires <= issued + HOUR
    }
  }

  /** An approval. `sound` stands for its fixed fields: schemas, source, owners, attestations. */
  datatype Review = Review(
    digest: string, sound: bool, ddl: string, operation: string, expires: int,
    retained: string, captured: int, writers: Window)
  {
    /** `_review` accepts it for the given definition of the table. */
    predicate Holds(definition: string, current: bool, now: int) {
      && sound && ddl == definition
      && (current ==> now < expires <= now + HOUR && writers.Open(now))
      && writers.issued <= captured <= writers.expires
    }
  }

  /** An approval of the forward repair; it names the original review by path and digest. */
  datatype Recovery = Recovery(
    digest: string, sound: bool, operation: string, window: Window, writers: Window,
    originalPath: Path, originalDigest: string, original: Review)

  datatype Call = Fresh | Reviewed(path: Path, review: Review)

  datatype Stage =
    | Prepared | Locked | TableChecked | ReviewChecked(at: int) | Looked(at: int) | Consumed(at: int)
    | Dropped | Unlocked | Updated

  datatype Repair = Approved | RowLocked | Proven | LookedAgain | Marked | Moved

  datatype Proc =
    | Idle
    | Retiring(call: Call, ddl: string, stage: Stage)
    | Reconciling(path: Path, recovery: Recovery, repair: Repair)
    | Ended

  datatype Table = Table(ddl: string, rows: nat)

  datatype Event =
    | NotReopened(path: Path)
    | ReopenIssued(path: Path)
    | Compared(path: Path, review: Review, retained: string)
    | MarkerWritten(path: Path, digest: string)
    | DropIssued(call: Call, checkedAt: int, found: Option<Table>)
    | RepairApproved(recovery: Recovery, at: int)
    | Proved(recovery: Recovery, found: Option<Table>, retained: string)
    | LedgerMoved(repair: Option<(Path, Recovery)>, rows: nat, target: Option<Table>)

  datatype Site = Site(
    now: int,
    head: Head,
    table: Option<Table>,
    retained: string,
    tableLock: Option<Pid>,
    rowLock: Option<Pid>,
    consumed: map<Path, string>,
    reopened: set<Path>,
    procs: map<Pid, Proc>,
    trace: seq<Event>)
  {
    function Of(pid: Pid): Proc {
      if pid in procs then procs[pid] else Idle
    }

    function Goto(pid: Pid, p: Proc): Site {
      this.(procs := procs[pid := p])
    }

    function Log(e: Event): Site {
      this.(trace := trace + [e])
    }

    /** A process that fails or dies lets go of its locks; an uncommitted ledger update is undone. */
    function End(pid: Pid): Site {
      Goto(pid, Ended).(tableLock := if tableLock == Some(pid) then None else tableLock,
                        rowLock := if rowLock == Some(pid) then None else rowLock)
    }
  }

  // ----- the steps of a retirement -----

  /** Everything before the lock. Its findings are only a first refusal; those that matter are repeated. */
  function Prepare(s: Site, pid: Pid, call: Call): Site {
    if || !s.Of(pid).Idle?
       || s.head != Previous || s.table.None? || s.table.value.rows != 0
       || (call.Reviewed? && (call.path in s.reopened || !call.review.Holds(s.table.value.ddl, true, s.now)
                              || call.review.retained != s.retained))
    then s.End(pid)
    else
      var looked :=
        if call.Reviewed? then s.Log(NotReopened(call.path)).Log(Compared(call.path, call.review, s.retained)) else s;
      looked.Goto(pid, Retiring(call, s.table.value.ddl, Prepared))
  }

  function TakeLock(s: Site, pid: Pid): Site {
    var p := s.Of(pid);
    if !p.Retiring? || p.stage != Prepared then s
    else if s.table.None? || s.tableLock.Some? then s.End(pid)
    else s.Goto(pid, p.(stage := Locked)).(tableLock := Some(pid))
  }

  function CheckTable(s: Site, pid: Pid): Site {
    var p := s.Of(pid);
    if !p.Retiring? || p.stage != Locked then s
    else if s.table.None? || s.table.value.ddl != p.ddl || s.table.value.rows != 0 then s.End(pid)
    else s.Goto(pid, p.(stage := TableChecked))
  }

  function CheckReview(s: Site, pid: Pid): Site {
    var p := s.Of(pid);
    if !p.Retiring? || p.stage != TableChecked || p.call.Fresh? then s
    else if !p.call.review.Holds(p.ddl, true, s.now) then s.End(pid)
    else s.Goto(pid, p.(stage := ReviewChecked(s.now)))
  }

  function Look(s: Site, pid: Pid): Site {
    var p := s.Of(pid);
    if !p.Retiring? || !p.stage.ReviewChecked? || p.call.Fresh? then s
    else if p.call.path in s.reopened then s.End(pid)
    else s.Goto(pid, p.(stage := Looked(p.stage.at))).Log(NotReopened(p.call.path))
  }

  /** The marker is created exclusively: an existing one refuses the run for good. */
  function Consume(s: Site, pid: Pid): Site {
    var p := s.Of(pid);
    if !p.Retiring? || !p.stage.Looked? || p.call.Fresh? then s
    else if p.call.path in s.consumed then s.End(pid)
    else
      s.Goto(pid, p.(stage := Consumed(p.stage.at)))
      .(consumed := s.consumed[p.call.path := p.call.review.digest])
      .Log(MarkerWritten(p.call.path, p.call.review.digest))
  }

  /** The statement reaches the server or not; its answer may be lost either way. */
  datatype Answer = Confirmed | LostAfter | LostBefore

  function Drop(s: Site, pid: Pid, answer: Answer): Site {
    var p := s.Of(pid);
    if !p.Retiring? || !(if p.call.Fresh? then p.stage == TableChecked else p.stage.Consumed?) then s
    else
      var at := if p.stage.Consumed? then p.stage.at else s.now;
      var issued := s.Log(DropIssued(p.call, at, s.table));
      match answer
      case Confirmed => issued.(table := None).Goto(pid, p.(stage := Dropped))
      case LostAfter => issued.(table := None).End(pid)
      case LostBefore => issued.End(pid)
  }

  function Unlock(s: Site, pid: Pid): Site {
    var p := s.Of(pid);
    if !p.Retiring? || p.stage != Dropped then s
    else s.Goto(pid, p.(stage := Unlocked)).(tableLock := None)
  }

  /** The migration tool moves the ledger row in its own transaction. */
  function UpdateLedger(s: Site, pid: Pid): Site {
    var p := s.Of(pid);
    if !p.Retiring? || p.stage != Unlocked then s
    else if s.rowLock.Some? || s.head != Previous then s.End(pid)
    else s.Goto(pid, p.(stage := Updated)).(rowLock := Some(pid))
  }

  // ----- the steps of a repair -----

  predicate RecoveryHolds(s: Site, r: Recovery) {
    && r.sound && r.window.Open(s.now) && r.writers.Open(s.now)
    && r.originalPath !in s.reopened
    && r.original.digest == r.originalDigest && r.original.Holds(r.original.ddl, false, s.now)
    && r.original.operation == r.operation
    && r.originalPath in s.consumed && s.consumed[r.originalPath] == r.originalDigest
  }

  function Approve(s: Site, pid: Pid, path: Path, r: Recovery): Site {
    if !s.Of(pid).Idle? || !RecoveryHolds(s, r) then s.End(pid)
    else s.Log(NotReopened(r.originalPath)).Log(RepairApproved(r, s.now)).Goto(pid, Reconciling(path, r, Approved))
  }

  function LockRow(s: Site, pid: Pid): Site {
    var p := s.Of(pid);
    if !p.Reconciling? || p.repair != Approved then s
    else if s.rowLock.Some? || s.head != Previous then s.End(pid)
    else s.Goto(pid, p.(repair := RowLocked)).(rowLock := Some(pid))
  }

  /** The snapshot must show the drop done and the ledger pending, and the retained tables unchanged. */
  function Prove(s: Site, pid: Pid): Site {
    var p := s.Of(pid);
    if !p.Reconciling? || p.repair != RowLocked then s
    else if s.table.Some? || s.retained != p.recovery.original.retained then s.End(pid)
    else s.Goto(pid, p.(repair := Proven)).Log(Proved(p.recovery, s.table, s.retained))
  }

  function LookAgain(s: Site, pid: Pid): Site {
    var p := s.Of(pid);
    if !p.Reconciling? || p.repair != Proven then s
    else if p.recovery.originalPath in s.reopened then s.End(pid)
    else s.Goto(pid, p.(repair := LookedAgain)).Log(NotReopened(p.recovery.originalPath))
  }

  function Mark(s: Site, pid: Pid): Site {
    var p := s.Of(pid);
    if !p.Reconciling? || p.repair != LookedAgain then s
    else if p.path in s.consumed then s.End(pid)
    else
      s.Goto(pid, p.(repair := Marked))
      .(consumed := s.consumed[p.path := p.recovery.digest])
      .Log(MarkerWritten(p.path, p.recovery.digest))
  }

  function MoveLedger(s: Site, pid: Pid): Site {
    var p := s.Of(pid);
    if !p.Reconciling? || p.repair != Marked then s
    else s.Goto(pid, p.(repair := Moved))
  }

  /** Only the commit makes the moved row visible; a lost answer still leaves it either done or undone. */
  function Commit(s: Site, pid: Pid): Site {
    var p := s.Of(pid);
    if (p.Retiring? && p.stage == Updated) || (p.Reconciling? && p.repair == Moved) then
      var repaired := if p.Reconciling? then Some((p.path, p.recovery)) else None;
      s.(head := Current).Log(LedgerMoved(repaired, if s.head == Previous then 1 else 0, s.table)).End(pid)
    else s
  }

  // ----- everything else that happens -----

  /** Other sessions write what no lock forbids; the reopen marker is issued; time passes. */
  function Elsewhere(s: Site, now: int, rows: nat, ddl: string, retained: string): Site {
    s.(now := if now >= s.now then now else s.now,
       retained := retained,
       table := if s.table.Some? && s.tableLock.None? then Some(Table(ddl, rows)) else s.table)
  }

  function Reopen(s: Site, path: Path): Site {
    s.(reopened := s.reopened + {path}).Log(ReopenIssued(path))
  }

  datatype Action =
    | APrepare(pid: Pid, call: Call) | ATakeLock(pid: Pid) | ACheckTable(pid: Pid) | ACheckReview(pid: Pid)
    | ALook(pid: Pid) | AConsume(pid: Pid) | ADrop(pid: Pid, answer: Answer) | AUnlock(pid: Pid)
    | AUpdateLedger(pid: Pid)
    | AApprove(pid: Pid, path: Path, recovery: Recovery) | ALockRow(pid: Pid) | AProve(pid: Pid)
    | ALookAgain(pid: Pid) | AMark(pid: Pid) | AMoveLedger(pid: Pid)
    | ACommit(pid: Pid) | ADie(pid: Pid)
    | AElsewhere(now: int, rows: nat, ddl: string, retained: string) | AReopen(path: Path)

  function Next(s: Site, a: Action): Site {
    match a
    case APrepare(pid, call) => Prepare(s, pid, call)
    case ATakeLock(pid) => TakeLock(s, pid)
    case ACheckTable(pid) => CheckTable(s, pid)
    case ACheckReview(pid) => CheckReview(s, pid)
    case ALook(pid) => Look(s, pid)
    case AConsume(pid) => Consume(s, pid)
    case ADrop(pid, answer) => Drop(s, pid, answer)
    case AUnlock(pid) => Unlock(s, pid)
    case AUpdateLedger(pid) => UpdateLedger(s, pid)
    case AApprove(pid, path, r) => Approve(s, pid, path, r)
    case ALockRow(pid) => LockRow(s, pid)
    case AProve(pid) => Prove(s, pid)
    case ALookAgain(pid) => LookAgain(s, pid)
    case AMark(pid) => Mark(s, pid)
    case AMoveLedger(pid) => MoveLedger(s, pid)
    case ACommit(pid) => Commit(s, pid)
    case ADie(pid) => s.End(pid)
    case AElsewhere(now, rows, ddl, retained) => Elsewhere(s, now, rows, ddl, retained)
    case AReopen(path) => Reopen(s, path)
  }

  function Run(s: Site, actions: seq<Action>): Site {
    if actions == [] then s else Next(Run(s, actions[..|actions| - 1]), actions[|actions| - 1])
  }

  // ----- what the trace must show -----

  /** A look that found no reopen marker, when none had been issued. */
  ghost predicate LookedAt(t: seq<Event>, j: int, path: Path) {
    0 <= j < |t| && t[j] == NotReopened(path) && ReopenIssued(path) !in t[..j]
  }

  ghost predicate Cleared(t: seq<Event>, path: Path) {
    exists j :: LookedAt(t, j, path)
  }

  /** The marker of the path was written after such a look. */
  ghost predicate ClearedThenMarked(t: seq<Event>, path: Path, digest: string) {
    exists j :: LookedAt(t, j, path) && MarkerWritten(path, digest) in t[j..]
  }

  ghost predicate HasMarker(t: seq<Event>, path: Path) {
    exists digest :: MarkerWritten(path, digest) in t
  }

  /** The repair was approved while its windows were open. */
  ghost predicate IsApproved(t: seq<Event>, r: Recovery) {
    exists at :: RepairApproved(r, at) in t
  }

  /** The drop was seen done and the retained tables were seen as the original review froze them. */
  predicate IsProved(t: seq<Event>, r: Recovery) {
    Proved(r, None, r.original.retained) in t
  }

  /** After such a proof, a look at the original's reopen marker found none. */
  ghost predicate ClearedAfterProof(t: seq<Event>, j: int, r: Recovery) {
    LookedAt(t, j, r.originalPath) && IsProved(t[..j], r)
  }

  ghost predicate ProvedThenCleared(t: seq<Event>, r: Recovery) {
    exists j :: ClearedAfterProof(t, j, r)
  }

  /** ... and the recovery's own marker was written after that. */
  ghost predicate ProvedThenMarked(t: seq<Event>, path: Path, r: Recovery) {
    exists j :: ClearedAfterProof(t, j, r) && MarkerWritten(path, r.digest) in t[j..]
  }

  predicate Drops(e: Event, path: Path) {
    e.DropIssued? && e.call.Reviewed? && e.call.path == path
  }

  ghost predicate Spent(t: seq<Event>, path: Path) {
    exists i :: 0 <= i < |t| && Drops(t[i], path)
  }

  ghost predicate Moves(t: seq<Event>) {
    exists i :: 0 <= i < |t| && t[i].LedgerMoved?
  }

  /** What must precede an event. */
  ghost predicate Justified(t: seq<Event>, e: Event) {
    match e
    case DropIssued(call, at, found) =>
      && found.Some? && found.value.rows == 0
      && (call.Reviewed? ==>
            && call.review.Holds(call.review.ddl, true, at)
            && Compared(call.path, call.review, call.review.retained) in t
            && ClearedThenMarked(t, call.path, call.review.digest) && !Spent(t, call.path))
    case RepairApproved(r, at) =>
      && r.sound && r.window.Open(at) && r.writers.Open(at)
      && r.original.digest == r.originalDigest && r.original.operation == r.operation
      && r.original.Holds(r.original.ddl, false, at)
      && MarkerWritten(r.originalPath, r.originalDigest) in t && Cleared(t, r.originalPath)
    case LedgerMoved(repair, rows, target) =>
      && rows == 1 && target.None? && !Moves(t)
      && (repair.Some? ==> IsApproved(t, repair.value.1) && ProvedThenMarked(t, repair.value.0, repair.value.1))
    case Compared(path, review, retained) => retained == review.retained
    case Proved(r, found, retained) => found.None? && retained == r.original.retained
    case NotReopened(path) => ReopenIssued(path) !in t
    case MarkerWritten(path, _) => !HasMarker(t, path)
    case ReopenIssued(_) => true
  }

  ghost predicate SafeTrace(t: seq<Event>) {
    forall i :: 0 <= i < |t| ==> Justified(t[..i], t[i])
  }

  lemma ExtendTrace(t: seq<Event>, e: Event)
    requires SafeTrace(t) && Justified(t, e)
    ensures SafeTrace(t + [e])
  {
    hide Justified;
    var longer := t + [e];
    forall i | 0 <= i < |longer| ensures Justified(longer[..i], longer[i]) {
      assert longer[..i] == t[..i];
      assert t[..|t|] == t;
    }
  }

  /** One more event adds to what has happened, and takes nothing back. */
  lemma TraceGrows(t: seq<Event>, e: Event)
    ensures forall path :: Cleared(t, path) || (e == NotReopened(path) && ReopenIssued(path) !in t) ==>
                             Cleared(t + [e], path)
    ensures forall path, digest ::
              ClearedThenMarked(t, path, digest) || (e == MarkerWritten(path, digest) && Cleared(t, path)) ==>
                ClearedThenMarked(t + [e], path, digest)
    ensures forall r :: IsApproved(t, r) || (e.RepairApproved? && e.recovery == r) ==> IsApproved(t + [e], r)
    ensures forall path, r :: ProvedThenMarked(t, path, r) || (e == MarkerWritten(path, r.digest) && ProvedThenCleared(t, r)) ==>
                                ProvedThenMarked(t + [e], path, r)
    ensures forall r :: ProvedThenCleared(t, r)
                        || (e == NotReopened(r.originalPath) && ReopenIssued(r.originalPath) !in t && IsProved(t, r)) ==>
                          ProvedThenCleared(t + [e], r)
    ensures forall path :: Spent(t + [e], path) <==> Spent(t, path) || Drops(e, path)
    ensures Moves(t + [e]) <==> Moves(t) || e.LedgerMoved?
  {
    var longer := t + [e];
    assert longer[|t|] == e;
    assert forall i :: 0 <= i < |t| ==> longer[i] == t[i];
    forall path, j | LookedAt(t, j, path) ensures LookedAt(longer, j, path) && longer[j..] == t[j..] + [e] {
      assert longer[..j] == t[..j];
    }
    forall path | e == NotReopened(path) && ReopenIssued(path) !in t ensures LookedAt(longer, |t|, path) {
      assert longer[..|t|] == t;
    }
    SpentGrows(t, e);
    RepairsGrow(t, e);
  }

  lemma RepairsGrow(t: seq<Event>, e: Event)
    ensures forall r :: IsApproved(t, r) || (e.RepairApproved? && e.recovery == r) ==> IsApproved(t + [e], r)
    ensures forall path, r :: ProvedThenMarked(t, path, r) || (e == MarkerWritten(path, r.digest) && ProvedThenCleared(t, r)) ==>
                                ProvedThenMarked(t + [e], path, r)
    ensures forall r :: ProvedThenCleared(t, r)
                        || (e == NotReopened(r.originalPath) && ReopenIssued(r.originalPath) !in t && IsProved(t, r)) ==>
                          ProvedThenCleared(t + [e], r)
  {
    var longer := t + [e];
    assert longer[|t|] == e && longer[..|t|] == t;
    forall r, at | RepairApproved(r, at) in t || e == RepairApproved(r, at) ensures IsApproved(longer, r) {
      assert RepairApproved(r, at) in longer;
    }
    forall j, r | ClearedAfterProof(t, j, r) ensures ClearedAfterProof(longer, j, r) && longer[j..] == t[j..] + [e] {
      assert longer[..j] == t[..j];
    }
    forall r: Recovery | e == NotReopened(r.originalPath) && ReopenIssued(r.originalPath) !in t && IsProved(t, r)
      ensures ClearedAfterProof(longer, |t|, r)
    {
    }
  }

  lemma SpentGrows(t: seq<Event>, e: Event)
    ensures forall path :: Spent(t + [e], path) <==> Spent(t, path) || Drops(e, path)
    ensures Moves(t + [e]) <==> Moves(t) || e.LedgerMoved?
  {
    var longer := t + [e];
    assert longer[|t|] == e;
    forall path, i | 0 <= i < |t| && Drops(t[i], path) ensures Spent(longer, path) {
      assert Drops(longer[i], path);
    }
    if Moves(t) {
      var i :| 0 <= i < |t| && t[i].LedgerMoved?;
      assert longer[i].LedgerMoved?;
    }
  }

  // ----- the invariant -----

  predicate HoldsTable(p: Proc) {
    p.Retiring? && !p.stage.Prepared? && !p.stage.Unlocked? && !p.stage.Updated?
  }

  predicate HoldsRow(p: Proc) {
    (p.Retiring? && p.stage.Updated?) || (p.Reconciling? && !p.repair.Approved?)
  }

  /** The process knows that the table is empty, with the definition it was reviewed for. */
  predicate KnowsEmpty(p: Proc) {
    p.Retiring? && (p.stage.TableChecked? || p.stage.ReviewChecked? || p.stage.Looked? || p.stage.Consumed?)
  }

  /** The process knows that the table is gone. */
  predicate KnowsGone(p: Proc) {
    || (p.Retiring? && (p.stage.Dropped? || p.stage.Unlocked? || p.stage.Updated?))
    || (p.Reconciling? && !p.repair.Approved? && !p.repair.RowLocked?)
  }

  ghost predicate Locks(s: Site, pid: Pid) {
    && (s.tableLock == Some(pid) <==> HoldsTable(s.Of(pid)))
    && (s.rowLock == Some(pid) <==> HoldsRow(s.Of(pid)))
  }

  ghost predicate Knows(p: Proc, head: Head, table: Option<Table>) {
    && (HoldsRow(p) ==> head == Previous)
    && (KnowsEmpty(p) ==> table == Some(Table(p.ddl, 0)))
    && (KnowsGone(p) ==> table.None?)
  }

  /** What the process has on record for its next irreversible step. */
  ghost predicate Entitled(p: Proc, t: seq<Event>) {
    && (p.Retiring? && (p.stage.ReviewChecked? || p.stage.Looked? || p.stage.Consumed?) ==>
          p.call.Reviewed? && p.call.review.Holds(p.ddl, true, p.stage.at))
    && (p.Retiring? && p.stage.Looked? ==> Cleared(t, p.call.path))
    && (p.Retiring? && p.stage.Consumed? ==> ClearedThenMarked(t, p.call.path, p.call.review.digest) && !Spent(t, p.call.path))
    && (p.Retiring? && p.call.Reviewed? ==> Compared(p.call.path, p.call.review, p.call.review.retained) in t)
    && (p.Reconciling? ==>
          && IsApproved(t, p.recovery)
          && (p.repair.Proven? ==> IsProved(t, p.recovery))
          && (p.repair.LookedAgain? ==> ProvedThenCleared(t, p.recovery))
          && (p.repair.Marked? || p.repair.Moved? ==> ProvedThenMarked(t, p.path, p.recovery)))
  }

  ghost predicate Books(s: Site) {
    && (s.head == Current ==> s.table.None?)
    && (s.head == Current <==> Moves(s.trace))
    && (forall path, digest :: MarkerWritten(path, digest) in s.trace <==> path in s.consumed && s.consumed[path] == digest)
    && (forall path :: path in s.reopened <==> ReopenIssued(path) in s.trace)
    && (forall path :: Spent(s.trace, path) ==> path in s.consumed)
    && SafeTrace(s.trace)
  }

  ghost predicate Inv(s: Site) {
    && Books(s)
    && forall pid :: Locks(s, pid) && Knows(s.Of(pid), s.head, s.table) && Entitled(s.Of(pid), s.trace)
  }

  ghost predicate Initial(s: Site) {
    && s.head == Previous && s.tableLock.None? && s.rowLock.None?
    && s.consumed == map[] && s.reopened == {} && s.procs == map[] && s.trace == []
  }

  // ----- every step keeps it -----

  lemma EntitledGrows(p: Proc, t: seq<Event>, e: Event)
    requires Entitled(p, t)
    requires p.Retiring? && p.stage.Consumed? && p.call.Reviewed? ==> !Drops(e, p.call.path)
    ensures Entitled(p, t + [e])
  {
    TraceGrows(t, e);
    hide Cleared, ClearedThenMarked, IsApproved, ProvedThenCleared, ProvedThenMarked, Spent, Drops, Review.Holds;
  }

  /** The locks after a process has moved on: it keeps or takes what its new stage holds, and frees the rest. */
  ghost predicate Relocked(before: Option<Pid>, after: Option<Pid>, pid: Pid, holds: bool) {
    if holds then (before.None? || before == Some(pid)) && after == Some(pid)
    else after == if before == Some(pid) then None else before
  }

  /** One process moves, and what it does to the shared state is covered by the locks it had. */
  ghost predicate Steps(s: Site, n: Site, pid: Pid) {
    && (forall q :: q != pid ==> n.Of(q) == s.Of(q))
    && Relocked(s.tableLock, n.tableLock, pid, HoldsTable(n.Of(pid)))
    && Relocked(s.rowLock, n.rowLock, pid, HoldsRow(n.Of(pid)))
    && (n.head == s.head || HoldsRow(s.Of(pid)))
    && (n.table == s.table || (HoldsTable(s.Of(pid)) && n.table.None?))
    && (n.trace == s.trace || exists e :: n.trace == s.trace + [e] && (e.DropIssued? ==> HoldsTable(s.Of(pid))))
  }

  lemma StepKeepsInv(s: Site, n: Site, pid: Pid)
    requires Inv(s) && Steps(s, n, pid) && Books(n)
    requires Knows(n.Of(pid), n.head, n.table) && Entitled(n.Of(pid), n.trace)
    ensures Inv(n)
  {
    hide Books, Site.Of;
    assert Locks(s, pid);
    forall q ensures Locks(n, q) && Knows(n.Of(q), n.head, n.table) && Entitled(n.Of(q), n.trace) {
      assert Locks(s, q) && Knows(s.Of(q), s.head, s.table) && Entitled(s.Of(q), s.trace);
      if q != pid && n.trace != s.trace {
        var e :| n.trace == s.trace + [e] && (e.DropIssued? ==> HoldsTable(s.Of(pid)));
        EntitledGrows(s.Of(q), s.trace, e);
      }
    }
  }

  lemma EndKeepsInv(s: Site, pid: Pid)
    requires Inv(s)
    ensures Inv(s.End(pid))
  {
    hide SafeTrace, Spent, Moves, Cleared, ClearedThenMarked;
    assert Locks(s, pid);
    StepKeepsInv(s, s.End(pid), pid);
  }

  /** Books stay right when an event is added together with what it records. */
  lemma BooksGrow(s: Site, e: Event, n: Site)
    requires Books(s) && Justified(s.trace, e) && n.trace == s.trace + [e]
    requires n.head == if e.LedgerMoved? then Current else s.head
    requires n.table == s.table || n.table.None?
    requires e.LedgerMoved? ==> n.table.None?
    requires n.consumed == if e.MarkerWritten? then s.consumed[e.path := e.digest] else s.consumed
    requires n.reopened == s.reopened + if e.ReopenIssued? then {e.path} else {}
    requires e.DropIssued? && e.call.Reviewed? ==> e.call.path in s.consumed
    ensures Books(n)
  {
    assert e.MarkerWritten? ==> !HasMarker(s.trace, e.path);
    hide SafeTrace, Justified;
    ExtendTrace(s.trace, e);
    SpentGrows(s.trace, e);
    hide Spent, Moves;
  }

  lemma PrepareKeepsInv(s: Site, pid: Pid, call: Call)
    requires Inv(s)
    ensures Inv(Prepare(s, pid, call))
  {
    hide SafeTrace, Spent, Moves, Cleared, ClearedThenMarked;
    EndKeepsInv(s, pid);
    var n := Prepare(s, pid, call);
    if n != s.End(pid) {
      assert Locks(s, pid);
      if call.Reviewed? {
        LookKeepsInv(s, call.path);
        var m, e := s.Log(NotReopened(call.path)), Compared(call.path, call.review, s.retained);
        BooksGrow(m, e, n);
        assert Locks(m, pid) && e in n.trace;
        StepKeepsInv(m, n, pid);
      } else {
        StepKeepsInv(s, n, pid);
      }
    }
  }

  /** A look that finds no marker is only recorded. */
  lemma LookKeepsInv(s: Site, path: Path)
    requires Inv(s) && path !in s.reopened
    ensures Inv(s.Log(NotReopened(path))) && Cleared(s.Log(NotReopened(path)).trace, path)
  {
    hide SafeTrace, Spent, Moves, Cleared, Knows;
    var e, n := NotReopened(path), s.Log(NotReopened(path));
    TraceGrows(s.trace, e);
    BooksGrow(s, e, n);
    hide Books;
    forall q ensures Locks(n, q) && Knows(n.Of(q), n.head, n.table) && Entitled(n.Of(q), n.trace) {
      assert Locks(s, q) && Knows(s.Of(q), s.head, s.table) && Entitled(s.Of(q), s.trace);
      EntitledGrows(s.Of(q), s.trace, e);
    }
  }

  /** The steps that take a lock or look at the table, without any record. */
  lemma LockStepsKeepInv(s: Site, pid: Pid)
    requires Inv(s)
    ensures Inv(TakeLock(s, pid)) && Inv(Unlock(s, pid))
  {
    hide SafeTrace, Spent, Moves, Cleared, ClearedThenMarked, Review.Holds;
    EndKeepsInv(s, pid);
    assert Locks(s, pid) && Knows(s.Of(pid), s.head, s.table) && Entitled(s.Of(pid), s.trace);
    hide Books;
    forall n | n in [TakeLock(s, pid), Unlock(s, pid)] ensures Inv(n) {
      if n != s && n != s.End(pid) {
        QuietBooks(s, n);
        StepKeepsInv(s, n, pid);
      }
    }
  }

  lemma CheckStepsKeepInv(s: Site, pid: Pid)
    requires Inv(s)
    ensures Inv(CheckTable(s, pid)) && Inv(CheckReview(s, pid))
  {
    hide SafeTrace, Spent, Moves, Cleared, ClearedThenMarked, Review.Holds;
    EndKeepsInv(s, pid);
    assert Locks(s, pid) && Knows(s.Of(pid), s.head, s.table) && Entitled(s.Of(pid), s.trace);
    hide Books;
    forall n | n in [CheckTable(s, pid), CheckReview(s, pid)] ensures Inv(n) {
      if n != s && n != s.End(pid) {
        QuietBooks(s, n);
        StepKeepsInv(s, n, pid);
      }
    }
  }

  lemma QuietBooks(s: Site, n: Site)
    requires Books(s) && n.trace == s.trace && n.head == s.head && n.table == s.table
    requires n.consumed == s.consumed && n.reopened == s.reopened
    ensures Books(n)
  {
  }

  lemma LedgerStepsKeepInv(s: Site, pid: Pid)
    requires Inv(s)
    ensures Inv(UpdateLedger(s, pid)) && Inv(LockRow(s, pid)) && Inv(MoveLedger(s, pid))
  {
    hide SafeTrace, Spent, Moves, Cleared, ClearedThenMarked, Review.Holds;
    EndKeepsInv(s, pid);
    assert Locks(s, pid) && Knows(s.Of(pid), s.head, s.table) && Entitled(s.Of(pid), s.trace);
    hide Books;
    forall n | n in [UpdateLedger(s, pid), LockRow(s, pid), MoveLedger(s, pid)] ensures Inv(n) {
      if n != s && n != s.End(pid) {
        QuietBooks(s, n);
        StepKeepsInv(s, n, pid);
      }
    }
  }

  lemma ProveKeepsInv(s: Site, pid: Pid)
    requires Inv(s)
    ensures Inv(Prove(s, pid))
  {
    hide SafeTrace, Spent, Moves, ClearedThenMarked, IsApproved, ProvedThenCleared, ProvedThenMarked, Review.Holds, Cleared;
    EndKeepsInv(s, pid);
    var p, n := s.Of(pid), Prove(s, pid);
    assert Locks(s, pid) && Knows(p, s.head, s.table) && Entitled(p, s.trace);
    if n != s && n != s.End(pid) {
      var e := Proved(p.recovery, s.table, s.retained);
      BooksGrow(s, e, n);
      EntitledGrows(p, s.trace, e);
      assert e in n.trace;
      StepKeepsInv(s, n, pid);
    }
  }

  lemma LooksKeepInv(s: Site, pid: Pid)
    requires Inv(s)
    ensures Inv(Look(s, pid)) && Inv(LookAgain(s, pid))
  {
    hide SafeTrace, Spent, Moves, ClearedThenMarked, IsApproved, ProvedThenCleared, ProvedThenMarked, Review.Holds, Cleared;
    EndKeepsInv(s, pid);
    var p := s.Of(pid);
    assert Locks(s, pid) && Knows(p, s.head, s.table) && Entitled(p, s.trace);
    var n := Look(s, pid);
    if n != s && n != s.End(pid) {
      var e := NotReopened(p.call.path);
      BooksGrow(s, e, n);
      TraceGrows(s.trace, e);
      StepKeepsInv(s, n, pid);
    }
    n := LookAgain(s, pid);
    if n != s && n != s.End(pid) {
      var e := NotReopened(p.recovery.originalPath);
      BooksGrow(s, e, n);
      TraceGrows(s.trace, e);
      StepKeepsInv(s, n, pid);
    }
  }

  lemma ConsumeKeepsInv(s: Site, pid: Pid)
    requires Inv(s)
    ensures Inv(Consume(s, pid))
  {
    hide SafeTrace, Spent, Moves, ClearedThenMarked, IsApproved, ProvedThenCleared, ProvedThenMarked, Review.Holds, Cleared;
    EndKeepsInv(s, pid);
    var p, n := s.Of(pid), Consume(s, pid);
    assert Locks(s, pid) && Knows(p, s.head, s.table) && Entitled(p, s.trace);
    if n != s && n != s.End(pid) {
      var e := MarkerWritten(p.call.path, p.call.review.digest);
      BooksGrow(s, e, n);
      TraceGrows(s.trace, e);
      StepKeepsInv(s, n, pid);
    }
  }

  lemma MarkKeepsInv(s: Site, pid: Pid)
    requires Inv(s)
    ensures Inv(Mark(s, pid))
  {
    hide SafeTrace, Spent, Moves, ClearedThenMarked, IsApproved, ProvedThenCleared, ProvedThenMarked, Review.Holds, Cleared;
    EndKeepsInv(s, pid);
    var p, n := s.Of(pid), Mark(s, pid);
    assert Locks(s, pid) && Knows(p, s.head, s.table) && Entitled(p, s.trace);
    if n != s && n != s.End(pid) {
      var e := MarkerWritten(p.path, p.recovery.digest);
      BooksGrow(s, e, n);
      TraceGrows(s.trace, e);
      StepKeepsInv(s, n, pid);
    }
  }

  lemma DropKeepsInv(s: Site, pid: Pid, answer: Answer)
    requires Inv(s)
    ensures Inv(Drop(s, pid, answer))
  {
    hide SafeTrace, Spent, Moves, ClearedThenMarked, IsApproved, ProvedThenCleared, ProvedThenMarked, Review.Holds, Cleared;
    var p, n := s.Of(pid), Drop(s, pid, answer);
    assert Locks(s, pid) && Knows(p, s.head, s.table) && Entitled(p, s.trace);
    if n != s {
      var at := if p.stage.Consumed? then p.stage.at else s.now;
      var e := DropIssued(p.call, at, s.table);
      if p.stage.Consumed? {
        ReviewFitsItself(p, s.trace);
        ConsumedIsMarked(s, p);
      }
      BooksGrow(s, e, n);
      StepKeepsInv(s, n, pid);
    }
  }

  lemma ReviewFitsItself(p: Proc, t: seq<Event>)
    requires Entitled(p, t) && p.Retiring? && p.stage.Consumed?
    ensures p.call.review.Holds(p.call.review.ddl, true, p.stage.at)
  {
  }

  lemma ConsumedIsMarked(s: Site, p: Proc)
    requires Books(s) && Entitled(p, s.trace) && p.Retiring? && p.stage.Consumed?
    ensures p.call.path in s.consumed
  {
    var e := MarkerWritten(p.call.path, p.call.review.digest);
    var j :| LookedAt(s.trace, j, p.call.path) && e in s.trace[j..];
    assert e in s.trace;
  }

  lemma ApproveKeepsInv(s: Site, pid: Pid, path: Path, r: Recovery)
    requires Inv(s)
    ensures Inv(Approve(s, pid, path, r))
  {
    hide SafeTrace, Spent, Moves, ClearedThenMarked, IsApproved, ProvedThenCleared, ProvedThenMarked, Review.Holds, Cleared;
    EndKeepsInv(s, pid);
    var n := Approve(s, pid, path, r);
    assert Locks(s, pid);
    if n != s.End(pid) {
      LookKeepsInv(s, r.originalPath);
      var m, e := s.Log(NotReopened(r.originalPath)), RepairApproved(r, s.now);
      assert MarkerWritten(r.originalPath, r.originalDigest) in s.trace;
      BooksGrow(m, e, n);
      TraceGrows(m.trace, e);
      assert Locks(m, pid);
      StepKeepsInv(m, n, pid);
    }
  }

  lemma CommitKeepsInv(s: Site, pid: Pid)
    requires Inv(s)
    ensures Inv(Commit(s, pid))
  {
    hide SafeTrace, Spent, Moves, ClearedThenMarked, IsApproved, ProvedThenCleared, ProvedThenMarked, Review.Holds, Cleared;
    var p, n := s.Of(pid), Commit(s, pid);
    assert Locks(s, pid) && Knows(p, s.head, s.table) && Entitled(p, s.trace);
    if n != s {
      var repaired := if p.Reconciling? then Some((p.path, p.recovery)) else None;
      BooksGrow(s, LedgerMoved(repaired, 1, s.table), n);
      StepKeepsInv(s, n, pid);
    }
  }

  lemma ElsewhereKeepsInv(s: Site, now: int, rows: nat, ddl: string, retained: string)
    requires Inv(s)
    ensures Inv(Elsewhere(s, now, rows, ddl, retained))
  {
    hide SafeTrace, Spent, Moves, Entitled;
    var n := Elsewhere(s, now, rows, ddl, retained);
    forall q ensures Locks(n, q) && Knows(n.Of(q), n.head, n.table) && Entitled(n.Of(q), n.trace) {
      assert Locks(s, q) && Knows(s.Of(q), s.head, s.table) && Entitled(s.Of(q), s.trace);
    }
  }

  lemma ReopenKeepsInv(s: Site, path: Path)
    requires Inv(s)
    ensures Inv(Reopen(s, path))
  {
    hide SafeTrace, Spent, Moves, Entitled, Knows;
    var n, e := Reopen(s, path), ReopenIssued(path);
    BooksGrow(s, e, n);
    hide Books;
    forall q ensures Locks(n, q) && Knows(n.Of(q), n.head, n.table) && Entitled(n.Of(q), n.trace) {
      assert Locks(s, q) && Knows(s.Of(q), s.head, s.table) && Entitled(s.Of(q), s.trace);
      EntitledGrows(s.Of(q), s.trace, e);
    }
  }

  lemma NextKeepsInv(s: Site, a: Action)
    requires Inv(s)
    ensures Inv(Next(s, a))
  {
    hide Inv;
    match a
    case APrepare(pid, call) => PrepareKeepsInv(s, pid, call);
    case ADrop(pid, answer) => DropKeepsInv(s, pid, answer);
    case AConsume(pid) => ConsumeKeepsInv(s, pid);
    case AMark(pid) => MarkKeepsInv(s, pid);
    case ALook(pid) => LooksKeepInv(s, pid);
    case ALookAgain(pid) => LooksKeepInv(s, pid);
    case AApprove(pid, path, r) => ApproveKeepsInv(s, pid, path, r);
    case ACommit(pid) => CommitKeepsInv(s, pid);
    case ADie(pid) => EndKeepsInv(s, pid);
    case AElsewhere(now, rows, ddl, retained) => ElsewhereKeepsInv(s, now, rows, ddl, retained);
    case AReopen(path) => ReopenKeepsInv(s, path);
    case AUpdateLedger(pid) => LedgerStepsKeepInv(s, pid);
    case ALockRow(pid) => LedgerStepsKeepInv(s, pid);
    case AProve(pid) => ProveKeepsInv(s, pid);
    case AMoveLedger(pid) => LedgerStepsKeepInv(s, pid);
    case ATakeLock(pid) => LockStepsKeepInv(s, pid);
    case AUnlock(pid) => LockStepsKeepInv(s, pid);
    case ACheckTable(pid) => CheckStepsKeepInv(s, pid);
    case ACheckReview(pid) => CheckStepsKeepInv(s, pid);
  }

  lemma {:induction false} RunKeepsInv(s: Site, actions: seq<Action>)
    requires Inv(s)
    ensures Inv(Run(s, actions))
  {
    if actions != [] {
      RunKeepsInv(s, actions[..|actions| - 1]);
      NextKeepsInv(Run(s, actions[..|actions| - 1]), actions[|actions| - 1]);
    }
  }

  // ----- the main results -----

  /** Over every run from a fresh window: each reviewed drop is dispatched on an empty table, under a review
      that was current at its last reading, after a look that found no reopen marker and after the exclusive
      marker of its path; no path ever dispatches two. */
  lemma DropIsIssuedOnce(s: Site, actions: seq<Action>, i: nat)
    requires Initial(s) && i < |Run(s, actions).trace| && Run(s, actions).trace[i].DropIssued?
    ensures var t := Run(s, actions).trace; Justified(t[..i], t[i])
    ensures var t := Run(s, actions).trace;
            t[i].call.Reviewed? ==>
              forall j :: 0 <= j < |t| && Drops(t[j], t[i].call.path) ==> j == i
  {
    InitialHoldsInv(s);
    RunKeepsInv(s, actions);
    var t := Run(s, actions).trace;
    assert Justified(t[..i], t[i]);
    if t[i].call.Reviewed? {
      forall j | 0 <= j < |t| && j != i ensures !Drops(t[j], t[i].call.path) {
        if i < j {
          DropsAreApart(t, i, j, t[i].call.path);
        } else if Drops(t[j], t[i].call.path) {
          DropsAreApart(t, j, i, t[i].call.path);
        }
      }
    }
  }

  lemma DropsAreApart(t: seq<Event>, i: nat, j: nat, path: Path)
    requires SafeTrace(t) && i < j < |t| && Drops(t[i], path)
    ensures !Drops(t[j], path)
  {
    assert Justified(t[..j], t[j]);
    assert t[..j][i] == t[i];
  }

  lemma InitialHoldsInv(s: Site)
    requires Initial(s)
    ensures Inv(s)
  {
  }

  /** Whenever the ledger reads the current head the table is absent, and exactly one commit has moved
      exactly one ledger row. */
  lemma LedgerTellsTheTruth(s: Site, actions: seq<Action>)
    requires Initial(s)
    ensures var n := Run(s, actions);
            && (n.head == Current ==> n.table.None?)
            && (n.head == Current <==> exists i :: 0 <= i < |n.trace| && n.trace[i].LedgerMoved?)
            && (forall i, j :: 0 <= i < j < |n.trace| && n.trace[i].LedgerMoved? ==> !n.trace[j].LedgerMoved?)
            && (forall i :: 0 <= i < |n.trace| && n.trace[i].LedgerMoved? ==>
                  n.trace[i].rows == 1 && n.trace[i].target.None?)
  {
    InitialHoldsInv(s);
    RunKeepsInv(s, actions);
    var t := Run(s, actions).trace;
    forall i | 0 <= i < |t| && t[i].LedgerMoved?
      ensures t[i].rows == 1 && t[i].target.None? && !Moves(t[..i])
    {
      assert Justified(t[..i], t[i]);
    }
    forall i, j | 0 <= i < j < |t| && t[i].LedgerMoved? ensures !t[j].LedgerMoved? {
      assert t[..j][i] == t[i];
    }
  }

  /** Over every run from a fresh window: a repair moves the ledger only after it was approved inside its
      windows on the marker of its original, then saw the table gone and the retained tables exactly as the
      original review froze them, then found no reopen marker, then spent its own marker. */
  lemma RepairIsProved(s: Site, actions: seq<Action>, i: nat)
    requires Initial(s) && i < |Run(s, actions).trace|
    requires Run(s, actions).trace[i].LedgerMoved? && Run(s, actions).trace[i].repair.Some?
    ensures var t, repair := Run(s, actions).trace[..i], Run(s, actions).trace[i].repair.value;
            ProvedThenMarked(t, repair.0, repair.1) && exists k :: ApprovedInTime(t, k, repair.1)
  {
    InitialHoldsInv(s);
    RunKeepsInv(s, actions);
    RepairIsJustified(Run(s, actions), i);
  }

  /** The approval of a repair, with what its documents and the original's marker say. */
  ghost predicate ApprovedInTime(t: seq<Event>, k: int, r: Recovery) {
    && 0 <= k < |t| && t[k].RepairApproved? && t[k].recovery == r
    && r.sound && r.window.Open(t[k].at) && r.writers.Open(t[k].at)
    && r.original.digest == r.originalDigest && r.original.operation == r.operation
    && MarkerWritten(r.originalPath, r.originalDigest) in t[..k]
  }

  lemma RepairIsJustified(s: Site, i: nat)
    requires Inv(s) && i < |s.trace| && s.trace[i].LedgerMoved? && s.trace[i].repair.Some?
    ensures var t, repair := s.trace[..i], s.trace[i].repair.value;
            ProvedThenMarked(t, repair.0, repair.1) && exists k :: ApprovedInTime(t, k, repair.1)
  {
    hide ProvedThenMarked, Cleared, Moves, Locks, Knows, Entitled;
    var t, r := s.trace[..i], s.trace[i].repair.value.1;
    assert Justified(t, s.trace[i]);
    var at :| RepairApproved(r, at) in t;
    var k :| 0 <= k < i && t[k] == RepairApproved(r, at);
    assert Justified(s.trace[..k], s.trace[k]) && t[..k] == s.trace[..k];
    assert ApprovedInTime(t, k, r);
  }

  /** Once the table is gone, whoever lost the answer and however often it is tried again, no drop is
      dispatched any more: only a process that holds the lock and has seen the table is about to drop. */
  lemma {:induction false} NothingLeftToDrop(s: Site, actions: seq<Action>)
    requires Inv(s) && s.table.None?
    ensures var n := Run(s, actions);
            n.table.None? && s.trace <= n.trace && forall k :: |s.trace| <= k < |n.trace| ==> !n.trace[k].DropIssued?
  {
    hide Inv;
    if actions != [] {
      NothingLeftToDrop(s, actions[..|actions| - 1]);
      RunKeepsInv(s, actions[..|actions| - 1]);
      NextDropsNothing(Run(s, actions[..|actions| - 1]), actions[|actions| - 1]);
    }
  }

  lemma NextDropsNothing(s: Site, a: Action)
    requires Inv(s) && s.table.None?
    ensures var n := Next(s, a);
            n.table.None? && s.trace <= n.trace && forall k :: |s.trace| <= k < |n.trace| ==> !n.trace[k].DropIssued?
  {
    hide Review.Holds, RecoveryHolds, Books, Entitled;
    if a.ADrop? {
      assert Knows(s.Of(a.pid), s.head, s.table);
    }
    hide Inv, Knows;
  }

  // ----- the window is usable, and a lost answer can be repaired -----

  ghost predicate Reaches(s: Site, n: Site) {
    exists actions :: Run(s, actions) == n
  }

  lemma ReachNext(s: Site, n: Site, a: Action)
    requires Reaches(s, n)
    ensures Reaches(s, Next(n, a))
  {
    var actions :| Run(s, actions) == n;
    assert (actions + [a])[..|actions|] == actions;
    assert Run(s, actions + [a]) == Next(n, a);
  }

  predicate Ready(s: Site, review: Review) {
    s.table.Some? && s.table.value.rows == 0 && review.Holds(s.table.value.ddl, true, s.now) && review.retained == s.retained
  }

  lemma ReviewIsReachable(s: Site, path: Path, review: Review) returns (n: Site)
    requires Initial(s) && Ready(s, review)
    ensures Reaches(s, n) && n.procs == map[0 := Retiring(Reviewed(path, review), s.table.value.ddl, ReviewChecked(s.now))]
    ensures n == s.(procs := n.procs, trace := n.trace, tableLock := Some(0))
  {
    hide Run, Reaches, Review.Holds;
    NoSteps(s);
    n := s;
    var call := Reviewed(path, review);
    ReachNext(s, n, APrepare(0, call));
    n := Next(n, APrepare(0, call));
    ReachNext(s, n, ATakeLock(0));
    n := Next(n, ATakeLock(0));
    ReachNext(s, n, ACheckTable(0));
    n := Next(n, ACheckTable(0));
    ReachNext(s, n, ACheckReview(0));
    n := Next(n, ACheckReview(0));
  }

  /** From an empty table and a current review a run reaches the drop; if its answer is lost, the table is
      gone and the ledger is left pending, with the marker as the only trace of the approval. */
  lemma LostDropIsReachable(s: Site, path: Path, review: Review) returns (n: Site)
    requires Initial(s) && Ready(s, review)
    ensures Reaches(s, n) && n.table.None? && n.head == Previous && n.rowLock.None? && n.now == s.now
    ensures n.retained == s.retained && n.reopened == {} && n.consumed == map[path := review.digest] && n.Of(1).Idle?
  {
    n := ReviewIsReachable(s, path, review);
    hide Run, Reaches, Review.Holds, Ready;
    ReachNext(s, n, ALook(0));
    n := Next(n, ALook(0));
    ReachNext(s, n, AConsume(0));
    n := Next(n, AConsume(0));
    ReachNext(s, n, ADrop(0, LostAfter));
    n := Next(n, ADrop(0, LostAfter));
  }

  /** From the same state a run whose answers all arrive removes the table and moves the ledger. */
  lemma RetirementSucceeds(s: Site, path: Path, review: Review) returns (n: Site)
    requires Initial(s) && Ready(s, review)
    ensures Reaches(s, n) && n.table.None? && n.head == Current && n.tableLock.None? && n.rowLock.None?
    ensures n.retained == s.retained && n.consumed == map[path := review.digest]
  {
    n := ReviewIsReachable(s, path, review);
    hide Run, Reaches, Review.Holds, Ready;
    ReachNext(s, n, ALook(0));
    n := Next(n, ALook(0));
    ReachNext(s, n, AConsume(0));
    n := Next(n, AConsume(0));
    ReachNext(s, n, ADrop(0, Confirmed));
    n := Next(n, ADrop(0, Confirmed));
    n := LedgerIsReachable(s, n);
  }

  /** A fresh installation needs no approval. */
  lemma FreshRetirementSucceeds(s: Site) returns (n: Site)
    requires Initial(s) && s.table.Some? && s.table.value.rows == 0
    ensures Reaches(s, n) && n.table.None? && n.head == Current && n.consumed == map[] && n.retained == s.retained
  {
    hide Run, Reaches, Review.Holds;
    NoSteps(s);
    n := s;
    ReachNext(s, n, APrepare(0, Fresh));
    n := Next(n, APrepare(0, Fresh));
    ReachNext(s, n, ATakeLock(0));
    n := Next(n, ATakeLock(0));
    ReachNext(s, n, ACheckTable(0));
    n := Next(n, ACheckTable(0));
    ReachNext(s, n, ADrop(0, Confirmed));
    n := Next(n, ADrop(0, Confirmed));
    n := LedgerIsReachable(s, n);
  }

  lemma LedgerIsReachable(s: Site, n: Site) returns (m: Site)
    requires Reaches(s, n) && n.Of(0).Retiring? && n.Of(0).stage == Dropped
    requires n.head == Previous && n.rowLock.None? && n.tableLock == Some(0)
    ensures Reaches(s, m) && m.head == Current && m.rowLock.None? && m.tableLock.None?
    ensures m.table == n.table && m.retained == n.retained && m.consumed == n.consumed
  {
    hide Run, Reaches;
    m := n;
    ReachNext(s, m, AUnlock(0));
    m := Next(m, AUnlock(0));
    ReachNext(s, m, AUpdateLedger(0));
    m := Next(m, AUpdateLedger(0));
    ReachNext(s, m, ACommit(0));
    m := Next(m, ACommit(0));
  }

  lemma NoSteps(s: Site)
    ensures Run(s, []) == s && Reaches(s, s)
  {
    assert Run(s, []) == s;
  }

  lemma ProofIsReachable(s: Site, n: Site, path: Path, r: Recovery) returns (m: Site)
    requires Reaches(s, n) && n.Of(1).Idle?
    requires n.table.None? && n.head == Previous && n.rowLock.None?
    requires RecoveryHolds(n, r) && r.original.retained == n.retained
    ensures Reaches(s, m) && m.Of(1) == Reconciling(path, r, Proven)
    ensures m == n.(procs := m.procs, trace := m.trace, rowLock := Some(1))
  {
    hide Run, Reaches, RecoveryHolds;
    m := n;
    ReachNext(s, m, AApprove(1, path, r));
    m := Next(m, AApprove(1, path, r));
    ReachNext(s, m, ALockRow(1));
    m := Next(m, ALockRow(1));
    ReachNext(s, m, AProve(1));
    m := Next(m, AProve(1));
  }

  lemma MarkIsReachable(s: Site, n: Site, path: Path, r: Recovery) returns (m: Site)
    requires Reaches(s, n) && n.Of(1) == Reconciling(path, r, Proven)
    requires r.originalPath !in n.reopened && path !in n.consumed
    ensures Reaches(s, m) && m.Of(1) == Reconciling(path, r, Marked) && m.table == n.table && m.head == n.head
  {
    hide Run, Reaches;
    m := n;
    ReachNext(s, m, ALookAgain(1));
    m := Next(m, ALookAgain(1));
    ReachNext(s, m, AMark(1));
    m := Next(m, AMark(1));
  }

  /** From there a recovery bound to the consumed review moves the ledger forward. */
  lemma LostDropIsRepaired(s: Site, n: Site, path: Path, r: Recovery) returns (m: Site)
    requires Reaches(s, n) && n.Of(1).Idle?
    requires n.table.None? && n.head == Previous && n.rowLock.None?
    requires RecoveryHolds(n, r) && r.original.retained == n.retained && path !in n.consumed
    ensures Reaches(s, m) && m.head == Current && m.table.None?
  {
    HoldingIsUnreopened(n, r);
    m := ProofIsReachable(s, n, path, r);
    m := MarkIsReachable(s, m, path, r);
    hide Run, Reaches, RecoveryHolds;
    ReachNext(s, m, AMoveLedger(1));
    m := Next(m, AMoveLedger(1));
    ReachNext(s, m, ACommit(1));
    m := Next(m, ACommit(1));
  }

  lemma HoldingIsUnreopened(s: Site, r: Recovery)
    requires RecoveryHolds(s, r)
    ensures r.originalPath !in s.reopened
  {
  }
}

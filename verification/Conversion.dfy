/** The journalled conversion between the 0038 and 0040 layouts (schema_refactor/control.py), as the
    two host controllers see it: each command reads the journal, acts on the live schema `ai`, and may
    stop after any durable effect. The caller attests that all writers are stopped. */
module Conversion {
  import opened Outcomes
  import opened StopWindow

  datatype Head = H38 | H40

  datatype Direction = Forward | Reverse

  function SourceHead(dir: Direction): Head {
    if dir.Forward? then H38 else H40
  }

  function TargetHead(dir: Direction): Head {
    if dir.Forward? then H40 else H38
  }

  datatype Phase =
    | Planned | PreparePending | Prepared | CopyPending | Copied
    | Verified | SwitchPending | Switched | RollbackPending | RolledBack

  /** The live schema: its layout and its rows, written as the log of committed writes. */
  datatype Live = Live(head: Head, rows: seq<nat>)

  /** A conversion journal together with the isolated schemas that only this journal owns. */
  datatype Journal = Journal(
    dir: Direction,
    phase: Phase,
    stoppedAt: Option<int>,
    manifest: seq<nat>,
    staging: Option<seq<nat>>,
    archive: Option<seq<nat>>)

  function Rank(phase: Phase): nat {
    match phase
    case Planned => 0
    case PreparePending => 1
    case Prepared => 2
    case CopyPending => 3
    case Copied => 4
    case Verified => 5
    case SwitchPending => 6
    case Switched => 7
    case RollbackPending => 8
    case RolledBack => 9
  }

  /** What every command keeps of a journal: its direction, its first stop instant, its progress. */
  predicate Advances(before: Journal, after: Journal) {
    && after.dir == before.dir
    && (before.stoppedAt.Some? ==> after.stoppedAt == before.stoppedAt)
    && Rank(before.phase) <= Rank(after.phase)
  }

  /** A journal is past its copy only with a recorded stop instant and a staged or exchanged image of
      the accepted rows. */
  predicate Sound(j: Journal) {
    && (Rank(j.phase) >= Rank(CopyPending) ==> j.stoppedAt.Some?)
    && (j.phase in {Copied, Verified} ==> j.staging == Some(j.manifest))
    && (j.phase == Switched ==> j.archive == Some(j.manifest))
  }

  /** What is left of an interrupted conversion fits the live schema as long as nobody writes: the next
      command of its phase, or the way back, can go on from it. */
  predicate Fits(j: Journal, live: Live) {
    match j.phase
    case Planned => live.head == SourceHead(j.dir) && j.staging.None?
    case PreparePending => live.head == SourceHead(j.dir) && j.staging.None?
    case Prepared => live.head == SourceHead(j.dir) && j.staging.None?
    case CopyPending => live.head == SourceHead(j.dir) && (j.staging.Some? ==> j.staging.value == live.rows)
    case Copied => live.head == SourceHead(j.dir) && j.staging == Some(live.rows)
    case Verified => live.head == SourceHead(j.dir) && j.staging == Some(live.rows)
    case SwitchPending => if live.head == SourceHead(j.dir) then j.staging == Some(live.rows) else j.archive == Some(live.rows)
    case Switched => live.head == TargetHead(j.dir)
    case RollbackPending => j.archive == Some(live.rows)
    case RolledBack => live.head == SourceHead(j.dir)
  }

  /** Between the copy and the end of the operation the journal's manifest is what is live. */
  predicate Frozen(j: Journal) {
    Rank(CopyPending) <= Rank(j.phase) <= Rank(RollbackPending)
  }

  predicate Holds(j: Journal, live: Live) {
    Fits(j, live) && (Frozen(j) ==> j.manifest == live.rows)
  }

  method Plan(dir: Direction, live: Live, inherited: bool) returns (r: Outcome<Journal>, ghost denied: bool)
    ensures r.Done? ==> live.head == SourceHead(dir) && (dir.Reverse? ==> inherited)
    ensures r.Done? ==> r.value == Journal(dir, Planned, None, [], None, None) && Sound(r.value)
    ensures !denied && live.head == SourceHead(dir) && (dir.Reverse? ==> inherited) ==> r.Done?
  {
    denied := false;
    if live.head != SourceHead(dir) || (dir.Reverse? && !inherited) {
      r := Raised;
      return;
    }
    var fate := Fate();
    denied := !fate.Done?;
    r := if fate.Done? then Done(Journal(dir, Planned, None, [], None, None)) else fate.PropagateFailure();
  }

  method Prepare(j: Journal, live: Live) returns (after: Journal, r: Outcome<()>, ghost denied: bool)
    requires Sound(j)
    ensures Advances(j, after) && Sound(after)
    ensures Holds(j, live) ==> Holds(after, live)
    ensures !denied && Holds(j, live) && j.phase in {Planned, PreparePending} ==> r.Done?
    ensures after == j.(phase := after.phase) && after.phase in {j.phase, PreparePending, Prepared}
    ensures r.Done? ==> j.phase in {Planned, PreparePending} && after.phase == Prepared
  {
    after, denied := j, false;
    if j.phase !in {Planned, PreparePending} || live.head != SourceHead(j.dir) {
      r := Raised;
      return;
    }
    after := j.(phase := PreparePending);
    r := Fate();
    denied := !r.Done?;
    if r.Done? {
      after := after.(phase := Prepared);
    }
  }

  /** Copies the frozen source once; a retry re-verifies what an interrupted copy left. */
  method Copy(j: Journal, live: Live, stop: int, now: int) returns (after: Journal, r: Outcome<()>, ghost denied: bool)
    requires Sound(j)
    ensures Advances(j, after) && Sound(after)
    ensures Holds(j, live) ==> Holds(after, live)
    ensures !denied && Holds(j, live) && j.phase in {Prepared, CopyPending, Copied} && OnTime(now, stop) && j.stoppedAt in {None, Some(stop)}
            ==> r.Done?
    ensures after.stoppedAt in {j.stoppedAt, Some(stop)}
    ensures after.phase in {j.phase, CopyPending, Copied} && after.archive == j.archive
    ensures after != j || r.Done? ==>
              && j.phase in {Prepared, CopyPending, Copied}
              && OnTime(now, stop) && after.stoppedAt == Some(stop)
              && live.head == SourceHead(j.dir) && after.manifest == live.rows
    ensures r.Done? ==> after.phase == Copied && after.staging == Some(live.rows)
  {
    after, denied := j, false;
    if || j.phase !in {Prepared, CopyPending, Copied}
       || (j.stoppedAt.Some? && j.stoppedAt.value != stop)
       || !OnTime(now, stop)
       || live.head != SourceHead(j.dir)
       || (j.phase != Prepared && live.rows != j.manifest)
    {
      r := Raised;
      return;
    }
    r := Fate();
    denied := !r.Done?;
    if !r.Done? {
      return;
    }
    if j.phase == Prepared {
      after := j.(manifest := live.rows, stoppedAt := Some(stop), phase := CopyPending);
      r := Fate();
      denied := !r.Done?;
      if !r.Done? {
        return;
      }
    }
    if after.staging.Some? && after.staging.value != live.rows {
      r := Raised;
      return;
    }
    after := after.(staging := Some(live.rows));
    r := Fate();
    denied := !r.Done?;
    if r.Done? {
      after := after.(phase := Copied);
    }
  }

  method Verify(j: Journal, live: Live, now: int) returns (after: Journal, r: Outcome<()>, ghost denied: bool)
    requires Sound(j)
    ensures j.phase != SwitchPending && Holds(j, live) ==> Holds(after, live)
    ensures !denied && Holds(j, live) && j.phase in {Copied, Verified} ==> r.Done?
    ensures Sound(after) && after == j.(phase := after.phase) && after.phase in {j.phase, Verified}
    ensures j.phase != SwitchPending ==> Advances(j, after)
    ensures r.Done? ==>
              && j.phase in {Copied, Verified, SwitchPending} && after.phase == Verified
              && j.staging == Some(live.rows) && j.manifest == live.rows
  {
    after, denied := j, false;
    if j.stoppedAt.Some? && !OnTime(now, j.stoppedAt.value) {
      r, denied := Raised, true;
      return;
    }
    if || j.phase !in {Copied, Verified, SwitchPending}
       || j.stoppedAt.None?
       || live.head != SourceHead(j.dir)
       || j.staging != Some(live.rows) || j.manifest != live.rows
    {
      r := Raised;
      return;
    }
    r := Fate();
    denied := !r.Done?;
    if r.Done? {
      after := j.(phase := Verified);
    }
  }

  /** The atomic exchange. The layout flips in one step, never back, and the live rows after it are
      the live rows before it whether or not the command returns. */
  method Switch(j: Journal, live: Live, now: int) returns (after: Journal, live': Live, r: Outcome<()>, ghost denied: bool)
    requires Sound(j)
    ensures Advances(j, after) && Sound(after)
    ensures Holds(j, live) ==> Holds(after, live')
    ensures !denied && Holds(j, live) && j.phase in {Verified, SwitchPending, Switched} ==> r.Done?
    ensures j.phase == Switched && live.head == TargetHead(j.dir) ==> r.Done? && after == j
    ensures after.stoppedAt == j.stoppedAt
    ensures live'.rows == live.rows && live'.head in {live.head, TargetHead(j.dir)}
    ensures live'.head != live.head ==>
              && j.phase in {Verified, SwitchPending} && live.head == SourceHead(j.dir)
              && after.archive == Some(live.rows) && after.phase in {SwitchPending, Switched}
              && exists at :: at >= now && OnTime(at, j.stoppedAt.value)
    ensures after.phase in {j.phase, SwitchPending, Switched}
    ensures r.Done? ==>
              && j.phase in {Verified, SwitchPending, Switched}
              && live'.head == TargetHead(j.dir) && after.phase == Switched
  {
    after, live', denied := j, live, false;
    if j.phase !in {Verified, SwitchPending, Switched} {
      r := Raised;
      return;
    }
    if j.phase == Switched {
      r := if live.head == TargetHead(j.dir) then Done(()) else Raised;
      return;
    }
    if live.head != TargetHead(j.dir) {
      if j.staging != Some(live.rows) || j.manifest != live.rows || j.stoppedAt.None? {
        r := Raised;
        return;
      }
      after := j.(phase := SwitchPending);
      r := Fate();
      var waited: int :| 0 <= waited;
      if !r.Done? || !OnTime(now + waited, j.stoppedAt.value) {
        r, denied := if r.Crashed? then Crashed else Raised, true;
        return;
      }
      after := after.(archive := Some(live.rows), staging := None);
      live' := Live(TargetHead(j.dir), j.staging.value);
      assert now + waited >= now;
      r := Fate();
      denied := !r.Done?;
      if !r.Done? {
        return;
      }
    }
    if live'.rows != after.manifest || after.archive != Some(after.manifest) {
      r := Raised;
      return;
    }
    after := after.(phase := Switched);
    r := Fate();
    denied := !r.Done?;
  }

  /** Fast rollback: allowed only while the exchanged schema still holds exactly the archived rows. */
  method FastRollback(j: Journal, live: Live, stop: int, now: int)
    returns (after: Journal, live': Live, r: Outcome<()>, ghost denied: bool)
    requires Sound(j)
    ensures Advances(j, after) && Sound(after)
    ensures Holds(j, live) ==> Holds(after, live')
    ensures !denied && Holds(j, live) && OnTime(now, stop) && live.head == TargetHead(j.dir) && j.phase in {SwitchPending, Switched, RollbackPending}
            ==> r.Done?
    ensures after.stoppedAt == j.stoppedAt
    ensures live'.rows == live.rows && live'.head in {live.head, SourceHead(j.dir)}
    ensures live'.head != live.head ==> OnTime(now, stop)
    ensures after.phase in {j.phase, RollbackPending, RolledBack}
    ensures r.Done? ==> after.phase == RolledBack && live'.head == SourceHead(j.dir)
  {
    after, live', denied := j, live, false;
    if j.phase !in {SwitchPending, Switched, RollbackPending, RolledBack} {
      r := Raised;
      return;
    }
    if j.phase == RolledBack {
      r := if live.head == SourceHead(j.dir) then Done(()) else Raised;
      return;
    }
    if j.phase != RollbackPending {
      if || !OnTime(now, stop)
         || live.head != TargetHead(j.dir)
         || live.rows != j.manifest
         || j.archive != Some(live.rows)
      {
        r := Raised;
        return;
      }
      after := j.(phase := RollbackPending);
      r := Fate();
      denied := !r.Done?;
      if !r.Done? {
        return;
      }
    }
    if live.head == TargetHead(j.dir) {
      if !OnTime(now, stop) || after.archive != Some(live.rows) {
        r := Raised;
        return;
      }
      live' := Live(SourceHead(j.dir), after.archive.value);
      r := Fate();
      denied := !r.Done?;
      if !r.Done? {
        return;
      }
    }
    after := after.(phase := RolledBack);
    r := Fate();
    denied := !r.Done?;
  }
}

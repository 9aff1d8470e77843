/** The admission latch over protocol observations (src/qs_ai/bootstrap/transaction_protection.py). Its
    fields are proved to be exactly the summary of the whole observation history that their names claim. */
module TransactionProtection {
  import opened Outcomes
  import opened Texts

  const WARNING_AGE := 120.0
  const PROTECTION_AGE := 300.0
  const SATURATION_AGE := 120.0

  /** A float: a real number, an infinity or not a number. */
  datatype Age = Finite(value: real) | Infinite(positive: bool) | NotANumber

  datatype Sample = Sample(
    nativeBlocked: bool,
    reserved: int,
    preparing: int,
    gaps: int,
    unaged: int,
    untrackedAborted: int,
    unobservedCommitted: int,
    conflicts: int,
    expiryAge: Age,
    confirmationAge: Age)
  {
    predicate Valid() {
      && reserved >= 0 && preparing >= 0 && gaps >= 0 && unaged >= 0
      && untrackedAborted >= 0 && unobservedCommitted >= 0 && conflicts >= 0
      && expiryAge.Finite? && expiryAge.value >= 0.0
      && confirmationAge.Finite? && confirmationAge.value >= 0.0
    }
  }

  const Unobserved := Sample(false, 0, 0, 0, 0, 0, 0, 0, Finite(0.0), Finite(0.0))

  datatype Reason =
    | NoReason | NativeLimit | CheckerSaturated | BindingConflict | ObservationUnavailable | InvalidObservation
    | MetadataConflict | AgeUnavailable | CommittedHalfUnobserved | ConfirmationGap | PreparationExpired | InvalidCheck

  /** The arguments of one call of `observe`. */
  datatype Observation = Observation(
    now: real, sample: Sample, failed: bool, bindingConflict: bool, full: bool, freshness: real)
  {
    predicate Succeeds() {
      !failed && sample.Valid()
    }
  }

  // ----- what the history says, without any field -----

  /** The newest observation succeeded. */
  ghost predicate Succeeded(h: seq<Observation>) {
    h != [] && h[|h| - 1].Succeeds()
  }

  /** From index i on, every poll is full and no gap between polls exceeds its freshness. */
  ghost predicate FullRun(h: seq<Observation>, i: int) {
    0 <= i < |h| && forall k :: i <= k < |h| ==> h[k].full && (i < k ==> h[k].now - h[k - 1].now <= h[k].freshness)
  }

  /** From index i on, no observation succeeds. */
  ghost predicate NoSuccess(h: seq<Observation>, i: int) {
    0 <= i <= |h| && forall k :: i <= k < |h| ==> !h[k].Succeeds()
  }

  ghost predicate SaturatedSince(h: seq<Observation>, since: Option<real>) {
    match since
    case None => h == [] || !h[|h| - 1].full
    case Some(t) => exists i :: FullRun(h, i) && h[i].now == t && forall j :: FullRun(h, j) ==> i <= j
  }

  ghost predicate ErrorSince(h: seq<Observation>, since: Option<real>) {
    match since
    case None => exists i :: NoSuccess(h, i) && (i == 0 || h[i - 1].Succeeds())
                             && forall k :: i <= k < |h| ==> !h[k].failed
    case Some(t) => exists i :: 0 <= i < |h| && h[i].failed && h[i].now == t && NoSuccess(h, i)
                                && forall k :: 0 <= k < i && NoSuccess(h, k) ==> !h[k].failed
  }

  /** Index just after the last success, 0 if there is none. */
  function AfterLastSuccess(h: seq<Observation>): (i: nat)
    ensures i <= |h| && NoSuccess(h, i) && (i > 0 ==> h[i - 1].Succeeds())
  {
    if h == [] then 0
    else if h[|h| - 1].Succeeds() then |h|
    else
      var i := AfterLastSuccess(h[..|h| - 1]);
      assert h[..|h| - 1][..i] == h[..i];
      i
  }

  /** Some report with the native flag, from the observation before an index on. */
  ghost predicate BlockedSince(h: seq<Observation>, i: int) {
    exists k :: 0 <= k < |h| && k >= i - 1 && h[k].sample.nativeBlocked
  }

  /** The retained sample: the last successful one, with the native flag of everything since. */
  ghost predicate Retained(h: seq<Observation>, sample: Sample) {
    var i: int := AfterLastSuccess(h);
    && (sample.nativeBlocked <==> BlockedSince(h, i))
    && sample.(nativeBlocked := false) == (if i == 0 then Unobserved else h[i - 1].sample.(nativeBlocked := false))
  }

  ghost function LastPoll(h: seq<Observation>): Option<real> {
    if h == [] then None else Some(h[|h| - 1].now)
  }

  ghost function LastSuccess(h: seq<Observation>): Option<real> {
    var i := AfterLastSuccess(h);
    if i == 0 then None else Some(h[i - 1].now)
  }

  ghost function Failures(h: seq<Observation>): nat {
    if h == [] then 0 else Failures(h[..|h| - 1]) + if h[|h| - 1].Succeeds() then 0 else 1
  }

  /** An earlier reason is never replaced by a later one. */
  function First(earlier: Reason, later: Reason): Reason {
    if earlier.NoReason? then later else earlier
  }

  /** What a poll alone gives reason for, whether it read anything or not. */
  function PollVerdict(o: Observation, saturatedSince: Option<real>): Reason {
    if o.sample.nativeBlocked then NativeLimit
    else if saturatedSince.Some? && o.now - saturatedSince.value >= SATURATION_AGE then CheckerSaturated
    else NoReason
  }

  /** What the outcome of its reading gives reason for. */
  function OutcomeVerdict(o: Observation, errorSince: Option<real>): Reason {
    if o.failed then
      if o.bindingConflict then BindingConflict
      else if errorSince.Some? && o.now - errorSince.value >= WARNING_AGE then ObservationUnavailable
      else NoReason
    else if !o.sample.Valid() then InvalidObservation
    else if o.sample.conflicts != 0 then MetadataConflict
    else if o.sample.unaged != 0 then AgeUnavailable
    else if o.sample.unobservedCommitted != 0 then CommittedHalfUnobserved
    else if o.sample.gaps != 0 && o.sample.confirmationAge.value >= PROTECTION_AGE then ConfirmationGap
    else if o.sample.preparing != 0 && o.sample.expiryAge.value >= PROTECTION_AGE then PreparationExpired
    else NoReason
  }

  /** The reason the newest observation gives, from the clocks the history determines. */
  function Verdict(o: Observation, saturatedSince: Option<real>, errorSince: Option<real>): Reason {
    First(PollVerdict(o, saturatedSince), OutcomeVerdict(o, errorSince))
  }

  // ----- what gives a reason, without any clock -----

  /** The first poll of the longest full run was made at that time. */
  ghost predicate FullFrom(h: seq<Observation>, i: int) {
    FullRun(h, i) && forall j :: FullRun(h, j) ==> i <= j
  }

  /** The first failed poll since the last success. */
  ghost predicate FailingFrom(h: seq<Observation>, i: int) {
    && 0 <= i < |h| && h[i].failed && NoSuccess(h, i)
    && forall k :: 0 <= k < i && NoSuccess(h, k) ==> !h[k].failed
  }

  /** No reason lies in the sample of a valid observation. */
  predicate Quiet(s: Sample) {
    && !s.nativeBlocked && s.conflicts == 0 && s.unaged == 0 && s.unobservedCommitted == 0
    && (s.gaps != 0 ==> s.confirmationAge.Finite? && s.confirmationAge.value < PROTECTION_AGE)
    && (s.preparing != 0 ==> s.expiryAge.Finite? && s.expiryAge.value < PROTECTION_AGE)
  }

  /** The newest observation of a history gives this reason. */
  ghost predicate Gives(h: seq<Observation>, r: Reason)
    requires h != []
  {
    var o := h[|h| - 1];
    match r
    case NativeLimit => o.sample.nativeBlocked
    case CheckerSaturated => exists i :: FullFrom(h, i) && o.now - h[i].now >= SATURATION_AGE
    case BindingConflict => o.failed && o.bindingConflict
    case ObservationUnavailable => o.failed && exists i :: FailingFrom(h, i) && o.now - h[i].now >= WARNING_AGE
    case InvalidObservation => !o.failed && !o.sample.Valid()
    case MetadataConflict => o.Succeeds() && o.sample.conflicts > 0
    case AgeUnavailable => o.Succeeds() && o.sample.unaged > 0
    case CommittedHalfUnobserved => o.Succeeds() && o.sample.unobservedCommitted > 0
    case ConfirmationGap => o.Succeeds() && o.sample.gaps > 0 && o.sample.confirmationAge.value >= PROTECTION_AGE
    case PreparationExpired => o.Succeeds() && o.sample.preparing > 0 && o.sample.expiryAge.value >= PROTECTION_AGE
    case _ => false
  }

  /** The newest observation gives no reason at all. */
  ghost predicate Calm(h: seq<Observation>)
    requires h != []
  {
    forall r: Reason :: !Gives(h, r)
  }

  /** The observation at an index gave no reason when it was the newest. */
  ghost predicate CalmAt(h: seq<Observation>, k: int)
    requires 0 <= k < |h|
  {
    Calm(h[..k + 1])
  }

  /** The order in which reasons are looked for. */
  function Order(r: Reason): nat {
    match r
    case NativeLimit => 0
    case CheckerSaturated => 1
    case BindingConflict => 2
    case ObservationUnavailable => 3
    case InvalidObservation => 4
    case MetadataConflict => 5
    case AgeUnavailable => 6
    case CommittedHalfUnobserved => 7
    case ConfirmationGap => 8
    case PreparationExpired => 9
    case InvalidCheck => 10
    case NoReason => 11
  }

  /** The reason is the first that the newest observation gives, or none if it gives none. */
  ghost predicate IsFirst(h: seq<Observation>, r: Reason)
    requires h != []
  {
    && (if r.NoReason? then Calm(h) else Gives(h, r))
    && forall q: Reason :: Gives(h, q) ==> Order(r) <= Order(q)
  }

  /** What the tests of a poll find, by the clocks it keeps, is what its history gives. */
  lemma VerdictIsFirst(h: seq<Observation>, saturatedSince: Option<real>, errorSince: Option<real>)
    requires h != [] && SaturatedSince(h, saturatedSince) && ErrorSince(h, errorSince)
    ensures IsFirst(h, Verdict(h[|h| - 1], saturatedSince, errorSince))
  {
    var o := h[|h| - 1];
    SaturationIsSeen(h, saturatedSince);
    if o.failed {
      FailureIsSeen(h, errorSince);
    }
    hide SaturatedSince, ErrorSince, FullFrom, FailingFrom;
  }

  lemma SaturationIsSeen(h: seq<Observation>, since: Option<real>)
    requires h != [] && SaturatedSince(h, since)
    ensures Gives(h, CheckerSaturated) <==> since.Some? && h[|h| - 1].now - since.value >= SATURATION_AGE
  {
    match since
    case None => assert forall i :: !FullRun(h, i);
    case Some(t) =>
      var i :| FullRun(h, i) && h[i].now == t && forall j :: FullRun(h, j) ==> i <= j;
      assert FullFrom(h, i);
  }

  lemma FailureIsSeen(h: seq<Observation>, since: Option<real>)
    requires h != [] && ErrorSince(h, since) && h[|h| - 1].failed
    ensures since.Some?
    ensures Gives(h, ObservationUnavailable) <==> h[|h| - 1].now - since.value >= WARNING_AGE
  {
    match since
    case None => assert false;
    case Some(t) =>
      var i :| 0 <= i < |h| && h[i].failed && h[i].now == t && NoSuccess(h, i)
               && forall k :: 0 <= k < i && NoSuccess(h, k) ==> !h[k].failed;
      assert FailingFrom(h, i);
  }

  /** How often a sequence of reasons rises from none to some. */
  function Rises(reasons: seq<Reason>): nat {
    if |reasons| < 2 then 0
    else Rises(reasons[..|reasons| - 1]) +
         if reasons[|reasons| - 2].NoReason? && !reasons[|reasons| - 1].NoReason? then 1 else 0
  }

  /** A retained sample that a review may accept. */
  predicate Reviewable(s: Sample) {
    && !s.nativeBlocked && s.conflicts == 0 && s.unaged == 0 && s.unobservedCommitted == 0
    && (s.gaps != 0 ==> !AtLeast(s.confirmationAge, WARNING_AGE))
    && (s.preparing != 0 ==> !AtLeast(s.expiryAge, WARNING_AGE))
  }

  predicate AtLeast(age: Age, bound: real) {
    match age
    case Finite(value) => value >= bound
    case Infinite(positive) => positive
    case NotANumber => false
  }

  /** A review is named by one to 128 characters, not all of them white space. */
  predicate Named(review: string) {
    |review| <= 128 && !Blank(review)
  }

  // ----- how one more observation moves the summaries -----

  /** The gap before this poll is longer than its freshness. */
  predicate Late(h: seq<Observation>, o: Observation) {
    h != [] && o.now - h[|h| - 1].now > o.freshness
  }

  lemma SaturationMoves(h: seq<Observation>, o: Observation, since: Option<real>)
    requires SaturatedSince(h, since)
    ensures SaturatedSince(h + [o],
              if !o.full then None
              else if since.None? || Late(h, o) then Some(o.now)
              else since)
  {
    var longer := h + [o];
    if o.full {
      if since.None? || Late(h, o) {
        assert FullRun(longer, |h|);
        assert longer[|h|] == o && (h != [] ==> longer[|h| - 1] == h[|h| - 1]);
        forall j | FullRun(longer, j) ensures |h| <= j {
        }
      } else {
        var i :| FullRun(h, i) && h[i].now == since.value && forall j :: FullRun(h, j) ==> i <= j;
        assert FullRun(longer, i) by {
          forall k | i <= k < |longer| ensures longer[k].full && (i < k ==> longer[k].now - longer[k - 1].now <= longer[k].freshness) {
            if k < |h| {
              assert longer[k] == h[k];
            }
          }
        }
        forall j | FullRun(longer, j) ensures i <= j {
          if j < |h| {
            assert FullRun(h, j) by {
              forall k | j <= k < |h| ensures h[k].full && (j < k ==> h[k].now - h[k - 1].now <= h[k].freshness) {
                assert longer[k] == h[k] && (j < k ==> longer[k - 1] == h[k - 1]);
              }
            }
          }
        }
      }
    }
  }

  lemma ErrorsMove(h: seq<Observation>, o: Observation, since: Option<real>)
    requires ErrorSince(h, since)
    ensures ErrorSince(h + [o],
              if o.Succeeds() then None
              else if o.failed && since.None? then Some(o.now)
              else since)
  {
    var longer := h + [o];
    if o.Succeeds() {
      assert NoSuccess(longer, |longer|) && longer[|longer| - 1].Succeeds();
    } else {
      forall i | 0 <= i <= |h| ensures NoSuccess(longer, i) == NoSuccess(h, i) {
        if NoSuccess(longer, i) {
          forall k | i <= k < |h| ensures !h[k].Succeeds() {
            assert longer[k] == h[k];
          }
        }
      }
      if since.None? {
        var i :| NoSuccess(h, i) && (i == 0 || h[i - 1].Succeeds()) && forall k :: i <= k < |h| ==> !h[k].failed;
        if o.failed {
          assert longer[|h|] == o && (i > 0 ==> longer[i - 1] == h[i - 1]);
          forall k | 0 <= k < |h| && NoSuccess(longer, k) ensures !longer[k].failed {
            assert k >= i && longer[k] == h[k];
          }
        } else {
          assert NoSuccess(longer, i) && (i == 0 || longer[i - 1].Succeeds());
        }
      } else {
        var i :| 0 <= i < |h| && h[i].failed && h[i].now == since.value && NoSuccess(h, i)
                 && forall k :: 0 <= k < i && NoSuccess(h, k) ==> !h[k].failed;
        assert longer[i] == h[i];
      }
    }
  }

  lemma RetentionMoves(h: seq<Observation>, o: Observation, sample: Sample)
    requires Retained(h, sample)
    ensures Retained(h + [o],
              if o.Succeeds() then o.sample
              else if o.sample.nativeBlocked then sample.(nativeBlocked := true)
              else sample)
  {
    var longer := h + [o];
    assert longer[..|longer| - 1] == h;
    var i: int := AfterLastSuccess(h);
    assert AfterLastSuccess(longer) == if o.Succeeds() then |longer| else i;
    BlockedMoves(h, o, if o.Succeeds() then |longer| else i);
    hide AfterLastSuccess, NoSuccess, Observation.Succeeds, BlockedSince;
  }

  lemma BlockedMoves(h: seq<Observation>, o: Observation, i: int)
    requires i <= |h| + 1
    ensures BlockedSince(h + [o], i) <==> BlockedSince(h, i) || o.sample.nativeBlocked
    ensures i > |h| ==> !BlockedSince(h, i)
  {
    var longer := h + [o];
    assert longer[|h|] == o;
    if BlockedSince(h, i) {
      var k :| 0 <= k < |h| && k >= i - 1 && h[k].sample.nativeBlocked;
      assert longer[k].sample.nativeBlocked;
    }
  }

  lemma SummariesMove(h: seq<Observation>, o: Observation)
    ensures LastPoll(h + [o]) == Some(o.now)
    ensures LastSuccess(h + [o]) == if o.Succeeds() then Some(o.now) else LastSuccess(h)
    ensures Failures(h + [o]) == Failures(h) + if o.Succeeds() then 0 else 1
  {
    assert (h + [o])[..|h|] == h;
  }

  /** The history leaves both clocks no choice: any two values that summarise it agree. */
  lemma ClocksAreDetermined(h: seq<Observation>, s: Option<real>, t: Option<real>, d: Option<real>, e: Option<real>)
    requires SaturatedSince(h, s) && SaturatedSince(h, t) && ErrorSince(h, d) && ErrorSince(h, e)
    ensures s == t && d == e
  {
    if s.Some? && t.Some? {
      var i :| FullRun(h, i) && h[i].now == s.value && forall j :: FullRun(h, j) ==> i <= j;
      var k :| FullRun(h, k) && h[k].now == t.value && forall j :: FullRun(h, j) ==> k <= j;
      assert i == k;
    }
    if d.Some? {
      ErrorClockIsDetermined(h, d, e);
    } else if e.Some? {
      ErrorClockIsDetermined(h, e, d);
    }
  }

  lemma ErrorClockIsDetermined(h: seq<Observation>, d: Option<real>, e: Option<real>)
    requires ErrorSince(h, d) && ErrorSince(h, e) && d.Some?
    ensures d == e
  {
  }

  /** Observing again, with room in the queue, what a review accepted gives no reason to latch. */
  lemma ReviewedSampleStaysQuiet(o: Observation, errorSince: Option<real>)
    requires Reviewable(o.sample) && o.sample.Valid() && !o.failed
    ensures Verdict(o, None, errorSince).NoReason?
  {
  }

  /** The same sample after some more seconds. */
  function Aged(s: Sample, seconds: real): Sample
    requires s.Valid()
  {
    s.(confirmationAge := Finite(s.confirmationAge.value + seconds), expiryAge := Finite(s.expiryAge.value + seconds))
  }

  /** A review accepts exactly what gives no reason even three minutes later. */
  lemma ReviewableIsQuietLater(s: Sample)
    requires s.Valid()
    ensures Reviewable(s) <==> Quiet(Aged(s, PROTECTION_AGE - WARNING_AGE))
    ensures Reviewable(s) ==> Quiet(s)
  {
  }

  lemma CombineVerdicts(earlier: Reason, o: Observation, saturatedSince: Option<real>, errorSince: Option<real>)
    ensures First(First(earlier, PollVerdict(o, saturatedSince)), OutcomeVerdict(o, errorSince)) ==
              First(earlier, Verdict(o, saturatedSince, errorSince))
  {
  }

  /** An open latch that stays open has seen nothing but calm observations, one more than before. */
  lemma StaysCalm(h: seq<Observation>, o: Observation, openedAt: nat, before: Reason, after: Reason)
    requires openedAt <= |h|
    requires before.NoReason? ==> forall k :: openedAt <= k < |h| ==> CalmAt(h, k)
    requires before.NoReason? ==> IsFirst(h + [o], after)
    requires after.NoReason? ==> before.NoReason?
    ensures after.NoReason? ==>
              && (o.Succeeds() ==> Quiet(o.sample))
              && forall k :: openedAt <= k < |h + [o]| ==> CalmAt(h + [o], k)
  {
    if after.NoReason? {
      var longer := h + [o];
      assert longer[|longer| - 1] == o && longer[..|h| + 1] == longer;
      if o.Succeeds() {
        assert !Gives(longer, NativeLimit) && !Gives(longer, MetadataConflict) && !Gives(longer, AgeUnavailable);
        assert !Gives(longer, CommittedHalfUnobserved) && !Gives(longer, ConfirmationGap) && !Gives(longer, PreparationExpired);
      }
      hide Calm, Gives;
      forall k | openedAt <= k < |longer| ensures CalmAt(longer, k) {
        if k < |h| {
          assert CalmAt(h, k) && longer[..k + 1] == h[..k + 1];
        }
      }
    }
  }

  class ProtocolProtection {
    var sample: Sample
    var available: bool
    var lastSuccess: Option<real>
    var lastPoll: Option<real>
    var errorSince: Option<real>
    var saturatedSince: Option<real>
    var errors: nat
    var reason: Reason
    var generation: nat
    /** Every observation ever made, and every value `reason` ever had. */
    ghost var history: seq<Observation>
    ghost var reasons: seq<Reason>
    /** How many observations had been made when a review last opened the latch. */
    ghost var openedAt: nat

    /** The fields are the summary of the history. */
    ghost predicate Valid()
      reads this
    {
      && Watching()
      && Latching()
      && Calmed()
    }

    /** While the latch is open the newest valid sample is quiet, and no observation since the last opening has
        given a reason. */
    ghost predicate Calmed()
      reads this`reason, this`history, this`openedAt
    {
      && openedAt <= |history|
      && (reason.NoReason? ==>
            && (Succeeded(history) ==> Quiet(history[|history| - 1].sample))
            && (forall k :: openedAt <= k < |history| ==> CalmAt(history, k)))
    }

    ghost predicate Watching()
      reads this`sample, this`available, this`lastSuccess, this`lastPoll, this`errorSince, this`saturatedSince
      reads this`errors, this`history
    {
      && SaturatedSince(history, saturatedSince)
      && ErrorSince(history, errorSince)
      && Retained(history, sample)
      && errors == Failures(history)
      && lastPoll == LastPoll(history)
      && lastSuccess == LastSuccess(history)
      && (available ==> Succeeded(history))
    }

    ghost predicate Latching()
      reads this`reason, this`generation, this`reasons
    {
      && |reasons| > 0 && reasons[|reasons| - 1] == reason
      && generation == Rises(reasons)
    }

    constructor ()
      ensures Valid() && history == [] && reasons == [NoReason] && reason.NoReason? && !available && openedAt == 0
    {
      sample := Unobserved;
      available := false;
      lastSuccess, lastPoll, errorSince, saturatedSince := None, None, None, None;
      errors, reason, generation := 0, NoReason, 0;
      history, reasons, openedAt := [], [NoReason], 0;
      new;
      assert NoSuccess(history, 0);
    }

    /** A first reason is kept; each rise from none gets the next generation. */
    method Latch(why: Reason)
      requires Latching() && !why.NoReason?
      modifies this`reason, this`generation, this`reasons
      ensures Latching()
      ensures reason == if old(reason).NoReason? then why else old(reason)
      ensures generation == old(generation) + if old(reason).NoReason? then 1 else 0
      ensures old(reasons) <= reasons
    {
      ghost var before := reasons;
      if reason.NoReason? {
        reason := why;
        generation := generation + 1;
      }
      reasons := reasons + [reason];
      assert reasons[..|reasons| - 1] == before;
    }

    /** The first half of a poll: the native flag and the saturation clock. */
    method NotePoll(o: Observation)
      requires Latching()
      modifies this`sample, this`lastPoll, this`saturatedSince, this`reason, this`generation, this`reasons
      ensures Latching() && old(reasons) <= reasons
      ensures sample == if o.sample.nativeBlocked then old(sample).(nativeBlocked := true) else old(sample)
      ensures lastPoll == Some(o.now)
      ensures saturatedSince == if !o.full then None
                                else if old(saturatedSince).None? then Some(o.now)
                                else if old(lastPoll).Some? && o.now - old(lastPoll).value > o.freshness then Some(o.now)
                                else old(saturatedSince)
      ensures reason == First(old(reason), PollVerdict(o, saturatedSince))
      ensures generation == old(generation) + if old(reason).NoReason? && !reason.NoReason? then 1 else 0
    {
      hide Latching;
      if o.sample.nativeBlocked {
        sample := sample.(nativeBlocked := true);
        Latch(NativeLimit);
      }
      if lastPoll.Some? && o.now - lastPoll.value > o.freshness {
        saturatedSince := None;
      }
      lastPoll := Some(o.now);
      if o.full {
        if saturatedSince.None? {
          saturatedSince := Some(o.now);
        }
        if o.now - saturatedSince.value >= SATURATION_AGE {
          Latch(CheckerSaturated);
        }
      } else {
        saturatedSince := None;
      }
    }

    /** The second half: availability, the error clock and the retained sample. */
    method NoteOutcome(o: Observation)
      requires Latching()
      modifies this`sample, this`available, this`lastSuccess, this`errorSince, this`errors
      modifies this`reason, this`generation, this`reasons
      ensures Latching() && old(reasons) <= reasons
      ensures available == o.Succeeds()
      ensures errors == old(errors) + if o.Succeeds() then 0 else 1
      ensures sample == if o.Succeeds() then o.sample else old(sample)
      ensures lastSuccess == if o.Succeeds() then Some(o.now) else old(lastSuccess)
      ensures errorSince == if o.Succeeds() then None
                            else if o.failed && old(errorSince).None? then Some(o.now)
                            else old(errorSince)
      ensures reason == First(old(reason), OutcomeVerdict(o, errorSince))
      ensures generation == old(generation) + if old(reason).NoReason? && !reason.NoReason? then 1 else 0
    {
      hide Latching;
      if o.failed {
        available := false;
        errors := errors + 1;
        if errorSince.None? {
          errorSince := Some(o.now);
        }
        if o.bindingConflict {
          Latch(BindingConflict);
        } else if o.now - errorSince.value >= WARNING_AGE {
          Latch(ObservationUnavailable);
        }
        return;
      }
      if !o.sample.Valid() {
        available := false;
        errors := errors + 1;
        Latch(InvalidObservation);
        return;
      }
      available := true;
      lastSuccess := Some(o.now);
      errorSince := None;
      sample := o.sample;
      if sample.conflicts != 0 {
        Latch(MetadataConflict);
      } else if sample.unaged != 0 {
        Latch(AgeUnavailable);
      } else if sample.unobservedCommitted != 0 {
        Latch(CommittedHalfUnobserved);
      } else if sample.gaps != 0 && sample.confirmationAge.value >= PROTECTION_AGE {
        Latch(ConfirmationGap);
      } else if sample.preparing != 0 && sample.expiryAge.value >= PROTECTION_AGE {
        Latch(PreparationExpired);
      }
    }

    /** One poll: the clocks and the sample move as the history says, and an open latch closes on the
        first reason the observation gives. */
    method Observe(o: Observation)
      requires Valid()
      modifies this
      ensures Valid() && history == old(history) + [o] && available == o.Succeeds()
      ensures if old(reason).NoReason? then IsFirst(history, reason) else reason == old(reason)
      ensures reason == First(old(reason), Verdict(o, saturatedSince, errorSince))
      ensures generation == old(generation) + if old(reason).NoReason? && !reason.NoReason? then 1 else 0
      ensures old(reasons) <= reasons && openedAt == old(openedAt)
    {
      hide SaturatedSince, ErrorSince, Retained, Failures, LastSuccess, Latching, PollVerdict, OutcomeVerdict, Verdict;
      ghost var h := history;
      SaturationMoves(h, o, saturatedSince);
      ErrorsMove(h, o, errorSince);
      RetentionMoves(h, o, sample);
      SummariesMove(h, o);
      NotePoll(o);
      NoteOutcome(o);
      history := history + [o];
      CombineVerdicts(old(reason), o, saturatedSince, errorSince);
      VerdictIsFirst(history, saturatedSince, errorSince);
      StaysCalm(h, o, openedAt, old(reason), reason);
    }

    /** A cancelled sampler withdraws its evidence. */
    method Withdraw()
      requires Valid()
      modifies this`available
      ensures Valid() && !available
    {
      available := false;
    }

    predicate Fresh(now: real, freshness: real)
      reads this
    {
      available && lastSuccess.Some? && 0.0 <= now - lastSuccess.value <= freshness
    }

    predicate Allowed(now: real, freshness: real)
      reads this
    {
      reason.NoReason? && Fresh(now, freshness)
    }

    /** Admission is allowed on the evidence of the newest observation itself, and on nothing older. */
    lemma FreshMeansNewestSucceeded(now: real, freshness: real)
      requires Valid()
      ensures Fresh(now, freshness) <==>
                available && Succeeded(history) && 0.0 <= now - history[|history| - 1].now <= freshness
      ensures Fresh(now, freshness) ==> sample == history[|history| - 1].sample
    {
      if available {
        assert AfterLastSuccess(history) == |history|;
        var last := history[|history| - 1];
        if last.sample.nativeBlocked {
          assert history[|history| - 1].sample.nativeBlocked;
        }
      }
    }

    /** Opening the latch takes a named review of the latched generation on fresh, quiet evidence. */
    method Review(now: real, freshness: real, generation: nat, review: string, ready: bool, full: bool)
      returns (r: Checked<()>)
      requires Valid()
      modifies this`reason, this`reasons, this`openedAt
      ensures Valid()
      ensures r.Accepted? <==>
                && Named(review) && generation == this.generation && !old(reason).NoReason?
                && Fresh(now, freshness) && ready && !full && Reviewable(sample)
      ensures r.Accepted? ==> reason.NoReason? && sample.Valid() && openedAt == |history|
      ensures r.Rejected? ==> reason == old(reason) && reasons == old(reasons) && openedAt == old(openedAt)
    {
      if || !Named(review)
         || generation != this.generation
         || reason.NoReason?
         || !Fresh(now, freshness)
         || !ready || full
         || !Reviewable(sample)
      {
        return Rejected;
      }
      FreshMeansNewestSucceeded(now, freshness);
      assert sample.Valid() && Quiet(sample);
      openedAt := |history|;
      ghost var before := reasons;
      reason := NoReason;
      reasons := reasons + [reason];
      assert reasons[..|reasons| - 1] == before;
      r := Accepted(());
    }
  }
}

/** The sampling loop and the admission gate in front of the transactional sender
    (src/qs_ai/bootstrap/transaction_observation.py, src/qs_ai/bootstrap/transaction_messaging.py).

    Everything runs on one event loop, so a method here is a stretch of code between two awaits; a turn of
    the sampler is split where it awaits the database. The sender belongs to the SDK: its statistics move on
    their own between stretches, and its log records what reaches it. */
module TransactionAdmission {
  import opened Outcomes
  import opened TransactionProtection

  datatype Request = Reserve | Execute | Retry | Replan

  /** What the whole observation history and the counters say at the moment of a send. */
  datatype Evidence = Evidence(open: bool, ready: bool, watch: Option<Watch>)

  datatype Watch = Watch(
    running: bool, latched: bool, now: real, freshness: real, history: seq<Observation>, openedAt: nat, unreviewed: int)

  datatype Event = Sent(request: Request, evidence: Evidence) | Registered(observed: Option<nat>) | AdmissionStopped

  /** The sampler runs, its newest observation succeeded within the freshness bound with a quiet sample, nothing
      is latched, no observation since the last review that openedAt the latch gave a reason, and every invalid
      check counted so far has been through a named review. */
  ghost predicate Supports(w: Watch) {
    && w.running && !w.latched
    && Succeeded(w.history) && 0.0 <= w.now - w.history[|w.history| - 1].now <= w.freshness
    && Quiet(w.history[|w.history| - 1].sample)
    && (forall k :: w.openedAt <= k < |w.history| ==> CalmAt(w.history, k))
    && w.unreviewed == 0
  }

  ghost predicate Supported(e: Evidence) {
    e.open && e.ready && (e.watch.Some? ==> Supports(e.watch.value))
  }

  /** Every request reached the sender on full evidence and before admission was stopped; a monitored sender
      registered only after a completed observation. */
  ghost predicate SafeLog(log: seq<Event>) {
    forall i :: 0 <= i < |log| ==>
      match log[i]
      case Sent(_, evidence) => Supported(evidence) && AdmissionStopped !in log[..i]
      case Registered(observed) => observed.Some? ==> observed.value > 0
      case AdmissionStopped => true
  }

  lemma ExtendLog(log: seq<Event>, e: Event)
    requires SafeLog(log)
    requires e.Sent? ==> Supported(e.evidence) && AdmissionStopped !in log
    requires e.Registered? && e.observed.Some? ==> e.observed.value > 0
    ensures SafeLog(log + [e])
  {
    var longer := log + [e];
    forall i | 0 <= i < |longer| ensures longer[i].Sent? ==> AdmissionStopped !in longer[..i] {
      assert longer[..i] == log[..i];
      assert log[..|log|] == log;
    }
  }

  class Sender {
    var ready: bool
    var pendingChecks: int
    var invalidChecks: int
    ghost var log: seq<Event>

    constructor ()
      ensures log == [] && 0 <= invalidChecks
    {
      ready, pendingChecks, invalidChecks, log := false, 0, 0, [];
    }

    /** The SDK's own threads: readiness and queues change freely, the count of invalid checks only grows. */
    method Drift()
      modifies this`ready, this`pendingChecks, this`invalidChecks
      ensures invalidChecks >= old(invalidChecks)
    {
      ready, pendingChecks := *, *;
      var more: int :| more >= invalidChecks;
      invalidChecks := more;
    }

    method Note(ghost e: Event)
      modifies this`log
      ensures log == old(log) + [e]
    {
      log := log + [e];
    }
  }

  datatype Task = NotStarted | Running | Ended

  /** How one awaited read ends: with a value, with an error of the binding or another kind, or cancelled. */
  datatype Answer<T> = Got(value: T) | Failed(binding: bool) | Cancelled

  datatype Reading = Interrupted | Reading(sample: Sample, failed: bool, binding: bool)

  class ProtocolMonitor {
    const sender: Sender
    const policy: ProtocolProtection
    const workers: int
    const queue: int
    const budget: real
    const freshness: real
    const native: bool
    var inflight: bool
    var task: Task
    /** Events exist once the loop is started; the value says whether the event is set. */
    var stop: Option<bool>
    var initial: Option<bool>
    var stopped: bool
    var seenInvalid: int
    /** The count of invalid checks covered by the last review that opening the latch. */
    ghost var reviewedInvalid: int

    ghost predicate Valid()
      reads this, policy, sender`invalidChecks
    {
      && policy.Valid()
      && (stop.None? <==> task.NotStarted?) && (initial.None? <==> task.NotStarted?)
      && (stop.Some? ==> stop.value == stopped)
      && (task.NotStarted? ==> policy.history == [])
      && (inflight ==> task.Running?)
      && (task.Running? ==> policy.available == Succeeded(policy.history))
      && (task.Running? && initial == Some(true) ==> policy.history != [])
      && 0 <= reviewedInvalid <= seenInvalid <= sender.invalidChecks
      && (policy.reason.NoReason? ==> reviewedInvalid == seenInvalid)
    }

    constructor (sender: Sender, workers: int, queue: int, interval: real, budget: real, native: bool)
      requires workers >= 1 && queue >= 0 && interval > 0.0 && budget > 0.0
      requires sender.invalidChecks >= 0
      ensures Valid() && fresh(policy) && this.sender == sender && task.NotStarted? && !stopped
      ensures freshness == 2.0 * interval + budget
      ensures this.workers == workers && this.queue == queue
    {
      this.sender := sender;
      var p := new ProtocolProtection();
      policy := p;
      this.workers, this.queue, this.budget, this.native := workers, queue, budget, native;
      freshness := 2.0 * interval + budget;
      inflight, task, stop, initial, stopped := false, NotStarted, None, None, false;
      seenInvalid, reviewedInvalid := 0, 0;
    }

    method Start() returns (r: Checked<()>)
      requires Valid()
      modifies this`task, this`stop, this`initial
      ensures Valid()
      ensures r.Accepted? <==> old(task).NotStarted? && !stopped
      ensures r.Accepted? ==> task.Running? && initial == Some(false)
      ensures r.Rejected? ==> task == old(task) && stop == old(stop) && initial == old(initial)
    {
      if !task.NotStarted? || stopped {
        return Rejected;
      }
      stop, initial, task := Some(false), Some(false), Running;
      r := Accepted(());
    }

    method Stop()
      requires Valid()
      modifies this`stopped, this`stop
      ensures Valid() && stopped
    {
      stopped := true;
      if stop.Some? {
        stop := Some(true);
      }
    }

    /** The head of a sampling turn: leave the loop when stopping, otherwise begin to read. */
    method BeginTurn()
      requires Valid() && task.Running? && !inflight
      modifies this`inflight, this`task, this`initial
      ensures Valid()
      ensures if stopped then task.Ended? && !inflight else task.Running? && inflight
      ensures initial == if stopped then Some(true) else old(initial)
    {
      if stop.value {
        initial, task := Some(true), Ended;
        return;
      }
      inflight := true;
    }

    /** What the two reads of a turn amount to: the native flag is read first and shares the time budget. */
    function Resolve(nativeAnswer: Answer<bool>, elapsed: real, answer: Answer<Sample>): Reading {
      if native && nativeAnswer.Cancelled? then Interrupted
      else if native && nativeAnswer.Failed? then Reading(Unobserved, true, nativeAnswer.binding)
      else
        var blocked := native && nativeAnswer.value;
        if native && budget - elapsed <= 0.0 then Reading(Unobserved.(nativeBlocked := blocked), true, false)
        else
          match answer
          case Cancelled => Interrupted
          case Failed(binding) => Reading(Unobserved.(nativeBlocked := blocked), true, binding)
          case Got(sample) => Reading(sample.(nativeBlocked := blocked), false, false)
    }

    /** A reading counts as a success only if every read answered and the native one left time; whatever the
        outcome, the native answer is kept. */
    lemma ResolveNeedsBothAnswers(nativeAnswer: Answer<bool>, elapsed: real, answer: Answer<Sample>)
      ensures var r := Resolve(nativeAnswer, elapsed, answer);
              && (r.Reading? && !r.failed <==> answer.Got? && (native ==> nativeAnswer.Got? && elapsed < budget))
              && (r.Reading? ==> (r.sample.nativeBlocked <==> native && nativeAnswer == Got(true)))
              && (r.Reading? && !r.failed ==> r.sample.(nativeBlocked := false) == answer.value.(nativeBlocked := false))
              && (r.Interrupted? ==> (native && nativeAnswer.Cancelled?) || answer.Cancelled?)
    {
    }

    function Full(): bool
      reads sender`pendingChecks
    {
      sender.pendingChecks >= workers + queue
    }

    /** The turn after its reads: a stopped or cancelled loop ends without observing; otherwise exactly one
        observation enters the policy, after any newly counted invalid check has latched it. */
    method FinishTurn(reading: Reading, now: real)
      requires Valid() && task.Running? && inflight
      modifies this`inflight, this`task, this`initial, this`seenInvalid, policy
      ensures Valid() && !inflight && initial == Some(true)
      ensures reading.Interrupted? || stopped ==>
                && task.Ended? && policy.history == old(policy.history) && policy.reason == old(policy.reason)
      ensures reading.Reading? && !stopped ==>
                var o := Observation(now, reading.sample, reading.failed, reading.binding, Full(), freshness);
                var invalid := if sender.invalidChecks > old(seenInvalid) then InvalidCheck else NoReason;
                && task.Running? && policy.history == old(policy.history) + [o]
                && policy.reason == First(First(old(policy.reason), invalid),
                                          Verdict(o, policy.saturatedSince, policy.errorSince))
                && (if !old(policy.reason).NoReason? then policy.reason == old(policy.reason)
                    else if sender.invalidChecks > old(seenInvalid) then policy.reason.InvalidCheck?
                    else IsFirst(policy.history, policy.reason))
    {
      hide SaturatedSince, ErrorSince, Retained, Failures, LastSuccess, LastPoll, Rises, PollVerdict, OutcomeVerdict;
      hide ProtocolProtection.Watching, ProtocolProtection.Latching;
      inflight := false;
      if reading.Interrupted? {
        policy.Withdraw();
        initial, task := Some(true), Ended;
        return;
      }
      if stop.value {
        initial, task := Some(true), Ended;
        return;
      }
      var full := Full();
      var invalid := sender.invalidChecks;
      if invalid > seenInvalid {
        policy.Latch(InvalidCheck);
      }
      seenInvalid := invalid;
      policy.Observe(Observation(now, reading.sample, reading.failed, reading.binding, full, freshness));
      initial := Some(true);
    }

    /** The loop's task can also be cancelled while it sleeps between two turns. */
    method CancelSleep()
      requires Valid() && task.Running? && !inflight
      modifies this`task, this`initial
      ensures Valid() && task.Ended?
    {
      initial, task := Some(true), Ended;
    }

    predicate Allowed(now: real)
      reads this, policy, sender`invalidChecks
    {
      !stopped && task.Running? && sender.invalidChecks <= seenInvalid && policy.Allowed(now, freshness)
    }

    ghost function Watched(now: real): Watch
      reads this, policy, sender`invalidChecks
    {
      Watch(!stopped && task.Running?, !policy.reason.NoReason?, now, freshness, policy.history, policy.openedAt,
            sender.invalidChecks - reviewedInvalid)
    }

    /** The few fields `allowed` looks at say exactly what the history and the counters say. */
    lemma AllowedIsSupported(now: real)
      requires Valid()
      ensures Allowed(now) <==> Supports(Watched(now))
    {
      policy.FreshMeansNewestSucceeded(now, freshness);
    }

    method Review(now: real, generation: nat, review: string) returns (r: Checked<()>)
      requires Valid()
      modifies policy`reason, policy`reasons, policy`openedAt, this`reviewedInvalid
      ensures Valid()
      ensures r.Accepted? <==>
                && !stopped && task.Running? && sender.invalidChecks <= seenInvalid
                && Named(review) && generation == policy.generation && !old(policy.reason).NoReason?
                && policy.Fresh(now, freshness) && sender.ready && !Full() && Reviewable(policy.sample)
      ensures r.Accepted? ==> policy.reason.NoReason? && reviewedInvalid == sender.invalidChecks
      ensures r.Rejected? ==> policy.reason == old(policy.reason) && reviewedInvalid == old(reviewedInvalid)
    {
      if stopped || !task.Running? || sender.invalidChecks > seenInvalid {
        return Rejected;
      }
      r := policy.Review(now, freshness, generation, review, sender.ready, Full());
      if r.Accepted? {
        reviewedInvalid := seenInvalid;
      }
    }
  }

  class TransactionRuntime {
    const sender: Sender
    const monitor: ProtocolMonitor?
    var admitted: bool
    var stopping: bool

    ghost predicate Valid()
      reads this, sender, monitor, if monitor == null then {} else {monitor.policy}
    {
      && (monitor != null ==> monitor.sender == sender && monitor.Valid())
      && SafeLog(sender.log)
      && (stopping <==> AdmissionStopped in sender.log)
      && (stopping ==> !admitted)
    }

    constructor (sender: Sender, admitted: bool, monitor: ProtocolMonitor?)
      requires sender.log == []
      requires monitor != null ==> monitor.sender == sender && monitor.Valid()
      ensures Valid() && this.sender == sender && this.monitor == monitor && this.admitted == admitted && !stopping
    {
      this.sender, this.monitor, this.admitted, stopping := sender, monitor, admitted, false;
    }

    predicate IsAdmitted(now: real)
      reads this, sender`ready, sender`invalidChecks, monitor, if monitor == null then {} else {monitor.policy}
      requires monitor != null ==> monitor.sender == sender
    {
      admitted && !stopping && sender.ready && (monitor != null ==> monitor.Allowed(now))
    }

    ghost function EvidenceAt(now: real): Evidence
      reads this, sender`ready, sender`invalidChecks, monitor, if monitor == null then {} else {monitor.policy}
      requires monitor != null ==> monitor.sender == sender
    {
      Evidence(admitted && !stopping, sender.ready, if monitor == null then None else Some(monitor.Watched(now)))
    }

    /** The gate opens exactly on full evidence. */
    lemma AdmittedIsSupported(now: real)
      requires Valid()
      ensures IsAdmitted(now) <==> Supported(EvidenceAt(now))
    {
      if monitor != null {
        monitor.AllowedIsSupported(now);
      }
    }

    method SetAdmission(opening: bool, now: real) returns (r: Checked<()>)
      requires Valid()
      modifies this`admitted
      ensures Valid()
      ensures r.Accepted? <==>
                !stopping && (opening ==> sender.ready && (monitor != null ==> Supports(monitor.Watched(now))))
      ensures admitted == if r.Accepted? then opening else old(admitted)
    {
      if monitor != null {
        monitor.AllowedIsSupported(now);
      }
      if stopping || (opening && (!sender.ready || (monitor != null && !monitor.Allowed(now)))) {
        return Rejected;
      }
      admitted := opening;
      r := Accepted(());
    }

    /** Reserve, execute, retry and replan pass the same gate: a request reaches the sender exactly when the
        evidence supports it, and is refused without reaching it otherwise. */
    method Send(request: Request, now: real) returns (r: Checked<()>)
      requires Valid()
      modifies sender`log
      ensures Valid()
      ensures r.Accepted? <==> Supported(EvidenceAt(now))
      ensures sender.log == old(sender.log) + if r.Accepted? then [Sent(request, EvidenceAt(now))] else []
    {
      AdmittedIsSupported(now);
      if !IsAdmitted(now) {
        return Rejected;
      }
      ghost var e := Sent(request, EvidenceAt(now));
      ExtendLog(sender.log, e);
      sender.Note(e);
      r := Accepted(());
    }

    method StopAdmission()
      requires Valid()
      modifies this`admitted, this`stopping, sender`log
      ensures Valid() && stopping && sender.log == old(sender.log) + [AdmissionStopped]
    {
      admitted, stopping := false, true;
      ExtendLog(sender.log, AdmissionStopped);
      sender.Note(AdmissionStopped);
    }

    /** The end of a failed start: nothing can be sent any more. */
    method AbandonStart()
      requires Valid()
      modifies this`admitted, this`stopping, sender`log, monitor
      ensures Valid() && stopping && (monitor != null ==> monitor.stopped) && old(sender.log) <= sender.log
    {
      StopAdmission();
      if monitor != null {
        monitor.Stop();
      }
    }

    /** The head of a start, up to waiting for the first observation. */
    method BeginStart() returns (r: Checked<()>)
      requires Valid()
      modifies this`admitted, this`stopping, sender`log, monitor
      ensures Valid() && old(sender.log) <= sender.log
      ensures r.Rejected? ==> stopping
    {
      r := Accepted(());
      if monitor != null {
        r := monitor.Start();
        if r.Rejected? {
          AbandonStart();
        }
      }
    }

    /** The rest of a start: the sender registers only with a live, unstopped sampler that has observed. */
    method FinishStart(registers: bool) returns (r: Checked<()>)
      requires Valid()
      requires monitor != null ==> monitor.initial == Some(true)
      modifies this`admitted, this`stopping, sender`log, monitor
      ensures Valid() && old(sender.log) <= sender.log
      ensures r.Accepted? <==> registers && (monitor != null ==> old(monitor.task).Running? && !old(monitor.stopped))
      ensures r.Rejected? ==> stopping
    {
      if monitor != null && (!monitor.task.Running? || monitor.stopped) {
        AbandonStart();
        return Rejected;
      }
      ghost var e := Registered(if monitor == null then None else Some(|monitor.policy.history|));
      ExtendLog(sender.log, e);
      sender.Note(e);
      if !registers {
        AbandonStart();
        return Rejected;
      }
      r := Accepted(());
    }

    method ReviewProtection(now: real, generation: nat, review: string) returns (r: Checked<()>)
      requires Valid()
      modifies monitor, if monitor == null then {} else {monitor.policy}
      ensures Valid()
      ensures r.Accepted? ==> !stopping && monitor != null && generation == monitor.policy.generation
      ensures r.Accepted? ==> monitor.policy.reason.NoReason? && monitor.reviewedInvalid == sender.invalidChecks
    {
      if stopping || monitor == null {
        return Rejected;
      }
      r := monitor.Review(now, generation, review);
    }
  }

  /** Any run of a host: the tasks of the loop and the SDK's threads take their stretches in any order, with
      any clock readings and any answers. The log stays safe throughout. */
  method RunHost(runtime: TransactionRuntime, turns: nat)
    requires runtime.Valid()
    modifies runtime, runtime.sender, runtime.monitor
    modifies if runtime.monitor == null then {} else {runtime.monitor.policy}
    ensures runtime.Valid() && old(runtime.sender.log) <= runtime.sender.log
  {
    hide SafeLog, Supported, Supports, Named, Reviewable, Verdict;
    var sender, monitor := runtime.sender, runtime.monitor;
    for turn := 0 to turns
      invariant runtime.Valid() && old(sender.log) <= sender.log
    {
      var step: int, now: real, flag: bool := *, *, *;
      if step == 0 {
        sender.Drift();
      } else if step == 1 {
        var request: Request := *;
        var _ := runtime.Send(request, now);
      } else if step == 2 {
        var _ := runtime.SetAdmission(flag, now);
      } else if step == 3 {
        runtime.StopAdmission();
      } else if step == 4 {
        var _ := runtime.BeginStart();
      } else if monitor == null {
        if step == 5 {
          var _ := runtime.FinishStart(flag);
        }
      } else if step == 5 {
        if monitor.initial == Some(true) {
          var _ := runtime.FinishStart(flag);
        }
      } else if step == 6 {
        var generation: nat, review: string := *, *;
        var _ := runtime.ReviewProtection(now, generation, review);
      } else if step == 7 {
        monitor.Stop();
      } else if monitor.task.Running? {
        if monitor.inflight {
          var nativeAnswer: Answer<bool>, elapsed: real, answer: Answer<Sample> := *, *, *;
          monitor.FinishTurn(monitor.Resolve(nativeAnswer, elapsed, answer), now);
        } else if flag {
          monitor.BeginTurn();
        } else {
          monitor.CancelSleep();
        }
      }
    }
  }
}

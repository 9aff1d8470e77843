/** Single-dispatch generation (src/qs_ai/application/execution/generation.py, run by worker.py): any
    number of executions of any number of workers, for the same runs, interleaved at every await;
    each may be cancelled or crash, and each commit may fail or lose its acknowledgement. */
module Generation {
  import opened Outcomes

  datatype Provider = Provider(id: string)

  /** The parts of a frozen generation that the dispatch looks at. */
  datatype Request = Request(provider: Provider, model: string, publication: Option<string>, body: string)

  datatype Response = Response(invocation: nat, model: string, output: string)

  datatype Generated = Generated(request: Request, response: Response)

  /** Stored JSON either decodes to what was encoded or is invalid. */
  datatype Stored<T> = Encoded(value: T) | Unreadable

  datatype Status = Dispatched | ResponseReceived | Unknown | FailedCall

  /** One row of model_calls; `creator` names the execution whose insert succeeded. */
  datatype Row = Row(
    invocation: nat,
    fence: nat,
    status: Status,
    request: Stored<Request>,
    response: Option<Stored<Response>>,
    failure: Option<string>,
    creator: nat)

  /** How a database transaction ends for its caller. */
  datatype Ending = Acknowledged | AcknowledgementLost | RolledBack

  /** What comes back from the gateway. */
  datatype Answer = Replies(response: Response) | Fails(code: string, unknown: bool) | Interrupted

  /** Where an execution stands between two awaits. */
  datatype Pc =
    | Started
    | Waiting
    | Admitted
    | Begun(call: Row, created: bool)
    | InFlight(call: Row)
    | Answered(call: Row, response: Response)
    | Refused(call: Row, code: string, unknown: bool)
    | Finished(result: Option<Generated>)

  datatype Execution = Execution(
    run: nat, fence: nat, process: nat, limited: bool, request: Request, pc: Pc, holdsToken: bool)

  /** The shared store, all executions, and the number of gateway calls made for each run. */
  datatype System = System(
    rows: map<nat, Row>,
    executions: map<nat, Execution>,
    calls: map<nat, nat>,
    totals: map<Provider, nat>)

  datatype Action =
    | CheckCall
    | TakeToken
    | Begin(original: Option<Stored<Request>>, invocation: nat, ending: Ending)
    | Dispatch
    | Receive(answer: Answer)
    | RecordOutcome(ending: Ending)
    | Stop

  function Calls(s: System, run: nat): nat {
    if run in s.calls then s.calls[run] else 0
  }

  /** A step moves its own execution and no other. */
  predicate Moves(s: System, s': System, e: nat) {
    && s'.executions.Keys == s.executions.Keys
    && (e in s.executions ==> s'.executions[e].run == s.executions[e].run && s'.executions[e].request == s.executions[e].request)
    && (forall x :: x in s.executions && x != e ==> s'.executions[x] == s.executions[x])
  }

  function Goto(s: System, e: nat, pc: Pc): (s': System)
    requires e in s.executions
    ensures Moves(s, s', e)
  {
    var x := s.executions[e];
    s.(executions := s.executions[e := x.(pc := pc, holdsToken := x.holdsToken && !pc.Finished?)])
  }

  /** Every way out releases the token of the execution. */
  function Finish(s: System, e: nat, result: Option<Generated>): (s': System)
    requires e in s.executions
    ensures Moves(s, s', e)
  {
    Goto(s, e, Finished(result))
  }

  /** The live generation tokens of one provider in one process. */
  function Holders(s: System, process: nat, provider: Provider): set<nat> {
    set e | e in s.executions && s.executions[e].holdsToken
            && s.executions[e].process == process && s.executions[e].request.provider == provider
  }

  predicate ResponseMatches(call: Row, request: Request, response: Response) {
    response.invocation == call.invocation && response.model == request.model
  }

  // ----- the steps between two awaits -----

  /** has_model_call: only a run without a row has to wait for capacity. */
  function CheckStep(s: System, e: nat): (s': System)
    requires e in s.executions && s.executions[e].pc.Started?
    ensures Moves(s, s', e)
  {
    var x := s.executions[e];
    Goto(s, e, if x.limited && x.run !in s.rows then Waiting else Admitted)
  }

  function TakeTokenStep(s: System, e: nat): (s': System)
    requires e in s.executions && s.executions[e].pc.Waiting?
    ensures Moves(s, s', e)
  {
    var x := s.executions[e];
    if x.request.provider in s.totals && |Holders(s, x.process, x.request.provider)| < s.totals[x.request.provider]
    then s.(executions := s.executions[e := x.(pc := Admitted, holdsToken := true)])
    else s
  }

  /** begin_model_call: returns the run's row, or inserts it with a fresh invocation. */
  function BeginStep(s: System, e: nat, original: Option<Stored<Request>>, invocation: nat, ending: Ending): (s': System)
    requires e in s.executions && s.executions[e].pc.Admitted?
    ensures Moves(s, s', e)
  {
    var x := s.executions[e];
    if x.run in s.rows then
      if ending.Acknowledged? then Goto(s, e, Begun(s.rows[x.run], false)) else Finish(s, e, None)
    else if ending.RolledBack? || exists r :: r in s.rows && s.rows[r].invocation == invocation then
      Finish(s, e, None)
    else
      var request := if original.Some? then original.value else Encoded(x.request);
      var row := Row(invocation, x.fence, Dispatched, request, None, None, e);
      var inserted := s.(rows := s.rows[x.run := row]);
      if ending.Acknowledged? then Goto(inserted, e, Begun(row, true)) else Finish(inserted, e, None)
  }

  /** After begin: return what is recorded, fail, or be the one caller that may use the gateway. */
  function DispatchStep(s: System, e: nat): (s': System)
    requires e in s.executions && s.executions[e].pc.Begun?
    ensures Moves(s, s', e)
  {
    var x := s.executions[e];
    var call := x.pc.call;
    if call.request.Unreadable? then Finish(s, e, None)
    else if x.request.publication.Some? && call.request.value != x.request then Finish(s, e, None)
    else if !x.pc.created then Finish(s, e, Recorded(call))
    else Goto(s, e, InFlight(call)).(calls := s.calls[x.run := Calls(s, x.run) + 1])
  }

  /** The answer a recorded call gives to a later execution, if any. */
  function Recorded(call: Row): Option<Generated>
    requires call.request.Encoded?
  {
    if call.status.ResponseReceived? && call.response.Some? && call.response.value.Encoded?
       && ResponseMatches(call, call.request.value, call.response.value.value)
    then Some(Generated(call.request.value, call.response.value.value))
    else None
  }

  function ReceiveStep(s: System, e: nat, answer: Answer): (s': System)
    requires e in s.executions && s.executions[e].pc.InFlight? && s.executions[e].pc.call.request.Encoded?
    ensures Moves(s, s', e)
  {
    var call := s.executions[e].pc.call;
    match answer
    case Interrupted => Finish(s, e, None)
    case Fails(code, unknown) => Goto(s, e, Refused(call, code, unknown))
    case Replies(response) =>
      if ResponseMatches(call, call.request.value, response) then Goto(s, e, Answered(call, response))
      else Goto(s, e, Refused(call, "model_call_response_mismatch", true))
  }

  /** record_model_response: only the dispatch that still owns the row may write its outcome, once. */
  function RecordStep(s: System, e: nat, ending: Ending): (s': System)
    requires e in s.executions && (s.executions[e].pc.Answered? || s.executions[e].pc.Refused?)
    requires s.executions[e].pc.call.request.Encoded?
    ensures Moves(s, s', e)
  {
    var x := s.executions[e];
    var call := x.pc.call;
    if || x.run !in s.rows || s.rows[x.run].invocation != call.invocation || s.rows[x.run].fence != x.fence
       || s.rows[x.run].status != Dispatched || ending.RolledBack?
    then
      Finish(s, e, None)
    else
      var row := s.rows[x.run];
      var updated :=
        if x.pc.Answered? then row.(status := ResponseReceived, response := Some(Encoded(x.pc.response)))
        else row.(status := if x.pc.unknown then Unknown else FailedCall, failure := Some(x.pc.code));
      Finish(s.(rows := s.rows[x.run := updated]), e,
             if x.pc.Answered? && ending.Acknowledged? then Some(Generated(call.request.value, x.pc.response)) else None)
  }

  /** One step of one execution; an action that is not due changes nothing. `Stop` is a cancellation, a
      lost lease or a crash at any await. */
  function Next(s: System, e: nat, action: Action): (s': System)
    ensures Moves(s, s', e)
  {
    if e !in s.executions then s
    else
      var pc := s.executions[e].pc;
      match action
      case CheckCall => if pc.Started? then CheckStep(s, e) else s
      case TakeToken => if pc.Waiting? then TakeTokenStep(s, e) else s
      case Begin(original, invocation, ending) => if pc.Admitted? then BeginStep(s, e, original, invocation, ending) else s
      case Dispatch => if pc.Begun? then DispatchStep(s, e) else s
      case Receive(answer) => if pc.InFlight? && pc.call.request.Encoded? then ReceiveStep(s, e, answer) else s
      case RecordOutcome(ending) =>
        if (pc.Answered? || pc.Refused?) && pc.call.request.Encoded? then RecordStep(s, e, ending) else s
      case Stop => if pc.Finished? then s else Finish(s, e, None)
  }

  /** A schedule interleaves steps of any executions. */
  function RunSchedule(s: System, schedule: seq<(nat, Action)>): System {
    if schedule == [] then s
    else Next(RunSchedule(s, schedule[..|schedule| - 1]), schedule[|schedule| - 1].0, schedule[|schedule| - 1].1)
  }

  predicate Initial(s: System) {
    && s.rows == map[] && s.calls == map[]
    && forall e :: e in s.executions ==> s.executions[e].pc.Started? && !s.executions[e].holdsToken
  }

  // ----- the invariant -----

  /** The parts of a row that never change, and its outcome once it has one. */
  predicate SameCall(call: Row, row: Row) {
    && row.invocation == call.invocation && row.fence == call.fence
    && row.request == call.request && row.creator == call.creator
    && (call.status != Dispatched ==> row == call)
  }

  /** This execution inserted the row of its run. */
  predicate Owns(s: System, e: nat, call: Row) {
    e in s.executions && s.executions[e].run in s.rows && SameCall(call, s.rows[s.executions[e].run])
    && call.creator == e && call.status == Dispatched
  }

  /** The row waits for its outcome from this execution. */
  predicate Undecided(s: System, e: nat) {
    && e in s.executions && s.executions[e].run in s.rows
    && var row := s.rows[s.executions[e].run];
       row.status == Dispatched && row.fence == s.executions[e].fence && row.response.None? && row.failure.None?
  }

  predicate ExecutionInv(s: System, e: nat)
    requires e in s.executions
  {
    var x := s.executions[e];
    match x.pc
    case Started => !x.holdsToken
    case Waiting => !x.holdsToken
    case Admitted => x.limited && !x.holdsToken ==> x.run in s.rows
    case Begun(call, created) =>
      && x.run in s.rows && SameCall(call, s.rows[x.run])
      && (created ==> Owns(s, e, call) && Calls(s, x.run) == 0 && Undecided(s, e)
                      && (x.limited ==> x.holdsToken))
    case InFlight(call) => Dispatches(s, e, call)
    case Answered(call, response) => Dispatches(s, e, call) && ResponseMatches(call, call.request.value, response)
    case Refused(call, _, _) => Dispatches(s, e, call)
    case Finished(result) =>
      && !x.holdsToken
      && (result.Some? ==> Certified(s, x.run, result.value))
  }

  /** This execution made the one gateway call of its run, under a token if there is a limit. */
  predicate Dispatches(s: System, e: nat, call: Row) {
    && Owns(s, e, call) && call.request.Encoded? && Calls(s, s.executions[e].run) == 1 && Undecided(s, e)
    && (s.executions[e].limited ==> s.executions[e].holdsToken)
    && (s.executions[e].request.publication.Some? ==> call.request.value == s.executions[e].request)
  }

  /** A result is exactly what the run's row records, for good. */
  predicate Certified(s: System, run: nat, result: Generated) {
    && run in s.rows && s.rows[run].status == ResponseReceived
    && s.rows[run].request == Encoded(result.request)
    && s.rows[run].response == Some(Encoded(result.response))
    && ResponseMatches(s.rows[run], result.request, result.response)
  }

  ghost predicate RowsInv(s: System) {
    && (forall run :: run in s.calls ==> s.calls[run] <= 1 && (s.calls[run] == 1 ==> run in s.rows))
    && (forall run :: run in s.rows ==> CreatedBy(s, run, s.rows[run].creator))
  }

  /** The creator of a row is past its insert. */
  predicate CreatedBy(s: System, run: nat, e: nat) {
    && e in s.executions && s.executions[e].run == run
    && !s.executions[e].pc.Started? && !s.executions[e].pc.Waiting? && !s.executions[e].pc.Admitted?
  }

  ghost predicate TokensInv(s: System) {
    && (forall process, provider :: provider in s.totals ==> |Holders(s, process, provider)| <= s.totals[provider])
    && (forall e :: e in s.executions && s.executions[e].holdsToken ==> s.executions[e].request.provider in s.totals)
  }

  ghost predicate Inv(s: System) {
    && (forall e :: e in s.executions ==> ExecutionInv(s, e))
    && RowsInv(s)
    && TokensInv(s)
  }

  // ----- every step of every execution keeps the invariant -----

  lemma {:induction false} Subset(a: set<nat>, b: set<nat>)
    requires a <= b
    ensures |a| <= |b|
  {
    if a != {} {
      var x :| x in a;
      Subset(a - {x}, b - {x});
    }
  }

  /** Moving one execution without a new token only shrinks the sets of token holders. */
  lemma TokensShrink(s: System, s': System, e: nat, x: Execution)
    requires TokensInv(s) && e in s.executions && s'.totals == s.totals
    requires s'.executions == s.executions[e := x]
    requires x.process == s.executions[e].process && x.request == s.executions[e].request
    requires x.holdsToken ==> s.executions[e].holdsToken
    ensures TokensInv(s')
  {
    forall process, provider | provider in s.totals
      ensures |Holders(s', process, provider)| <= s.totals[provider]
    {
      Subset(Holders(s', process, provider), Holders(s, process, provider));
    }
  }

  /** An execution is untouched by a step that leaves it and its run's row and count alone. */
  lemma Frame(s: System, s': System, e: nat)
    requires e in s.executions && ExecutionInv(s, e)
    requires e in s'.executions && s'.executions[e] == s.executions[e]
    requires var run := s.executions[e].run;
             && Calls(s', run) == Calls(s, run)
             && (run in s.rows ==> run in s'.rows && s'.rows[run] == s.rows[run])
    ensures ExecutionInv(s', e)
  {
  }

  /** A step that leaves every row and count alone only has to be checked for its own execution. */
  lemma LocalStep(s: System, s': System, e: nat, x: Execution)
    requires Inv(s) && e in s.executions
    requires s' == s.(executions := s.executions[e := x])
    requires x.run == s.executions[e].run && x.process == s.executions[e].process && x.request == s.executions[e].request
    requires x.holdsToken ==> s.executions[e].holdsToken
    requires !s.executions[e].pc.Started? && !s.executions[e].pc.Waiting? && !s.executions[e].pc.Admitted? ==>
               !x.pc.Started? && !x.pc.Waiting? && !x.pc.Admitted?
    requires ExecutionInv(s', e)
    ensures Inv(s')
  {
    TokensShrink(s, s', e, x);
    hide TokensInv, ExecutionInv;
    forall y | y in s'.executions ensures ExecutionInv(s', y) {
      if y != e {
        Frame(s, s', y);
      }
    }
  }

  lemma CheckKeepsInv(s: System, e: nat)
    requires Inv(s) && e in s.executions && s.executions[e].pc.Started?
    ensures Inv(CheckStep(s, e))
  {
    hide Moves, TokensInv, RowsInv;
    var s' := CheckStep(s, e);
    assert ExecutionInv(s', e);
    LocalStep(s, s', e, s'.executions[e]);
  }

  lemma FinishKeepsInv(s: System, e: nat, result: Option<Generated>)
    requires Inv(s) && e in s.executions
    requires result.Some? ==> Certified(s, s.executions[e].run, result.value)
    ensures Inv(Finish(s, e, result))
  {
    hide Moves, TokensInv, RowsInv;
    var s' := Finish(s, e, result);
    assert ExecutionInv(s', e);
    LocalStep(s, s', e, s'.executions[e]);
  }

  lemma OneMoreToken(s: System, e: nat)
    requires TokensInv(s) && e in s.executions && s.executions[e].pc.Waiting? && !s.executions[e].holdsToken
    ensures TokensInv(TakeTokenStep(s, e))
  {
    hide Moves;
    var s', x := TakeTokenStep(s, e), s.executions[e];
    if s' != s {
      var y := s'.executions[e];
      assert s' == s.(executions := s.executions[e := y]);
      forall process, provider | provider in s.totals
        ensures |Holders(s', process, provider)| <= s.totals[provider]
      {
        if process == x.process && provider == x.request.provider {
          assert Holders(s', process, provider) == Holders(s, process, provider) + {e};
        } else {
          assert Holders(s', process, provider) == Holders(s, process, provider);
        }
      }
    }
  }

  lemma TakeTokenKeepsInv(s: System, e: nat)
    requires Inv(s) && e in s.executions && s.executions[e].pc.Waiting?
    ensures Inv(TakeTokenStep(s, e))
  {
    var s' := TakeTokenStep(s, e);
    assert ExecutionInv(s, e) && ExecutionInv(s', e) by {
      hide TokensInv, RowsInv, Holders;
    }
    assert !s.executions[e].holdsToken;
    hide ExecutionInv;
    OneMoreToken(s, e);
    hide TokensInv, Holders;
    forall y | y in s'.executions ensures ExecutionInv(s', y) {
      if y != e {
        Frame(s, s', y);
      }
    }
  }

  lemma BeginOwn(s: System, e: nat, original: Option<Stored<Request>>, invocation: nat, ending: Ending)
    requires e in s.executions && ExecutionInv(s, e) && s.executions[e].pc.Admitted?
    requires s.executions[e].run in s.rows || Calls(s, s.executions[e].run) == 0
    ensures ExecutionInv(BeginStep(s, e, original, invocation, ending), e)
  {
    hide Moves;
  }

  lemma BeginRows(s: System, e: nat, original: Option<Stored<Request>>, invocation: nat, ending: Ending)
    requires RowsInv(s) && e in s.executions && s.executions[e].pc.Admitted?
    ensures RowsInv(BeginStep(s, e, original, invocation, ending))
    ensures s.executions[e].run in s.rows || Calls(s, s.executions[e].run) == 0
  {
    hide Moves;
  }

  lemma BeginKeepsInv(s: System, e: nat, original: Option<Stored<Request>>, invocation: nat, ending: Ending)
    requires Inv(s) && e in s.executions && s.executions[e].pc.Admitted?
    ensures Inv(BeginStep(s, e, original, invocation, ending))
  {
    hide TokensInv, RowsInv, ExecutionInv;
    var s', run := BeginStep(s, e, original, invocation, ending), s.executions[e].run;
    TokensShrink(s, s', e, s'.executions[e]);
    BeginRows(s, e, original, invocation, ending);
    BeginOwn(s, e, original, invocation, ending);
    forall y | y in s'.executions ensures ExecutionInv(s', y) {
      if y != e {
        if s.executions[y].run == run && run !in s.rows {
          NoRowYet(s, s', y);
        } else {
          Frame(s, s', y);
        }
      }
    }
  }

  /** Before a run has a row, its other executions do not depend on it. */
  lemma NoRowYet(s: System, s': System, y: nat)
    requires y in s.executions && ExecutionInv(s, y) && s.executions[y].run !in s.rows
    requires y in s'.executions && s'.executions[y] == s.executions[y]
    ensures ExecutionInv(s', y)
  {
    hide Moves;
  }

  /** Only one execution of a run owns its row, so a step of the owner finds every other execution of
      the run without a claim on the count or the outcome. */
  lemma OwnerStep(s: System, s': System, e: nat, y: nat, call: Row)
    requires y in s.executions && ExecutionInv(s, y) && y != e
    requires Owns(s, e, call) && s.executions[y].run == s.executions[e].run
    requires s.rows[s.executions[e].run].status == Dispatched
    requires y in s'.executions && s'.executions[y] == s.executions[y]
    requires var run := s.executions[e].run;
             run in s'.rows && SameCall(s.rows[run], s'.rows[run])
    ensures ExecutionInv(s', y)
  {
  }

  lemma DispatchOwn(s: System, e: nat)
    requires e in s.executions && ExecutionInv(s, e) && s.executions[e].pc.Begun?
    ensures ExecutionInv(DispatchStep(s, e), e)
    ensures s.executions[e].run in s.rows
    ensures DispatchStep(s, e).calls != s.calls ==>
              && Owns(s, e, s.executions[e].pc.call) && s.rows[s.executions[e].run].status == Dispatched
              && Calls(s, s.executions[e].run) == 0
  {
    hide Moves;
  }

  lemma DispatchRows(s: System, e: nat)
    requires RowsInv(s) && e in s.executions && s.executions[e].pc.Begun? && s.executions[e].run in s.rows
    requires DispatchStep(s, e).calls != s.calls ==> Calls(s, s.executions[e].run) == 0
    ensures RowsInv(DispatchStep(s, e))
  {
    hide Recorded;
  }

  lemma DispatchKeepsInv(s: System, e: nat)
    requires Inv(s) && e in s.executions && s.executions[e].pc.Begun?
    ensures Inv(DispatchStep(s, e))
  {
    hide TokensInv, RowsInv, ExecutionInv, Owns, SameCall;
    var s', x := DispatchStep(s, e), s.executions[e];
    TokensShrink(s, s', e, s'.executions[e]);
    DispatchOwn(s, e);
    DispatchRows(s, e);
    forall y | y in s'.executions ensures ExecutionInv(s', y) {
      if y != e {
        if s.executions[y].run == x.run && s'.calls != s.calls {
          OwnerStep(s, s', e, y, x.pc.call);
        } else {
          Frame(s, s', y);
        }
      }
    }
  }

  lemma ReceiveKeepsInv(s: System, e: nat, answer: Answer)
    requires Inv(s) && e in s.executions && s.executions[e].pc.InFlight? && s.executions[e].pc.call.request.Encoded?
    ensures Inv(ReceiveStep(s, e, answer))
  {
    hide Moves, TokensInv, RowsInv;
    var s' := ReceiveStep(s, e, answer);
    assert ExecutionInv(s', e);
    LocalStep(s, s', e, s'.executions[e]);
  }

  lemma RecordOwn(s: System, e: nat, ending: Ending)
    requires RowsInv(s) && e in s.executions && ExecutionInv(s, e)
    requires (s.executions[e].pc.Answered? || s.executions[e].pc.Refused?) && s.executions[e].pc.call.request.Encoded?
    ensures ExecutionInv(RecordStep(s, e, ending), e) && RowsInv(RecordStep(s, e, ending))
    ensures RecordStep(s, e, ending).rows != s.rows ==>
              && Owns(s, e, s.executions[e].pc.call) && s.rows[s.executions[e].run].status == Dispatched
              && SameCall(s.rows[s.executions[e].run], RecordStep(s, e, ending).rows[s.executions[e].run])
  {
    hide Moves;
  }

  lemma RecordKeepsInv(s: System, e: nat, ending: Ending)
    requires Inv(s) && e in s.executions && (s.executions[e].pc.Answered? || s.executions[e].pc.Refused?)
    requires s.executions[e].pc.call.request.Encoded?
    ensures Inv(RecordStep(s, e, ending))
  {
    hide TokensInv, RowsInv, ExecutionInv, Owns, SameCall;
    var s', x := RecordStep(s, e, ending), s.executions[e];
    TokensShrink(s, s', e, s'.executions[e]);
    RecordOwn(s, e, ending);
    forall y | y in s'.executions ensures ExecutionInv(s', y) {
      if y != e {
        if s.executions[y].run == x.run && s'.rows != s.rows {
          OwnerStep(s, s', e, y, x.pc.call);
        } else {
          Frame(s, s', y);
        }
      }
    }
  }

  lemma NextKeepsInv(s: System, e: nat, action: Action)
    requires Inv(s)
    ensures Inv(Next(s, e, action))
  {
    if e in s.executions {
      var pc := s.executions[e].pc;
      match action
      case CheckCall => if pc.Started? { CheckKeepsInv(s, e); }
      case TakeToken => if pc.Waiting? { TakeTokenKeepsInv(s, e); }
      case Begin(original, invocation, ending) => if pc.Admitted? { BeginKeepsInv(s, e, original, invocation, ending); }
      case Dispatch => if pc.Begun? { DispatchKeepsInv(s, e); }
      case Receive(answer) => if pc.InFlight? && pc.call.request.Encoded? { ReceiveKeepsInv(s, e, answer); }
      case RecordOutcome(ending) =>
        if (pc.Answered? || pc.Refused?) && pc.call.request.Encoded? { RecordKeepsInv(s, e, ending); }
      case Stop => if !pc.Finished? { FinishKeepsInv(s, e, None); }
    }
  }

  lemma {:induction false} ScheduleKeepsInv(s: System, schedule: seq<(nat, Action)>)
    requires Initial(s)
    ensures Inv(RunSchedule(s, schedule))
    decreases |schedule|
  {
    if schedule == [] {
      assert forall process, provider :: Holders(s, process, provider) == {};
    } else {
      ScheduleKeepsInv(s, schedule[..|schedule| - 1]);
      NextKeepsInv(RunSchedule(s, schedule[..|schedule| - 1]), schedule[|schedule| - 1].0, schedule[|schedule| - 1].1);
    }
  }

  // ----- what the invariant means -----

  /** For each run, over all interleavings, crashes and lost commits, the gateway is called at most once. */
  lemma AtMostOneCall(start: System, schedule: seq<(nat, Action)>, run: nat)
    requires Initial(start)
    ensures Calls(RunSchedule(start, schedule), run) <= 1
  {
    ScheduleKeepsInv(start, schedule);
  }

  /** Any two executions of a run that return, at any times, return the same request and response. */
  lemma SameAnswer(start: System, schedule: seq<(nat, Action)>, a: nat, b: nat)
    requires Initial(start)
    requires var s := RunSchedule(start, schedule);
             && a in s.executions && b in s.executions && s.executions[a].run == s.executions[b].run
             && s.executions[a].pc.Finished? && s.executions[a].pc.result.Some?
             && s.executions[b].pc.Finished? && s.executions[b].pc.result.Some?
    ensures var s := RunSchedule(start, schedule);
            s.executions[a].pc.result == s.executions[b].pc.result
  {
    ScheduleKeepsInv(start, schedule);
    var s := RunSchedule(start, schedule);
    assert ExecutionInv(s, a) && ExecutionInv(s, b);
  }

  // ----- capacity: the token asked for, and the provider called -----

  /** The calls in flight to a provider: what counts is the route of the frozen request that is sent. */
  ghost function InFlightCalls(s: System, process: nat, provider: Provider): set<nat> {
    set e | e in s.executions && s.executions[e].limited && s.executions[e].process == process && Calling(s, e, provider)
  }

  predicate Calling(s: System, e: nat, provider: Provider) {
    && e in s.executions && s.executions[e].pc.InFlight?
    && s.executions[e].pc.call.request.Encoded? && s.executions[e].pc.call.request.value.provider == provider
  }

  /** Every limited call in flight owns a live token of the provider it goes to. */
  ghost predicate CallsOwnTokens(s: System) {
    forall e, provider :: e in s.executions && s.executions[e].limited && Calling(s, e, provider) ==>
      s.executions[e].holdsToken && s.executions[e].request.provider == provider
  }

  /** The frozen request of a participant's retry, by run: begin_model_call puts it in place of the given one. */
  type Originals = map<nat, Stored<Request>>

  function OriginalOf(originals: Originals, run: nat): Option<Stored<Request>> {
    if run in originals then Some(originals[run]) else None
  }

  predicate Respects(start: System, schedule: seq<(nat, Action)>, originals: Originals) {
    forall k :: 0 <= k < |schedule| && schedule[k].0 in start.executions && schedule[k].1.Begin? ==>
      schedule[k].1.original == OriginalOf(originals, start.executions[schedule[k].0].run)
  }

  /** An execution that may be admitted could send an original to another provider than it asks for; a
      published configuration cannot, since it insists on its own request. */
  predicate Diverts(start: System, originals: Originals, e: nat) {
    && e in start.executions
    && var x := start.executions[e];
    && x.limited && x.request.publication.None?
    && x.request.provider in start.totals && start.totals[x.request.provider] > 0
    && x.run in originals && originals[x.run].Encoded? && originals[x.run].value.provider != x.request.provider
  }

  predicate SameExecution(x: Execution, y: Execution) {
    x.run == y.run && x.process == y.process && x.limited == y.limited && x.request == y.request
  }

  /** What an execution sends is its own request or the original of its run. */
  predicate SendsAsGiven(x: Execution, originals: Originals) {
    var given := if x.run in originals then originals[x.run] else Encoded(x.request);
    && (x.pc.Begun? && x.pc.created ==> x.pc.call.request == given)
    && (x.pc.InFlight? ==> x.pc.call.request == given)
  }

  /** What the executions were given never changes, and is what they send. */
  ghost predicate AsGiven(start: System, s: System, originals: Originals) {
    && s.totals == start.totals && s.executions.Keys == start.executions.Keys
    && forall e :: e in s.executions ==>
         SameExecution(s.executions[e], start.executions[e]) && SendsAsGiven(s.executions[e], originals)
  }

  predicate GivenStep(s: System, n: System, e: nat, originals: Originals) {
    && n.totals == s.totals && e in n.executions && e in s.executions
    && SameExecution(n.executions[e], s.executions[e]) && SendsAsGiven(n.executions[e], originals)
  }

  lemma BeginSendsAsGiven(s: System, e: nat, originals: Originals, invocation: nat, ending: Ending)
    requires e in s.executions && s.executions[e].pc.Admitted?
    ensures GivenStep(s, BeginStep(s, e, OriginalOf(originals, s.executions[e].run), invocation, ending), e, originals)
  {
    hide Moves;
    var n, x := BeginStep(s, e, OriginalOf(originals, s.executions[e].run), invocation, ending), s.executions[e];
    assert n.totals == s.totals && SameExecution(n.executions[e], x);
    var pc := n.executions[e].pc;
    assert pc.Finished? || (pc.Begun? && (pc.created ==> pc.call.request == if x.run in originals then originals[x.run] else Encoded(x.request)));
    hide BeginStep;
  }

  lemma DispatchSendsAsGiven(s: System, e: nat, originals: Originals)
    requires e in s.executions && s.executions[e].pc.Begun? && SendsAsGiven(s.executions[e], originals)
    ensures GivenStep(s, DispatchStep(s, e), e, originals)
  {
    hide Moves, Recorded;
  }

  lemma NextSendsAsGiven(s: System, e: nat, originals: Originals, action: Action)
    requires e in s.executions && SendsAsGiven(s.executions[e], originals)
    requires action.Begin? ==> action.original == OriginalOf(originals, s.executions[e].run)
    ensures GivenStep(s, Next(s, e, action), e, originals)
  {
    hide SendsAsGiven, Moves, BeginStep, DispatchStep, CheckStep, TakeTokenStep, ReceiveStep, RecordStep, Finish;
    var pc := s.executions[e].pc;
    match action
    case CheckCall => if pc.Started? { EntrySendsNothing(s, e, originals); }
    case TakeToken => if pc.Waiting? { EntrySendsNothing(s, e, originals); }
    case Begin(_, invocation, ending) => if pc.Admitted? { BeginSendsAsGiven(s, e, originals, invocation, ending); }
    case Dispatch => if pc.Begun? { DispatchSendsAsGiven(s, e, originals); }
    case Receive(answer) => if pc.InFlight? && pc.call.request.Encoded? { ReceiveSendsNothing(s, e, originals, answer); }
    case RecordOutcome(ending) =>
      if (pc.Answered? || pc.Refused?) && pc.call.request.Encoded? { RecordSendsNothing(s, e, originals, ending); }
    case Stop => FinishSendsNothing(s, e, originals, None);
  }

  lemma EntrySendsNothing(s: System, e: nat, originals: Originals)
    requires e in s.executions
    ensures s.executions[e].pc.Started? ==> GivenStep(s, CheckStep(s, e), e, originals)
    ensures s.executions[e].pc.Waiting? ==> GivenStep(s, TakeTokenStep(s, e), e, originals)
  {
    hide Moves, Holders;
  }

  lemma FinishSendsNothing(s: System, e: nat, originals: Originals, result: Option<Generated>)
    requires e in s.executions
    ensures GivenStep(s, Finish(s, e, result), e, originals)
  {
    hide Moves;
  }

  lemma ReceiveSendsNothing(s: System, e: nat, originals: Originals, answer: Answer)
    requires e in s.executions && s.executions[e].pc.InFlight? && s.executions[e].pc.call.request.Encoded?
    ensures GivenStep(s, ReceiveStep(s, e, answer), e, originals)
  {
    hide Moves, ResponseMatches;
  }

  lemma RecordSendsNothing(s: System, e: nat, originals: Originals, ending: Ending)
    requires e in s.executions && (s.executions[e].pc.Answered? || s.executions[e].pc.Refused?)
    requires s.executions[e].pc.call.request.Encoded?
    ensures GivenStep(s, RecordStep(s, e, ending), e, originals)
  {
    hide Moves, SendsAsGiven;
    var call := s.executions[e].pc.call;
    FinishSendsNothing(s, e, originals, None);
    var n := RecordStep(s, e, ending);
    if n != Finish(s, e, None) {
      var updated := s.(rows := n.rows);
      FinishSendsNothing(updated, e, originals, n.executions[e].pc.result);
      assert n == Finish(updated, e, n.executions[e].pc.result);
    }
  }

  lemma NextKeepsGiven(start: System, s: System, originals: Originals, e: nat, action: Action)
    requires AsGiven(start, s, originals)
    requires e in start.executions && action.Begin? ==> action.original == OriginalOf(originals, start.executions[e].run)
    ensures AsGiven(start, Next(s, e, action), originals)
  {
    if e in s.executions {
      assert SameExecution(s.executions[e], start.executions[e]);
      NextSendsAsGiven(s, e, originals, action);
    }
    hide Next, SendsAsGiven;
  }

  lemma {:induction false} ScheduleKeepsGiven(start: System, schedule: seq<(nat, Action)>, originals: Originals)
    requires Initial(start) && Respects(start, schedule, originals)
    ensures AsGiven(start, RunSchedule(start, schedule), originals)
    decreases |schedule|
  {
    if schedule != [] {
      var before, last := schedule[..|schedule| - 1], schedule[|schedule| - 1];
      ScheduleKeepsGiven(start, before, originals);
      hide AsGiven;
      NextKeepsGiven(start, RunSchedule(start, before), originals, last.0, last.1);
    }
  }

  /** A live token shows that its provider has places. */
  lemma TokenMeansPlaces(s: System, e: nat)
    requires TokensInv(s) && e in s.executions && s.executions[e].holdsToken
    ensures s.executions[e].request.provider in s.totals && s.totals[s.executions[e].request.provider] > 0
  {
    var x := s.executions[e];
    assert e in Holders(s, x.process, x.request.provider);
  }

  lemma UndivertedOwnTokens(start: System, schedule: seq<(nat, Action)>, originals: Originals)
    requires Initial(start) && Respects(start, schedule, originals)
    requires forall e :: !Diverts(start, originals, e)
    ensures CallsOwnTokens(RunSchedule(start, schedule))
  {
    var s := RunSchedule(start, schedule);
    ScheduleKeepsInv(start, schedule);
    ScheduleKeepsGiven(start, schedule, originals);
    forall e, provider | e in s.executions && s.executions[e].limited && Calling(s, e, provider)
      ensures s.executions[e].holdsToken && s.executions[e].request.provider == provider
    {
      assert ExecutionInv(s, e);
      TokenMeansPlaces(s, e);
      assert !Diverts(start, originals, e);
    }
  }

  /** Checking, taking a token, beginning and dispatching, by one execution alone. */
  function Undisturbed(e: nat, original: Option<Stored<Request>>, invocation: nat): seq<(nat, Action)> {
    [(e, CheckCall), (e, TakeToken), (e, Begin(original, invocation, Acknowledged)), (e, Dispatch)]
  }

  lemma RunFour(s: System, a: (nat, Action), b: (nat, Action), c: (nat, Action), d: (nat, Action))
    ensures RunSchedule(s, [a, b, c, d]) ==
              Next(Next(Next(Next(s, a.0, a.1), b.0, b.1), c.0, c.1), d.0, d.1)
  {
    hide Next;
    assert [a, b, c, d][..3] == [a, b, c] && [a, b, c][..2] == [a, b] && [a, b][..1] == [a] && [a][..0] == [];
    assert RunSchedule(s, [a]) == Next(s, a.0, a.1);
    assert RunSchedule(s, [a, b]) == Next(RunSchedule(s, [a]), b.0, b.1);
    assert RunSchedule(s, [a, b, c]) == Next(RunSchedule(s, [a, b]), c.0, c.1);
  }

  lemma UndisturbedSteps(s: System, e: nat, original: Option<Stored<Request>>, invocation: nat)
    ensures RunSchedule(s, Undisturbed(e, original, invocation)) ==
              Next(Next(Next(Next(s, e, CheckCall), e, TakeToken), e, Begin(original, invocation, Acknowledged)), e, Dispatch)
  {
    RunFour(s, (e, CheckCall), (e, TakeToken), (e, Begin(original, invocation, Acknowledged)), (e, Dispatch));
  }

  /** An execution of a run without a row that can be admitted and would send a request it accepts. */
  predicate CanCall(s: System, e: nat, original: Option<Stored<Request>>, invocation: nat) {
    && e in s.executions && s.executions[e].pc.Started? && s.executions[e].run !in s.rows && !s.executions[e].holdsToken
    && var x := s.executions[e];
       && (x.limited ==>
             x.request.provider in s.totals && |Holders(s, x.process, x.request.provider)| < s.totals[x.request.provider])
       && Sendable(x, original)
       && forall r :: r in s.rows ==> s.rows[r].invocation != invocation
  }

  predicate Sendable(x: Execution, original: Option<Stored<Request>>) {
    && (original.Some? ==> original.value.Encoded?)
    && (x.request.publication.Some? && original.Some? ==> original.value.value == x.request)
  }

  function Sent(x: Execution, original: Option<Stored<Request>>): Request
    requires Sendable(x, original)
  {
    if original.Some? then original.value.value else x.request
  }

  function NewRow(x: Execution, e: nat, original: Option<Stored<Request>>, invocation: nat): Row
    requires Sendable(x, original)
  {
    Row(invocation, x.fence, Dispatched, Encoded(Sent(x, original)), None, None, e)
  }

  /** It ends up calling the provider of the original, if there is one, and otherwise the one it asked for. */
  lemma UndisturbedIsInFlight(s: System, e: nat, original: Option<Stored<Request>>, invocation: nat)
    requires CanCall(s, e, original, invocation)
    ensures var n := RunSchedule(s, Undisturbed(e, original, invocation));
            var x := s.executions[e];
            var row := NewRow(x, e, original, invocation);
            && n.rows == s.rows[x.run := row] && n.totals == s.totals && n.calls == s.calls[x.run := Calls(s, x.run) + 1]
            && n.executions == s.executions[e := x.(pc := InFlight(row), holdsToken := x.limited)]
  {
    hide RunSchedule, Undisturbed, Next, Moves, Holders;
    UndisturbedSteps(s, e, original, invocation);
    UndisturbedIsAdmitted(s, e, original, invocation);
    var x := s.executions[e];
    var admitted := s.(executions := s.executions[e := x.(pc := Admitted, holdsToken := x.limited)]);
    AdmittedIsInFlight(admitted, e, original, invocation);
    var row := NewRow(x, e, original, invocation);
    assert NewRow(admitted.executions[e], e, original, invocation) == row;
    hide *;
    assert admitted.executions[e := x.(pc := InFlight(row), holdsToken := x.limited)]
           == s.executions[e := x.(pc := InFlight(row), holdsToken := x.limited)];
  }

  lemma UndisturbedIsAdmitted(s: System, e: nat, original: Option<Stored<Request>>, invocation: nat)
    requires CanCall(s, e, original, invocation)
    ensures var x := s.executions[e];
            Next(Next(s, e, CheckCall), e, TakeToken)
            == s.(executions := s.executions[e := x.(pc := Admitted, holdsToken := x.limited)])
  {
    hide Moves, Sendable;
    var x := s.executions[e];
    var s1 := Next(s, e, CheckCall);
    assert s1 == s.(executions := s.executions[e := x.(pc := if x.limited then Waiting else Admitted)]);
    WaitingHoldsNothingNew(s, s1, e);
  }

  lemma AdmittedIsInFlight(s: System, e: nat, original: Option<Stored<Request>>, invocation: nat)
    requires e in s.executions && s.executions[e].pc.Admitted? && s.executions[e].run !in s.rows
    requires Sendable(s.executions[e], original)
    requires forall r :: r in s.rows ==> s.rows[r].invocation != invocation
    ensures var n := Next(Next(s, e, Begin(original, invocation, Acknowledged)), e, Dispatch);
            var x := s.executions[e];
            var row := NewRow(x, e, original, invocation);
            && n.rows == s.rows[x.run := row] && n.totals == s.totals && n.calls == s.calls[x.run := Calls(s, x.run) + 1]
            && n.executions == s.executions[e := x.(pc := InFlight(row))]
  {
    hide Moves, Recorded, Holders;
    var s3 := Next(s, e, Begin(original, invocation, Acknowledged));
    assert s3.executions[e].pc.Begun? && s3.executions[e].pc.created;
  }

  lemma WaitingHoldsNothingNew(s: System, n: System, e: nat)
    requires e in s.executions && e in n.executions && n.executions == s.executions[e := n.executions[e]]
    requires n.executions[e].process == s.executions[e].process && n.executions[e].request == s.executions[e].request
    requires n.executions[e].holdsToken ==> s.executions[e].holdsToken
    ensures |Holders(n, s.executions[e].process, s.executions[e].request.provider)|
            <= |Holders(s, s.executions[e].process, s.executions[e].request.provider)|
  {
    Subset(Holders(n, s.executions[e].process, s.executions[e].request.provider),
           Holders(s, s.executions[e].process, s.executions[e].request.provider));
  }

  /** The exact condition: over all schedules every limited call in flight owns a live token of its own
      provider, if and only if no execution that can be admitted has, without a published configuration, a
      retry's original for another provider. */
  lemma CallsOwnTokensUnlessDiverted(start: System, originals: Originals)
    requires Initial(start)
    ensures (forall schedule :: Respects(start, schedule, originals) ==> CallsOwnTokens(RunSchedule(start, schedule)))
            <==> forall e :: !Diverts(start, originals, e)
  {
    if forall e :: !Diverts(start, originals, e) {
      forall schedule | Respects(start, schedule, originals) ensures CallsOwnTokens(RunSchedule(start, schedule)) {
        UndivertedOwnTokens(start, schedule, originals);
      }
    } else {
      var e :| Diverts(start, originals, e);
      var x := start.executions[e];
      var original := OriginalOf(originals, x.run);
      var schedule := Undisturbed(e, original, 0);
      assert Respects(start, schedule, originals);
      assert Holders(start, x.process, x.request.provider) == {};
      UndisturbedIsInFlight(start, e, original, 0);
      var n := RunSchedule(start, schedule);
      hide RunSchedule;
      assert Calling(n, e, original.value.value.provider);
      assert !CallsOwnTokens(n);
    }
  }

  function Ask(provider: Provider): Request {
    Request(provider, "m", None, "b")
  }

  /** Two executions of two runs in one process, each asking for the only place of its provider. */
  function Contended(P: Provider, Q: Provider): System {
    System(map[], map[0 := Execution(0, 1, 0, true, Ask(P), Started, false),
                      1 := Execution(1, 1, 0, true, Ask(Q), Started, false)],
           map[], map[P := 1, Q := 1])
  }

  lemma FirstCall(P: Provider, Q: Provider)
    requires P != Q
    ensures var s := RunSchedule(Contended(P, Q), Undisturbed(0, None, 0));
            var row := Row(0, 1, Dispatched, Encoded(Ask(P)), None, None, 0);
            && s.rows == map[0 := row] && s.totals == map[P := 1, Q := 1]
            && s.executions == map[0 := Execution(0, 1, 0, true, Ask(P), InFlight(row), true),
                                   1 := Execution(1, 1, 0, true, Ask(Q), Started, false)]
  {
    hide RunSchedule, Undisturbed;
    var start := Contended(P, Q);
    assert Holders(start, 0, P) == {};
    UndisturbedIsInFlight(start, 0, None, 0);
  }

  lemma SecondCall(P: Provider, Q: Provider, s: System)
    requires P != Q && s == RunSchedule(Contended(P, Q), Undisturbed(0, None, 0))
    ensures InFlightCalls(RunSchedule(s, Undisturbed(1, Some(Encoded(Ask(P))), 1)), 0, P) == {0, 1}
  {
    hide RunSchedule, Undisturbed;
    FirstCall(P, Q);
    assert Holders(s, 0, Q) == {};
    UndisturbedIsInFlight(s, 1, Some(Encoded(Ask(P))), 1);
    hide Holders;
  }

  /** With one place at P and a retry of run 1 whose original goes to P, both executions call P at once. */
  lemma TwoCallsOnOnePlace(P: Provider, Q: Provider)
    requires P != Q
    ensures var start, originals := Contended(P, Q), map[1 := Encoded(Ask(P))];
            var schedule := Undisturbed(0, None, 0) + Undisturbed(1, Some(Encoded(Ask(P))), 1);
            && Initial(start) && Respects(start, schedule, originals)
            && InFlightCalls(RunSchedule(start, schedule), 0, P) == {0, 1} && start.totals[P] == 1
  {
    var first, second := Undisturbed(0, None, 0), Undisturbed(1, Some(Encoded(Ask(P))), 1);
    assert Respects(Contended(P, Q), first + second, map[1 := Encoded(Ask(P))]);
    hide RunSchedule, Undisturbed, InFlightCalls;
    RunMore(Contended(P, Q), first, second);
    SecondCall(P, Q, RunSchedule(Contended(P, Q), first));
  }

  lemma {:induction false} RunMore(s: System, first: seq<(nat, Action)>, more: seq<(nat, Action)>)
    ensures RunSchedule(s, first + more) == RunSchedule(RunSchedule(s, first), more)
    decreases |more|
  {
    hide Next;
    if more == [] {
      assert first + more == first;
    } else {
      var init, last := more[..|more| - 1], more[|more| - 1];
      RunMore(s, first, init);
      assert (first + more)[..|first + more| - 1] == first + init;
    }
  }

  /** Without diverted requests, the calls in flight to a provider stay within its total. */
  lemma InFlightWithinCapacity(start: System, schedule: seq<(nat, Action)>, originals: Originals, process: nat, provider: Provider)
    requires Initial(start) && Respects(start, schedule, originals)
    requires forall e :: !Diverts(start, originals, e)
    ensures var s := RunSchedule(start, schedule);
            && InFlightCalls(s, process, provider) <= Holders(s, process, provider)
            && (InFlightCalls(s, process, provider) != {} ==>
                  provider in s.totals && |InFlightCalls(s, process, provider)| <= s.totals[provider])
  {
    ScheduleKeepsInv(start, schedule);
    UndivertedOwnTokens(start, schedule, originals);
    var s := RunSchedule(start, schedule);
    Subset(InFlightCalls(s, process, provider), Holders(s, process, provider));
  }

  // ----- results are returned -----

  /** Rows stay, with what never changes. */
  ghost predicate RowsKept(s: System, n: System) {
    forall run :: run in s.rows ==> run in n.rows && SameCall(s.rows[run], n.rows[run])
  }

  /** No row of this creator is new. */
  ghost predicate Untaken(s: System, n: System, creator: nat) {
    forall run :: run in n.rows && n.rows[run].creator == creator ==> run in s.rows
  }

  lemma NextKeepsRows(s: System, e: nat, action: Action)
    ensures RowsKept(s, Next(s, e, action))
    ensures forall x :: x != e || !action.Begin? ==> Untaken(s, Next(s, e, action), x)
  {
    hide Moves, Recorded, Holders, ResponseMatches, CheckStep, TakeTokenStep, BeginStep, DispatchStep, ReceiveStep, RecordStep;
    if e in s.executions {
      StepsKeepRows(s, e, action);
      StepsTouchNoRow(s, e, action);
    }
  }

  lemma StepsKeepRows(s: System, e: nat, action: Action)
    requires e in s.executions
    ensures s.executions[e].pc.Admitted? && action.Begin? ==>
              var n := BeginStep(s, e, action.original, action.invocation, action.ending);
              RowsKept(s, n) && forall x :: x != e ==> Untaken(s, n, x)
    ensures (s.executions[e].pc.Answered? || s.executions[e].pc.Refused?) && s.executions[e].pc.call.request.Encoded?
            && action.RecordOutcome? ==>
              var n := RecordStep(s, e, action.ending);
              RowsKept(s, n) && forall x :: Untaken(s, n, x)
  {
    hide Moves;
  }

  /** Every other step leaves the rows alone. */
  lemma StepsTouchNoRow(s: System, e: nat, action: Action)
    requires e in s.executions
    ensures s.executions[e].pc.Started? ==> CheckStep(s, e).rows == s.rows
    ensures s.executions[e].pc.Waiting? ==> TakeTokenStep(s, e).rows == s.rows
    ensures s.executions[e].pc.Begun? ==> DispatchStep(s, e).rows == s.rows
    ensures s.executions[e].pc.InFlight? && s.executions[e].pc.call.request.Encoded? && action.Receive? ==>
              ReceiveStep(s, e, action.answer).rows == s.rows
  {
    hide Moves, Recorded, Holders, ResponseMatches;
  }

  lemma RowsKeptTwice(a: System, b: System, c: System, e: nat)
    requires RowsKept(a, b) && RowsKept(b, c)
    ensures RowsKept(a, c)
    ensures Untaken(a, b, e) && Untaken(b, c, e) ==> Untaken(a, c, e)
  {
  }

  lemma CertifiedStays(s: System, n: System, run: nat, g: Generated)
    requires RowsKept(s, n) && Certified(s, run, g)
    ensures Certified(n, run, g) && n.rows[run] == s.rows[run]
  {
  }

  /** This execution inserted the row of its run. */
  predicate Created(s: System, e: nat) {
    e in s.executions && s.executions[e].run in s.rows && s.rows[s.executions[e].run].creator == e
  }

  lemma NotYetCreator(s: System, e: nat)
    requires Inv(s) && e in s.executions && s.executions[e].pc.Started?
    ensures !Created(s, e)
  {
  }

  /** An acknowledged begin tells the execution the row of its run, and whether it is its own. */
  lemma BeginTells(s: System, e: nat, original: Option<Stored<Request>>, invocation: nat)
    requires e in s.executions && (s.executions[e].pc.Waiting? || s.executions[e].pc.Admitted?) && !Created(s, e)
    ensures var n, run := Next(s, e, Begin(original, invocation, Acknowledged)), s.executions[e].run;
            && (Created(n, e) ==> n.executions[e].pc == Begun(n.rows[run], true))
            && (s.executions[e].pc.Admitted? && run in s.rows ==> n.executions[e].pc == Begun(s.rows[run], false))
  {
    hide Moves;
  }

  lemma CreatorDispatches(s: System, e: nat)
    requires e in s.executions && s.executions[e].pc.Begun? && s.executions[e].pc.created
    requires s.executions[e].pc.call.request.Encoded?
    requires s.executions[e].request.publication.Some? ==> s.executions[e].pc.call.request.value == s.executions[e].request
    ensures Next(s, e, Dispatch).executions[e].pc == InFlight(s.executions[e].pc.call)
  {
    hide Moves;
  }

  /** An outcome whose commit is acknowledged is recorded and, if it is a response, returned: whatever the other
      executions have done since the call was sent. */
  lemma AnswerIsReturned(s: System, e: nat)
    requires Inv(s) && e in s.executions && s.executions[e].pc.Answered?
    ensures var n, x := Next(s, e, RecordOutcome(Acknowledged)), s.executions[e];
            var g := Generated(x.pc.call.request.value, x.pc.response);
            n.executions[e].pc == Finished(Some(g)) && Certified(n, x.run, g) && n.calls == s.calls
  {
    hide Moves, RowsInv, TokensInv;
    assert ExecutionInv(s, e);
  }

  /** A refusal is recorded as unknown or as failed, and ends the execution without a result. */
  lemma RefusalIsRecorded(s: System, e: nat)
    requires Inv(s) && e in s.executions && s.executions[e].pc.Refused?
    ensures var n, x := Next(s, e, RecordOutcome(Acknowledged)), s.executions[e];
            && n.executions[e].pc == Finished(None) && n.calls == s.calls && x.run in n.rows
            && n.rows[x.run].status == (if x.pc.unknown then Unknown else FailedCall)
            && n.rows[x.run].failure == Some(x.pc.code) && n.rows[x.run].response.None?
  {
    hide Moves, RowsInv, TokensInv;
    assert ExecutionInv(s, e);
  }

  /** A call in flight whose reply names its invocation and model goes on with it; any other reply leaves the
      outcome unknown. */
  lemma MatchingReplyIsKept(s: System, e: nat, response: Response)
    requires Inv(s) && e in s.executions && s.executions[e].pc.InFlight?
    ensures var n, call := Next(s, e, Receive(Replies(response))), s.executions[e].pc.call;
            && n.rows == s.rows && n.calls == s.calls
            && (if response.invocation == call.invocation && response.model == call.request.value.model
                then n.executions[e].pc == Answered(call, response)
                else n.executions[e].pc.Refused? && n.executions[e].pc.call == call && n.executions[e].pc.unknown)
  {
    hide Moves, RowsInv, TokensInv;
    assert ExecutionInv(s, e);
  }

  /** A later execution that begins on a recorded response returns it, unless it insists on another request. */
  lemma RecordedIsReturned(s: System, e: nat, g: Generated)
    requires Inv(s) && e in s.executions && s.executions[e].pc.Begun? && !s.executions[e].pc.created
    requires s.executions[e].pc.call == s.rows[s.executions[e].run] && Certified(s, s.executions[e].run, g)
    ensures var n, x := Next(s, e, Dispatch), s.executions[e];
            && n.executions[e].pc == Finished(if x.request.publication.None? || x.request == g.request then Some(g) else None)
            && n.calls == s.calls && n.rows == s.rows
  {
    hide Moves, RowsInv, TokensInv;
  }

  function Completed(e: nat, original: Option<Stored<Request>>, invocation: nat, response: Response): seq<(nat, Action)> {
    Undisturbed(e, original, invocation) + [(e, Receive(Replies(response))), (e, RecordOutcome(Acknowledged))]
  }

  /** From every state of the invariant, an execution that can call, is answered in kind and is acknowledged ends
      with the request it sent and the response it got, after exactly one call. */
  lemma CallIsAnswered(s: System, e: nat, original: Option<Stored<Request>>, invocation: nat, response: Response)
    requires Inv(s) && CanCall(s, e, original, invocation)
    requires response.invocation == invocation && response.model == Sent(s.executions[e], original).model
    ensures var n, x := RunSchedule(s, Completed(e, original, invocation, response)), s.executions[e];
            var g := Generated(Sent(x, original), response);
            && e in n.executions && n.executions[e].pc == Finished(Some(g))
            && Certified(n, x.run, g) && Calls(n, x.run) == 1 && Inv(n)
  {
    var before, x := Undisturbed(e, original, invocation), s.executions[e];
    var flight := RunSchedule(s, before);
    var last := [(e, Receive(Replies(response))), (e, RecordOutcome(Acknowledged))];
    RunMore(s, before, last);
    RunTwo(flight, last[0], last[1]);
    UndisturbedIsInFlight(s, e, original, invocation);
    UndisturbedKeepsInv(s, e, original, invocation);
    hide RunSchedule, Undisturbed, CanCall, Inv;
    FlightIsAnswered(flight, e, response);
    CalledOnce(flight, x.run);
  }

  lemma FlightIsAnswered(s: System, e: nat, response: Response)
    requires Inv(s) && e in s.executions && s.executions[e].pc.InFlight?
    requires ResponseMatches(s.executions[e].pc.call, s.executions[e].pc.call.request.value, response)
    ensures var n, x := Next(Next(s, e, Receive(Replies(response))), e, RecordOutcome(Acknowledged)), s.executions[e];
            var g := Generated(x.pc.call.request.value, response);
            n.executions[e].pc == Finished(Some(g)) && Certified(n, x.run, g) && n.calls == s.calls && Inv(n)
  {
    hide Inv, Certified;
    MatchingReplyIsKept(s, e, response);
    var answered := Next(s, e, Receive(Replies(response)));
    NextKeepsInv(s, e, Receive(Replies(response)));
    hide Next;
    AnswerIsReturned(answered, e);
    NextKeepsInv(answered, e, RecordOutcome(Acknowledged));
  }

  lemma CalledOnce(s: System, run: nat)
    requires Inv(s)
    ensures Calls(s, run) <= 1
  {
  }

  lemma RunTwo(s: System, a: (nat, Action), b: (nat, Action))
    ensures RunSchedule(s, [a, b]) == Next(Next(s, a.0, a.1), b.0, b.1)
  {
    hide Next;
    assert [a, b][..1] == [a] && [a][..0] == [];
    assert RunSchedule(s, [a]) == Next(s, a.0, a.1);
  }

  lemma UndisturbedKeepsInv(s: System, e: nat, original: Option<Stored<Request>>, invocation: nat)
    requires Inv(s)
    ensures Inv(RunSchedule(s, Undisturbed(e, original, invocation)))
  {
    UndisturbedSteps(s, e, original, invocation);
    hide RunSchedule, Next, Inv;
    var s1 := Next(s, e, CheckCall);
    NextKeepsInv(s, e, CheckCall);
    var s2 := Next(s1, e, TakeToken);
    NextKeepsInv(s1, e, TakeToken);
    NextKeepsInv(s2, e, Begin(original, invocation, Acknowledged));
    NextKeepsInv(Next(s2, e, Begin(original, invocation, Acknowledged)), e, Dispatch);
  }

  /** Every later execution of that run that may begin returns the same, and calls nobody. */
  lemma LaterExecutionAgrees(s: System, e: nat, g: Generated, original: Option<Stored<Request>>, invocation: nat)
    requires Inv(s) && e in s.executions && s.executions[e].pc.Started? && Certified(s, s.executions[e].run, g)
    ensures var n, x := RunSchedule(s, Undisturbed(e, original, invocation)), s.executions[e];
            && e in n.executions
            && n.executions[e].pc == Finished(if x.request.publication.None? || x.request == g.request then Some(g) else None)
            && n.calls == s.calls && n.rows == s.rows
  {
    UndisturbedSteps(s, e, original, invocation);
    var s1 := Next(s, e, CheckCall);
    NextKeepsInv(s, e, CheckCall);
    LaterBegins(s, e, original, invocation);
    hide RunSchedule, Undisturbed, Next, Inv;
    var s2 := Next(s1, e, Begin(original, invocation, Acknowledged));
    NextKeepsInv(s1, e, Begin(original, invocation, Acknowledged));
    RecordedIsReturned(s2, e, g);
  }

  lemma LaterBegins(s: System, e: nat, original: Option<Stored<Request>>, invocation: nat)
    requires e in s.executions && s.executions[e].pc.Started? && s.executions[e].run in s.rows
    ensures var s1, x := Next(s, e, CheckCall), s.executions[e];
            && Next(s1, e, TakeToken) == s1
            && Next(s1, e, Begin(original, invocation, Acknowledged))
               == s.(executions := s.executions[e := x.(pc := Begun(s.rows[x.run], false))])
  {
    hide Moves;
  }

  // ----- what an execution must return -----

  /** The creator's call is answered in kind and the outcome acknowledged. */
  predicate Answers(x: Execution, answer: Answer, ending: Ending) {
    && x.pc.Begun? && x.pc.created && x.pc.call.request.Encoded?
    && (x.request.publication.Some? ==> x.pc.call.request.value == x.request)
    && answer.Replies? && ResponseMatches(x.pc.call, x.pc.call.request.value, answer.response) && ending.Acknowledged?
  }

  function AnswerTo(x: Execution, answer: Answer): Generated
    requires Answers(x, answer, Acknowledged)
  {
    Generated(x.pc.call.request.value, answer.response)
  }

  /** The execution begins on a recorded response that it accepts. */
  predicate Repeats(s: System, e: nat, g: Generated) {
    && e in s.executions && s.executions[e].run in s.rows
    && s.executions[e].pc == Begun(s.rows[s.executions[e].run], false) && Certified(s, s.executions[e].run, g)
    && (s.executions[e].request.publication.None? || s.executions[e].request == g.request)
  }

  lemma AfterDispatch(start: System, s: System, e: nat, answer: Answer, ending: Ending)
    requires Inv(s) && e in s.executions && e in start.executions && s.executions[e] == start.executions[e]
    requires RowsKept(start, s)
    ensures var n := Next(s, e, Dispatch);
            && (Answers(start.executions[e], answer, ending) ==> n.executions[e].pc == InFlight(start.executions[e].pc.call))
            && (forall g :: Repeats(start, e, g) ==> n.executions[e].pc == Finished(Some(g)))
  {
    hide Inv, Next, SameCall;
    if Answers(start.executions[e], answer, ending) {
      CreatorDispatches(s, e);
    }
    forall g | Repeats(start, e, g) ensures Next(s, e, Dispatch).executions[e].pc == Finished(Some(g)) {
      CertifiedStays(start, s, s.executions[e].run, g);
      RecordedIsReturned(s, e, g);
    }
  }

  /** The creator's matching reply is kept; whoever is finished stays finished. */
  lemma AfterReceive(s: System, e: nat, answer: Answer)
    requires Inv(s) && e in s.executions
    ensures var n, pc := Next(s, e, Receive(answer)), s.executions[e].pc;
            && (pc.Finished? ==> n.executions[e].pc == pc)
            && (pc.InFlight? && answer.Replies? && pc.call.request.Encoded? && ResponseMatches(pc.call, pc.call.request.value, answer.response)
                ==> n.executions[e].pc == Answered(pc.call, answer.response))
  {
    hide Inv, Moves;
  }

  lemma AfterRecord(s: System, e: nat, ending: Ending)
    requires Inv(s) && e in s.executions
    ensures var n, pc := Next(s, e, RecordOutcome(ending)), s.executions[e].pc;
            && (pc.Finished? ==> n.executions[e].pc == pc)
            && (pc.Answered? && pc.call.request.Encoded? && ending.Acknowledged? ==>
                  n.executions[e].pc == Finished(Some(Generated(pc.call.request.value, pc.response))))
  {
    if s.executions[e].pc.Answered? && s.executions[e].pc.call.request.Encoded? && ending.Acknowledged? {
      AnswerIsReturned(s, e);
    }
    hide Inv, Moves, RecordStep;
  }

  lemma AfterStop(s: System, e: nat)
    requires e in s.executions
    ensures var n, pc := Next(s, e, Stop), s.executions[e].pc;
            n.executions[e].pc == if pc.Finished? then pc else Finished(None)
  {
    hide Moves;
  }

  lemma AnswerOf(x: Execution, answer: Answer, ending: Ending)
    ensures Answers(x, answer, ending) ==>
              && ending.Acknowledged? && answer.Replies? && x.pc.Begun? && x.pc.call.request.Encoded?
              && ResponseMatches(x.pc.call, x.pc.call.request.value, answer.response)
              && AnswerTo(x, answer) == Generated(x.pc.call.request.value, answer.response)
  {
  }

  // ----- one execution, as it is written -----

  /** The caller of `execute`: its own steps in order, and at every await any steps of the others. */
  class DurableGeneration {
    const me: nat
    var system: System

    constructor (me: nat, system: System)
      requires Inv(system) && me in system.executions && system.executions[me].pc.Started?
      ensures this.me == me && this.system == system
    {
      this.me := me;
      this.system := system;
    }

    ghost predicate Good()
      reads this
    {
      Inv(system) && me in system.executions
    }

    /** Any number of steps of other executions. */
    method Others()
      requires Good()
      modifies this`system
      ensures Good() && system.executions[me] == old(system).executions[me]
      ensures RowsKept(old(system), system) && Untaken(old(system), system, me)
    {
      assert RowsKept(system, system) && Untaken(system, system, me);
      hide Inv, ExecutionInv, RowsKept, Untaken;
      var steps: int :| 0 <= steps;
      for i := 0 to steps
        invariant Good() && system.executions[me] == old(system).executions[me]
        invariant RowsKept(old(system), system) && Untaken(old(system), system, me)
      {
        var other: nat, action: Action := *, *;
        if other != me {
          NextKeepsInv(system, other, action);
          NextKeepsRows(system, other, action);
          RowsKeptTwice(old(system), system, Next(system, other, action), me);
          system := Next(system, other, action);
        }
      }
    }

    method Step(action: Action)
      requires Good()
      modifies this`system
      ensures Good() && system == Next(old(system), me, action)
      ensures system.executions[me].run == old(system).executions[me].run
      ensures system.executions[me].request == old(system).executions[me].request
      ensures RowsKept(old(system), system) && (!action.Begin? ==> Untaken(old(system), system, me))
    {
      hide Inv, ExecutionInv;
      NextKeepsInv(system, me, action);
      NextKeepsRows(system, me, action);
      system := Next(system, me, action);
    }

    /** Others first, then a step of this execution that inserts nothing. */
    method Turn(action: Action)
      requires Good() && !action.Begin?
      modifies this`system
      ensures Good() && system.executions[me].run == old(system).executions[me].run
      ensures system.executions[me].request == old(system).executions[me].request
      ensures RowsKept(old(system), system) && Untaken(old(system), system, me)
      ensures exists before ::
                && Inv(before) && me in before.executions && before.executions[me] == old(system).executions[me]
                && RowsKept(old(system), before) && system == Next(before, me, action)
    {
      hide Inv, ExecutionInv, RowsKept, Untaken, Next;
      Others();
      ghost var before := system;
      Step(action);
      RowsKeptTwice(old(system), before, system, me);
      assert system == Next(before, me, action);
    }

    /** execute: a run with a row needs no capacity; any other waits for a token, turn by turn. */
    method Admit(turns: nat)
      requires Good() && system.executions[me].pc.Started?
      modifies this`system
      ensures Good() && system.executions[me].run == old(system).executions[me].run
      ensures system.executions[me].request == old(system).executions[me].request
      ensures system.executions[me].pc.Waiting? || system.executions[me].pc.Admitted?
      ensures system.executions[me].run in old(system).rows ==> system.executions[me].pc.Admitted?
      ensures RowsKept(old(system), system) && Untaken(old(system), system, me)
    {
      assert forall n :: RowsKept(system, n) && system.executions[me].run in system.rows ==> system.executions[me].run in n.rows;
      hide Inv, ExecutionInv, Holders, RowsKept, Untaken, Moves;
      Turn(CheckCall);
      for turn := 0 to turns
        invariant Good() && system.executions[me].run == old(system).executions[me].run
        invariant system.executions[me].request == old(system).executions[me].request
        invariant system.executions[me].pc.Waiting? || system.executions[me].pc.Admitted?
        invariant system.executions[me].run in old(system).rows ==> system.executions[me].pc.Admitted?
        invariant RowsKept(old(system), system) && Untaken(old(system), system, me)
      {
        ghost var before := system;
        Turn(TakeToken);
        RowsKeptTwice(old(system), before, system, me);
      }
    }

    /** Up to its begin. If that is acknowledged, the execution knows the row of its run and whose it is. */
    method Enter(original: Option<Stored<Request>>, turns: nat, invocation: nat, ending: Ending)
      requires Good() && system.executions[me].pc.Started?
      modifies this`system
      ensures Good() && system.executions[me].run == old(system).executions[me].run
      ensures system.executions[me].request == old(system).executions[me].request
      ensures ending.Acknowledged? && Created(system, me) ==>
                system.executions[me].pc == Begun(system.rows[system.executions[me].run], true)
      ensures ending.Acknowledged? ==>
                forall g :: Certified(old(system), system.executions[me].run, g) ==>
                  && Certified(system, system.executions[me].run, g)
                  && system.executions[me].pc == Begun(system.rows[system.executions[me].run], false)
    {
      hide Inv, ExecutionInv, Moves, Next;
      ghost var start := system;
      NotYetCreator(system, me);
      Admit(turns);
      ghost var admitted := system;
      Others();
      ghost var before := system;
      RowsKeptTwice(start, admitted, before, me);
      assert !Created(before, me);
      Step(Begin(original, invocation, ending));
      if ending.Acknowledged? {
        BeginTells(before, me, original, invocation);
        forall g | Certified(start, system.executions[me].run, g)
          ensures Certified(system, system.executions[me].run, g)
          ensures system.executions[me].pc == Begun(system.rows[system.executions[me].run], false)
        {
          CertifiedStays(start, before, system.executions[me].run, g);
          CertifiedStays(before, system, system.executions[me].run, g);
        }
      }
    }

    /** From its begin on: dispatch if it is the creator, receive, record. The creator whose call is answered in
        kind and acknowledged returns the answer; any other returns what is recorded. */
    method Leave(answer: Answer, ending: Ending) returns (result: Option<Generated>)
      requires Good()
      modifies this`system
      ensures Good() && system.executions[me].run == old(system).executions[me].run
      ensures system.executions[me].pc == Finished(result)
      ensures RowsKept(old(system), system) && Untaken(old(system), system, me)
      ensures Answers(old(system).executions[me], answer, ending) ==> result == Some(AnswerTo(old(system).executions[me], answer))
      ensures forall g :: Repeats(old(system), me, g) ==> result == Some(g)
    {
      hide Inv, ExecutionInv, Moves, Next, RowsKept, Untaken, Answers, Repeats, AnswerTo;
      ghost var start := system;
      Turn(Dispatch);
      ghost var before :| Inv(before) && me in before.executions && before.executions[me] == start.executions[me]
                          && RowsKept(start, before) && system == Next(before, me, Dispatch);
      AfterDispatch(start, before, me, answer, ending);
      ghost var dispatched := system;
      Turn(Receive(answer));
      before :| Inv(before) && me in before.executions && before.executions[me] == dispatched.executions[me]
                && RowsKept(dispatched, before) && system == Next(before, me, Receive(answer));
      AfterReceive(before, me, answer);
      RowsKeptTwice(start, dispatched, system, me);
      ghost var received := system;
      Turn(RecordOutcome(ending));
      before :| Inv(before) && me in before.executions && before.executions[me] == received.executions[me]
                && RowsKept(received, before) && system == Next(before, me, RecordOutcome(ending));
      AfterRecord(before, me, ending);
      RowsKeptTwice(start, received, system, me);
      ghost var recorded := system;
      Step(Stop);
      RowsKeptTwice(start, recorded, system, me);
      AfterStop(recorded, me);
      result := system.executions[me].pc.result;
      AnswerOf(start.executions[me], answer, ending);
    }

    /** _execute after its admission: begin, dispatch if it is the creator, receive, record. Whatever happens, the
        execution ends without its token, and what it returns is what the row records. If the run was answered
        before, or if this execution inserts the row and its call is answered in kind and acknowledged, it does
        return that answer, whatever the others do in between. */
    method Execute(original: Option<Stored<Request>>, turns: nat, invocation: nat, begun: Ending, answer: Answer, ending: Ending)
      returns (r: Outcome<Generated>)
      requires Good() && system.executions[me].pc.Started?
      modifies this`system
      ensures Good() && !r.Crashed?
      ensures system.executions[me].pc.Finished? && !system.executions[me].holdsToken
      ensures r.Done? ==> Certified(system, system.executions[me].run, r.value)
      ensures system.executions[me].run == old(system).executions[me].run
      ensures forall g ::
                var x := old(system).executions[me];
                Certified(old(system), x.run, g) && begun.Acknowledged? && (x.request.publication.None? || x.request == g.request)
                ==> r == Done(g)
      ensures begun.Acknowledged? && Created(system, me) ==>
                var x, row := old(system).executions[me], system.rows[system.executions[me].run];
                row.request.Encoded? && (x.request.publication.Some? ==> row.request.value == x.request)
                && answer.Replies? && ResponseMatches(row, row.request.value, answer.response) && ending.Acknowledged?
                ==> r == Done(Generated(row.request.value, answer.response))
    {
      hide Inv, ExecutionInv, Moves, Next;
      Enter(original, turns, invocation, begun);
      ghost var entered := system;
      assert forall g :: Certified(old(system), system.executions[me].run, g) && begun.Acknowledged?
                         && (system.executions[me].request.publication.None? || system.executions[me].request == g.request)
                         ==> Repeats(entered, me, g);
      var result := Leave(answer, ending);
      FinishedIsCertified(system, me);
      r := if result.Some? then Done(result.value) else Raised;
    }
  }

  lemma FinishedIsCertified(s: System, e: nat)
    requires Inv(s) && e in s.executions && s.executions[e].pc.Finished?
    ensures !s.executions[e].holdsToken
    ensures s.executions[e].pc.result.Some? ==> Certified(s, s.executions[e].run, s.executions[e].pc.result.value)
  {
    assert ExecutionInv(s, e);
  }
}

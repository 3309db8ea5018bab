/**
 What one batch of tool calls may do (runtime/internal/agent/scheduler.go): the plan it follows, the log
 of what was submitted and received, and the outcome the plan prescribes for given replies.
 */
module BatchProtocol {
  import opened Common
  import opened Json
  import opened Text
  import opened Messages

  datatype Execution = Sync | Async

  datatype Concurrency = Sequential | ParallelSafe

  datatype Policy = Policy(settleAfterSuccess: bool, exclusivePerStep: bool)

  datatype Entry = Entry(execution: Execution, concurrency: Concurrency, policy: Policy)

  datatype PlannedCall = PlannedCall(index: nat, call: ToolCall, entry: Entry)

  // The states of an action; one that is accepted or running has not ended.
  datatype ActionStatus = ActionSucceeded | ActionRejected | ActionFailed | ActionCancelled | ActionInterrupted
                        | ActionNotEnded

  datatype ActionResult = ActionResult(status: ActionStatus, errorCode: string, output: Option<JsonMap>)

  // What ends a call without a result; a cancelled context is told apart.
  datatype TechnicalError = ContextCanceled | Technical(reason: string)

  // An environment may also return no result and no error.
  type Reply = Result<Option<ActionResult>, TechnicalError>

  datatype Completed = Completed(result: ToolResult, action: ActionResult)

  type Outcome = Result<Completed, TechnicalError>

  datatype CompletedAction = CompletedAction(call: ToolCall, action: ActionResult, policy: Policy)

  function TerminalStatus(status: ActionStatus): Option<ToolStatus> {
    match status
    case ActionSucceeded => Some(Succeeded)
    case ActionRejected => Some(Rejected)
    case ActionFailed => Some(Failed)
    case ActionCancelled => Some(Cancelled)
    case ActionInterrupted => Some(Interrupted)
    case ActionNotEnded => None
  }

  function DefaultCode(status: ToolStatus): string {
    match status
    case Rejected => "action_rejected"
    case Failed => "action_failed"
    case Cancelled => "action_cancelled"
    case Interrupted => "action_interrupted"
    case _ => "action_succeeded"
  }

  function ToolResultOf(call: ToolCall, action: ActionResult): Outcome {
    var status := TerminalStatus(action.status);
    if status.None? then Err(Technical("non_terminal_action_status"))
    else
      var given := TrimSpace(action.errorCode);
      var code := if status == Some(Succeeded) || given == "" then DefaultCode(status.value) else given;
      Ok(Completed(ToolResult(call.id, call.name, status.value, code, action.output), action))
  }

  // How one synchronous call ends.
  function OutcomeOf(call: ToolCall, reply: Reply): Outcome {
    if reply.Err? then Err(reply.error)
    else if reply.value.None? then Err(Technical("action result is nil"))
    else ToolResultOf(call, reply.value.value)
  }

  // A result names its call and reflects the status of the action.
  predicate Fits(call: ToolCall, o: Outcome) {
    o.Ok? ==>
      && o.value.result.toolCallId == call.id && o.value.result.name == call.name
      && Some(o.value.result.status) == TerminalStatus(o.value.action.status)
  }

  predicate IsSuccess(o: Outcome) {
    o.Ok? && o.value.result.status == Succeeded
  }

  function Outcomes(plan: seq<PlannedCall>, replies: nat -> Reply): nat -> Outcome {
    (k: nat) => if k < |plan| then OutcomeOf(plan[k].call, replies(k)) else Err(Technical(""))
  }

  // What the model is told of an action that has ended: the call, the output, how it ended, and why.  A rejection
  // without a reason gets the one given here.
  ghost predicate Tells(call: ToolCall, action: ActionResult, rejected: string, r: ToolResult) {
    var reason := TrimSpace(action.errorCode);
    && r.toolCallId == call.id && r.name == call.name && r.output == action.output
    && match action.status
       case ActionSucceeded => r.status == Succeeded && r.code == "action_succeeded"
       case ActionRejected => r.status == Rejected && r.code == if reason == "" then rejected else reason
       case ActionFailed => r.status == Failed && r.code == if reason == "" then "action_failed" else reason
       case ActionCancelled => r.status == Cancelled && r.code == if reason == "" then "action_cancelled" else reason
       case ActionInterrupted =>
         r.status == Interrupted && r.code == if reason == "" then "action_interrupted" else reason
       case ActionNotEnded => false
  }

  // Why a reply is no result.
  ghost predicate IsErrorOf(reply: Reply, e: TechnicalError) {
    match reply
    case Err(cause) => e == cause
    case Ok(None) => e == Technical("action result is nil")
    case Ok(Some(action)) => action.status == ActionNotEnded && e == Technical("non_terminal_action_status")
  }

  // A call ends with a result that tells of the action in its reply, or with the error of its reply.
  lemma ResultNamesItsCall(call: ToolCall, reply: Reply)
    ensures var o := OutcomeOf(call, reply);
      if o.Ok? then reply == Ok(Some(o.value.action)) && Tells(call, o.value.action, "action_rejected", o.value.result)
      else IsErrorOf(reply, o.error)
  {
  }

  /* ---- Groups ---- */

  predicate IsPlan(plan: seq<PlannedCall>) {
    forall k | 0 <= k < |plan| :: plan[k].index == k
  }

  predicate Parallel(plan: seq<PlannedCall>, k: nat) {
    k < |plan| && plan[k].entry.concurrency == ParallelSafe
  }

  // A group is a longest stretch of parallel-safe calls or one sequential call.
  function GroupStart(plan: seq<PlannedCall>, k: nat): (s: nat)
    requires k < |plan|
    ensures s <= k
  {
    if k > 0 && Parallel(plan, k - 1) && Parallel(plan, k) then GroupStart(plan, k - 1) else k
  }

  function GroupEnd(plan: seq<PlannedCall>, k: nat): (e: nat)
    requires k < |plan|
    ensures k < e <= |plan|
    decreases |plan| - k
  {
    if Parallel(plan, k) && Parallel(plan, k + 1) then GroupEnd(plan, k + 1) else k + 1
  }

  predicate Boundary(plan: seq<PlannedCall>, b: nat) {
    b <= |plan| && !(b > 0 && Parallel(plan, b - 1) && Parallel(plan, b))
  }

  // [s, e) is one group of the plan.
  predicate IsGroupOf(plan: seq<PlannedCall>, s: nat, e: nat) {
    && s < e <= |plan| && Boundary(plan, s) && Boundary(plan, e)
    && (e == s + 1 || forall k | s <= k < e :: Parallel(plan, k))
  }

  lemma {:induction false} GroupEnds(plan: seq<PlannedCall>, s: nat, e: nat, k: nat)
    requires IsGroupOf(plan, s, e) && s <= k < e
    ensures GroupStart(plan, k) == s && GroupEnd(plan, k) == e
  {
    StartOf(plan, s, e, k);
    EndOf(plan, s, e, k);
  }

  lemma {:induction false} StartOf(plan: seq<PlannedCall>, s: nat, e: nat, k: nat)
    requires IsGroupOf(plan, s, e) && s <= k < e
    ensures GroupStart(plan, k) == s
    decreases k
  {
    if k > s {
      assert Parallel(plan, k - 1) && Parallel(plan, k);
      StartOf(plan, s, e, k - 1);
    }
  }

  lemma {:induction false} EndOf(plan: seq<PlannedCall>, s: nat, e: nat, k: nat)
    requires IsGroupOf(plan, s, e) && s <= k < e
    ensures GroupEnd(plan, k) == e
    decreases e - k
  {
    if k + 1 < e {
      assert Parallel(plan, k) && Parallel(plan, k + 1);
      EndOf(plan, s, e, k + 1);
    }
  }

  /* ---- The log ---- */

  datatype Step = Launch(call: nat) | Receive(call: nat, outcome: Outcome)

  function Launched(log: seq<Step>): nat {
    if log == [] then 0
    else Launched(log[..|log| - 1]) + if log[|log| - 1].Launch? then 1 else 0
  }

  // The outcome received for each call.
  function Received(log: seq<Step>): map<nat, Outcome> {
    if log == [] then map[]
    else
      var before, step := Received(log[..|log| - 1]), log[|log| - 1];
      if step.Receive? then before[step.call := step.outcome] else before
  }

  function Active(log: seq<Step>): int {
    Launched(log) - |Received(log)|
  }

  // The technical errors in the order in which they were received.
  function Errors(log: seq<Step>): seq<TechnicalError> {
    if log == [] then []
    else
      var before, step := Errors(log[..|log| - 1]), log[|log| - 1];
      if step.Receive? && step.outcome.Err? then before + [step.outcome.error] else before
  }

  function Cap(limit: int): nat {
    if limit <= 0 then 1 else limit
  }

  // No further call can be launched: there was a technical error, the limit is used up, or the group is complete.
  predicate Full(plan: seq<PlannedCall>, limit: int, log: seq<Step>) {
    Errors(log) != [] || Active(log) >= Cap(limit) || Boundary(plan, Launched(log))
  }

  // Calls are launched in order, below the limit, until a technical error is received, and only when all
  // calls of earlier groups have succeeded.  As many as can be are launched before one is waited for; any of them
  // may end next and, once the group is cancelled, in any way.
  predicate CanFollow(plan: seq<PlannedCall>, outcomes: nat -> Outcome, limit: int, log: seq<Step>, step: Step) {
    match step
    case Launch(k) =>
      && k == Launched(log) < |plan| && Active(log) < Cap(limit) && Errors(log) == []
      && forall j | 0 <= j < GroupStart(plan, k) :: j in Received(log) && IsSuccess(Received(log)[j])
    case Receive(k, outcome) =>
      && k < Launched(log) && k !in Received(log) && k < |plan| && Fits(plan[k].call, outcome)
      && (Errors(log) == [] ==> outcome == outcomes(k)) && Full(plan, limit, log)
  }

  predicate IsRun(plan: seq<PlannedCall>, outcomes: nat -> Outcome, limit: int, log: seq<Step>) {
    log == [] ||
    (IsRun(plan, outcomes, limit, log[..|log| - 1]) &&
     CanFollow(plan, outcomes, limit, log[..|log| - 1], log[|log| - 1]))
  }

  lemma RunNext(plan: seq<PlannedCall>, outcomes: nat -> Outcome, limit: int, log: seq<Step>, step: Step)
    requires IsRun(plan, outcomes, limit, log) && CanFollow(plan, outcomes, limit, log, step)
    ensures IsRun(plan, outcomes, limit, log + [step])
  {
    assert (log + [step])[..|log|] == log;
  }

  lemma LogNext(log: seq<Step>, step: Step)
    ensures Launched(log + [step]) == Launched(log) + if step.Launch? then 1 else 0
    ensures Received(log + [step]) == if step.Receive? then Received(log)[step.call := step.outcome] else Received(log)
    ensures Errors(log + [step]) ==
      if step.Receive? && step.outcome.Err? then Errors(log) + [step.outcome.error] else Errors(log)
  {
    assert (log + [step])[..|log|] == log;
  }

  lemma {:induction false} RunPrefix(plan: seq<PlannedCall>, outcomes: nat -> Outcome, limit: int, log: seq<Step>,
                                     n: nat)
    requires IsRun(plan, outcomes, limit, log) && n <= |log|
    ensures IsRun(plan, outcomes, limit, log[..n])
    decreases |log|
  {
    if n == |log| {
      assert log[..n] == log;
    } else {
      RunPrefix(plan, outcomes, limit, log[..|log| - 1], n);
      assert log[..|log| - 1][..n] == log[..n];
    }
  }

  function Below(n: nat): (s: set<nat>)
    ensures |s| == n && forall k: nat :: k in s <==> k < n
  {
    if n == 0 then {} else Below(n - 1) + {n - 1}
  }

  ghost predicate Bounded(limit: int, log: seq<Step>) {
    Received(log).Keys <= Below(Launched(log)) && 0 <= Active(log) <= Cap(limit)
  }

  lemma StepIsBounded(plan: seq<PlannedCall>, outcomes: nat -> Outcome, limit: int, log: seq<Step>, step: Step)
    requires Bounded(limit, log) && CanFollow(plan, outcomes, limit, log, step)
    ensures Bounded(limit, log + [step])
  {
    LogNext(log, step);
    var before, after := Received(log).Keys, Received(log + [step]).Keys;
    if step.Receive? {
      assert after == before + {step.call} && |after| == |before| + 1;
    }
    SubsetCount(after, Below(Launched(log + [step])));
  }

  // At every step the calls received are among those launched, and the others are active, within the limit.
  lemma {:induction false} RunIsBounded(plan: seq<PlannedCall>, outcomes: nat -> Outcome, limit: int, log: seq<Step>)
    requires IsRun(plan, outcomes, limit, log)
    ensures Bounded(limit, log) && Launched(log) <= |plan|
    decreases |log|
  {
    if log != [] {
      var before, step := log[..|log| - 1], log[|log| - 1];
      RunIsBounded(plan, outcomes, limit, before);
      assert log == before + [step];
      StepIsBounded(plan, outcomes, limit, before, step);
    }
  }

  lemma SubsetCount<T>(a: set<T>, b: set<T>)
    requires a <= b
    ensures |a| <= |b| && (|a| == |b| ==> a == b)
  {
    assert b == a + (b - a);
  }

  // Nothing is active exactly when everything launched has been received.
  lemma IdleRun(plan: seq<PlannedCall>, outcomes: nat -> Outcome, limit: int, log: seq<Step>)
    requires IsRun(plan, outcomes, limit, log)
    ensures Active(log) == 0 <==> Received(log).Keys == Below(Launched(log))
  {
    RunIsBounded(plan, outcomes, limit, log);
    SubsetCount(Received(log).Keys, Below(Launched(log)));
    assert |Received(log).Keys| == |Received(log)|;
  }

  // Without a technical error every outcome received is the one the environment had for that call.
  lemma {:induction false} RunIsAnswered(plan: seq<PlannedCall>, outcomes: nat -> Outcome, limit: int, log: seq<Step>,
                                         k: nat)
    requires IsRun(plan, outcomes, limit, log) && Errors(log) == [] && k in Received(log)
    ensures Received(log)[k] == outcomes(k) && outcomes(k).Ok?
    decreases |log|
  {
    var before, step := log[..|log| - 1], log[|log| - 1];
    assert log == before + [step];
    LogNext(before, step);
    if step.Launch? || step.call != k {
      RunIsAnswered(plan, outcomes, limit, before, k);
    }
  }

  // Whatever a call answers, its result names the call.
  lemma {:induction false} RunFits(plan: seq<PlannedCall>, outcomes: nat -> Outcome, limit: int, log: seq<Step>, k: nat)
    requires IsRun(plan, outcomes, limit, log) && k in Received(log)
    ensures k < |plan| && Fits(plan[k].call, Received(log)[k])
    decreases |log|
  {
    var before, step := log[..|log| - 1], log[|log| - 1];
    assert log == before + [step];
    LogNext(before, step);
    if step.Launch? || step.call != k {
      RunFits(plan, outcomes, limit, before, k);
    }
  }

  // The first technical error is a true reply; it is received before the group is cancelled.
  lemma {:induction false} FirstErrorIsTrue(plan: seq<PlannedCall>, outcomes: nat -> Outcome, limit: int,
                                            log: seq<Step>) returns (k: nat)
    requires IsRun(plan, outcomes, limit, log) && Errors(log) != []
    ensures k < Launched(log) && outcomes(k) == Err(Errors(log)[0])
    decreases |log|
  {
    var before, step := log[..|log| - 1], log[|log| - 1];
    assert log == before + [step];
    LogNext(before, step);
    if Errors(before) == [] {
      k := step.call;
    } else {
      k := FirstErrorIsTrue(plan, outcomes, limit, before);
      assert Errors(before)[0] == Errors(log)[0];
    }
  }

  // Every launch comes after the receipt of a success for every call of an earlier group, and nothing is
  // launched once a technical error was received.
  lemma LaunchAt(plan: seq<PlannedCall>, outcomes: nat -> Outcome, limit: int, log: seq<Step>, n: nat)
    requires IsRun(plan, outcomes, limit, log) && n < |log| && log[n].Launch?
    ensures log[n].call < |plan| && log[n].call == Launched(log[..n])
    ensures Active(log[..n]) < Cap(limit)
    ensures forall j | 0 <= j < GroupStart(plan, log[n].call) ::
      j in Received(log[..n]) && IsSuccess(Received(log[..n])[j])
    ensures forall i | 0 <= i < n && log[i].Receive? :: log[i].outcome.Ok?
  {
    RunPrefix(plan, outcomes, limit, log, n + 1);
    LastStep(plan, outcomes, limit, log[..n + 1]);
    assert log[..n + 1][..n] == log[..n];
    OnlyResultsBefore(log, n);
  }

  lemma OnlyResultsBefore(log: seq<Step>, n: nat)
    requires n <= |log| && Errors(log[..n]) == []
    ensures forall i | 0 <= i < n && log[i].Receive? :: log[i].outcome.Ok?
  {
    NoErrors(log[..n]);
    assert forall i | 0 <= i < n :: log[..n][i] == log[i];
  }

  lemma NoErrorsBefore(log: seq<Step>, n: nat)
    requires n <= |log| && forall i | 0 <= i < n && log[i].Receive? :: log[i].outcome.Ok?
    ensures Errors(log[..n]) == []
  {
    NoErrors(log[..n]);
    assert forall i | 0 <= i < n :: log[..n][i] == log[i];
  }

  lemma LastStep(plan: seq<PlannedCall>, outcomes: nat -> Outcome, limit: int, log: seq<Step>)
    requires IsRun(plan, outcomes, limit, log) && log != []
    ensures CanFollow(plan, outcomes, limit, log[..|log| - 1], log[|log| - 1])
  {
  }

  lemma {:induction false} NoErrors(log: seq<Step>)
    ensures Errors(log) == [] <==> forall i | 0 <= i < |log| && log[i].Receive? :: log[i].outcome.Ok?
    decreases |log|
  {
    if log != [] {
      NoErrors(log[..|log| - 1]);
    }
  }

  /* ---- The error that is reported ---- */

  // The first error that is not a cancellation, else the first one.
  function Preferred(errors: seq<TechnicalError>): (p: Option<TechnicalError>)
    ensures p.None? <==> errors == []
  {
    if errors == [] then None
    else
      var rest := FirstReal(errors);
      if rest.Some? then rest else Some(errors[0])
  }

  function FirstReal(errors: seq<TechnicalError>): Option<TechnicalError> {
    if errors == [] then None
    else if errors[0] != ContextCanceled then Some(errors[0])
    else FirstReal(errors[1..])
  }

  function PreferTechnicalError(current: Option<TechnicalError>, candidate: TechnicalError): Option<TechnicalError> {
    if current.None? then Some(candidate)
    else if current.value == ContextCanceled && candidate != ContextCanceled then Some(candidate)
    else current
  }

  lemma {:induction false} FirstRealNext(errors: seq<TechnicalError>, e: TechnicalError)
    ensures FirstReal(errors + [e]) == if FirstReal(errors).Some? then FirstReal(errors) else FirstReal([e])
    ensures FirstReal(errors).Some? ==> FirstReal(errors).value != ContextCanceled
    ensures errors != [] && FirstReal(errors).None? ==> errors[0] == ContextCanceled
  {
    if errors == [] {
      assert errors + [e] == [e];
    } else {
      FirstRealNext(errors[1..], e);
      assert (errors + [e])[1..] == errors[1..] + [e];
    }
  }

  lemma PreferredNext(errors: seq<TechnicalError>, e: TechnicalError)
    ensures Preferred(errors + [e]) == PreferTechnicalError(Preferred(errors), e)
  {
    FirstRealNext(errors, e);
  }

  /* ---- The outcome a plan prescribes ---- */

  datatype BatchOutcome = BatchOutcome(results: seq<ToolResult>, actions: seq<CompletedAction>, failed: bool,
                                       settle: bool, asyncStarted: bool)

  // The first call at or after i that does not succeed.
  function FirstBad(outcomes: nat -> Outcome, i: nat, n: nat): (k: nat)
    requires i <= n
    ensures i <= k <= n && (k < n ==> !IsSuccess(outcomes(k)))
    ensures forall j | i <= j < k :: IsSuccess(outcomes(j))
    decreases n - i
  {
    if i == n || !IsSuccess(outcomes(i)) then i else FirstBad(outcomes, i + 1, n)
  }

  // How many calls are submitted: the group of the first call that does not succeed is the last one.
  function Stop(plan: seq<PlannedCall>, outcomes: nat -> Outcome): (b: nat)
    ensures b <= |plan|
  {
    var k := FirstBad(outcomes, 0, |plan|);
    if k == |plan| then k else GroupEnd(plan, k)
  }

  function SkippedResult(call: ToolCall, code: string): ToolResult {
    ToolResult(call.id, call.name, Skipped, code, None)
  }

  // Every slot holds the result of its own call, or says that a prior group failed.
  function Slots(plan: seq<PlannedCall>, outcomes: nat -> Outcome): (slots: seq<ToolResult>)
    ensures |slots| == |plan|
  {
    seq(|plan|, k requires 0 <= k < |plan| => Slot(plan, outcomes, Stop(plan, outcomes), k))
  }

  function Slot(plan: seq<PlannedCall>, outcomes: nat -> Outcome, stop: nat, k: nat): ToolResult
    requires k < |plan|
  {
    if k >= stop then SkippedResult(plan[k].call, "prior_group_failed")
    else if outcomes(k).Ok? then outcomes(k).value.result
    else ToolResult("", "", NoStatus, "", None)
  }

  function ActionOf(item: PlannedCall, o: Outcome): seq<CompletedAction> {
    if IsSuccess(o) then [CompletedAction(item.call, o.value.action, item.entry.policy)] else []
  }

  // The successes among the calls from s to e, in call order.
  function Successes(plan: seq<PlannedCall>, outcomes: nat -> Outcome, s: nat, e: nat): seq<CompletedAction>
    requires s <= e <= |plan|
    decreases e - s
  {
    if s == e then [] else Successes(plan, outcomes, s, e - 1) + ActionOf(plan[e - 1], outcomes(e - 1))
  }

  predicate Settles(actions: seq<CompletedAction>) {
    exists i :: 0 <= i < |actions| && actions[i].policy.settleAfterSuccess
  }

  // This does not depend on the limit or on the order in which calls end.
  function Prescribed(plan: seq<PlannedCall>, outcomes: nat -> Outcome): BatchOutcome {
    var actions := Successes(plan, outcomes, 0, Stop(plan, outcomes));
    BatchOutcome(Slots(plan, outcomes), actions, FirstBad(outcomes, 0, |plan|) < |plan|, Settles(actions), false)
  }

  // Calls stop at the end of a group, and every call of an earlier group has succeeded.
  lemma StopIsBoundary(plan: seq<PlannedCall>, outcomes: nat -> Outcome)
    ensures Boundary(plan, Stop(plan, outcomes))
    ensures Stop(plan, outcomes) == |plan| || FirstBad(outcomes, 0, |plan|) < Stop(plan, outcomes)
    ensures forall k | 0 <= k < Stop(plan, outcomes) :: GroupEnd(plan, k) < Stop(plan, outcomes) ==>
      IsSuccess(outcomes(k))
  {
    var bad := FirstBad(outcomes, 0, |plan|);
    if bad < |plan| {
      EndIsBoundary(plan, bad);
      forall k | bad <= k < Stop(plan, outcomes)
        ensures GroupEnd(plan, k) == Stop(plan, outcomes)
      {
        EndIsShared(plan, bad, k);
      }
    }
  }

  lemma {:induction false} EndIsBoundary(plan: seq<PlannedCall>, k: nat)
    requires k < |plan|
    ensures Boundary(plan, GroupEnd(plan, k))
    decreases |plan| - k
  {
    if Parallel(plan, k) && Parallel(plan, k + 1) {
      EndIsBoundary(plan, k + 1);
    }
  }

  lemma {:induction false} EndIsShared(plan: seq<PlannedCall>, k: nat, j: nat)
    requires k <= j < |plan| && j < GroupEnd(plan, k)
    ensures GroupEnd(plan, j) == GroupEnd(plan, k)
    decreases j - k
  {
    if k < j {
      EndIsShared(plan, k + 1, j);
    }
  }
}

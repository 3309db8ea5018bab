/**
 What a batch means to the model and to the game (runtime/internal/agent/scheduler.go:82-352, 440-512): laws about
 every report of a batch, in terms of its calls, its tools, and the replies.
 */
module BatchLaws {
  import opened Common
  import opened Text
  import opened Messages
  import opened BatchProtocol
  import opened Scheduler
  import opened Batch

  // Some call from j to k has a tool that may not run beside others.
  ghost predicate SequentialWithin(plan: seq<PlannedCall>, j: nat, k: nat) {
    exists m :: j <= m <= k && m < |plan| && plan[m].entry.concurrency == Sequential
  }

  lemma {:induction false} WithinGroup(plan: seq<PlannedCall>, j: nat, k: nat)
    requires j < |plan| && j < k < GroupEnd(plan, j)
    ensures !SequentialWithin(plan, j, k)
    decreases k - j
  {
    if j + 1 < k {
      WithinGroup(plan, j + 1, k);
    }
  }

  lemma {:induction false} WithinStart(plan: seq<PlannedCall>, j: nat, k: nat)
    requires k < |plan| && GroupStart(plan, k) <= j < k
    ensures !SequentialWithin(plan, j, k)
    decreases k - j
  {
    if j < k - 1 {
      WithinStart(plan, j, k - 1);
    }
  }

  /* ---- Results ---- */

  // Every call that was submitted has a slot that tells of the action in its reply; any other slot says that a
  // group before it failed.
  ghost predicate SlotTells(item: PlannedCall, reply: Reply, submitted: bool, r: ToolResult) {
    if submitted then
      && reply.Ok? && reply.value.Some? && Tells(item.call, reply.value.value, "action_rejected", r)
    else r == ToolResult(item.call.id, item.call.name, Skipped, "prior_group_failed", None)
  }

  lemma SlotsTell(plan: seq<PlannedCall>, replies: nat -> Reply, limit: int, log: seq<Step>, outcome: BatchOutcome)
    requires Reports(plan, Outcomes(plan, replies), limit, log, outcome, None)
    ensures |outcome.results| == |plan| && Launched(log) <= |plan|
    ensures forall k | 0 <= k < |plan| :: SlotTells(plan[k], replies(k), k < Launched(log), outcome.results[k])
  {
    RanAsPrescribed(plan, Outcomes(plan, replies), limit, log, outcome);
    forall k | 0 <= k < |plan|
      ensures SlotTells(plan[k], replies(k), k < Launched(log), outcome.results[k])
    {
      PrescribedTells(plan, replies, k);
    }
  }

  lemma PrescribedTells(plan: seq<PlannedCall>, replies: nat -> Reply, k: nat)
    requires k < |plan| && IsAnswered(plan, Outcomes(plan, replies))
    ensures var outcomes := Outcomes(plan, replies);
      SlotTells(plan[k], replies(k), k < Stop(plan, outcomes), Slots(plan, outcomes)[k])
  {
    var outcomes := Outcomes(plan, replies);
    if k < Stop(plan, outcomes) {
      ResultNamesItsCall(plan[k].call, replies(k));
      assert outcomes(k) == OutcomeOf(plan[k].call, replies(k));
    }
  }

  // The calls are submitted in order up to the end of a run of parallel calls that did not all succeed, and a call
  // that may not run beside others is only submitted after successes and only followed after its own.
  ghost predicate StopsRightly(plan: seq<PlannedCall>, n: nat, results: seq<ToolResult>) {
    && n <= |plan| == |results|
    && (n < |plan| ==> exists k :: 0 <= k < n && results[k].status != Succeeded)
    && (0 < n < |plan| ==>
        !(plan[n - 1].entry.concurrency == ParallelSafe && plan[n].entry.concurrency == ParallelSafe))
    && forall j, k | 0 <= j < k < n && SequentialWithin(plan, j, k) :: results[j].status == Succeeded
  }

  lemma SubmittedCalls(plan: seq<PlannedCall>, replies: nat -> Reply, limit: int, log: seq<Step>,
                       outcome: BatchOutcome)
    requires Reports(plan, Outcomes(plan, replies), limit, log, outcome, None)
    ensures StopsRightly(plan, Launched(log), outcome.results)
  {
    var outcomes, n := Outcomes(plan, replies), Launched(log);
    RanAsPrescribed(plan, outcomes, limit, log, outcome);
    BatchShape(plan, replies);
    var bad := FirstBad(outcomes, 0, |plan|);
    StopIsBoundary(plan, outcomes);
    if n < |plan| {
      assert outcome.results[bad].status != Succeeded;
    }
    forall j, k | 0 <= j < k < n && SequentialWithin(plan, j, k)
      ensures outcome.results[j].status == Succeeded
    {
      if k < GroupEnd(plan, j) {
        WithinGroup(plan, j, k);
      }
    }
  }

  // The flags and the actions of a batch, read off its slots.
  ghost predicate Sums(plan: seq<PlannedCall>, replies: nat -> Reply, outcome: BatchOutcome) {
    && (outcome.failed <==> exists k :: 0 <= k < |outcome.results| && outcome.results[k].status != Succeeded)
    && (outcome.settle <==> exists i :: 0 <= i < |outcome.actions| && outcome.actions[i].policy.settleAfterSuccess)
    && ActionsOfSlots(plan, replies, SucceededSlots(outcome.results), outcome.actions)
  }

  lemma OutcomeSums(plan: seq<PlannedCall>, replies: nat -> Reply, limit: int, log: seq<Step>, outcome: BatchOutcome)
    requires Reports(plan, Outcomes(plan, replies), limit, log, outcome, None)
    ensures Sums(plan, replies, outcome)
  {
    RanAsPrescribed(plan, Outcomes(plan, replies), limit, log, outcome);
    FailedIffSlot(plan, Outcomes(plan, replies));
    ActionsAreSlots(plan, replies);
  }

  /* ---- Errors ---- */

  // The reply ends the call with a result.
  ghost predicate EndsCall(reply: Reply) {
    reply.Ok? && reply.value.Some? && reply.value.value.status != ActionNotEnded
  }

  lemma EndsIff(plan: seq<PlannedCall>, replies: nat -> Reply, k: nat)
    requires k < |plan|
    ensures Outcomes(plan, replies)(k).Ok? <==> EndsCall(replies(k))
    ensures forall e | Outcomes(plan, replies)(k) == Err(e) :: IsErrorOf(replies(k), e)
  {
    ResultNamesItsCall(plan[k].call, replies(k));
  }

  // There is a technical error exactly when some call that was submitted has no result.  It is the first of those
  // received that is no cancellation; the very first one received is the error of a true reply.
  lemma ErrorsTell(plan: seq<PlannedCall>, replies: nat -> Reply, limit: int, log: seq<Step>, outcome: BatchOutcome,
                   error: Option<TechnicalError>)
    requires Reports(plan, Outcomes(plan, replies), limit, log, outcome, error)
    ensures error.None? <==> forall k | 0 <= k < Launched(log) :: EndsCall(replies(k))
    ensures error.Some? ==> Errors(log) != [] && IsPreferred(Errors(log), error.value)
    ensures error.Some? ==> exists k :: 0 <= k < Launched(log) && IsErrorOf(replies(k), Errors(log)[0])
  {
    var outcomes := Outcomes(plan, replies);
    if error.None? {
      NoErrorTells(plan, replies, limit, log);
    } else {
      PreferredIs(Errors(log));
      var k := FirstErrorIsTrue(plan, outcomes, limit, log);
      EndsIff(plan, replies, k);
      assert IsErrorOf(replies(k), Errors(log)[0]);
    }
  }

  lemma NoErrorTells(plan: seq<PlannedCall>, replies: nat -> Reply, limit: int, log: seq<Step>)
    requires IsRun(plan, Outcomes(plan, replies), limit, log) && Errors(log) == []
    requires Received(log).Keys == Below(Launched(log)) && Launched(log) <= |plan|
    ensures forall k | 0 <= k < Launched(log) :: EndsCall(replies(k))
  {
    forall k | 0 <= k < Launched(log)
      ensures EndsCall(replies(k))
    {
      RunIsAnswered(plan, Outcomes(plan, replies), limit, log, k);
      EndsIff(plan, replies, k);
    }
  }

  ghost predicate IsPreferred(errors: seq<TechnicalError>, e: TechnicalError) {
    exists i :: 0 <= i < |errors| && errors[i] == e
      && if e == ContextCanceled then i == 0 && forall j | 0 <= j < |errors| :: errors[j] == ContextCanceled
         else forall j | 0 <= j < i :: errors[j] == ContextCanceled
  }

  lemma {:induction false} FirstRealIs(errors: seq<TechnicalError>)
    ensures var r := FirstReal(errors);
      if r.None? then forall j | 0 <= j < |errors| :: errors[j] == ContextCanceled
      else r.value != ContextCanceled && IsPreferred(errors, r.value)
  {
    if errors != [] && errors[0] == ContextCanceled {
      FirstRealIs(errors[1..]);
      var r := FirstReal(errors[1..]);
      if r.Some? {
        var i :| 0 <= i < |errors| - 1 && errors[i + 1] == r.value
          && forall j | 0 <= j < i :: errors[1..][j] == ContextCanceled;
        assert forall j | 0 < j < i + 1 :: errors[j] == errors[1..][j - 1];
      } else {
        assert forall j | 0 < j < |errors| :: errors[j] == errors[1..][j - 1];
      }
    }
  }

  lemma PreferredIs(errors: seq<TechnicalError>)
    requires errors != []
    ensures Preferred(errors).Some? && IsPreferred(errors, Preferred(errors).value)
  {
    FirstRealIs(errors);
  }

  // The calls up to n that were answered with a success, in order.
  function SucceededCalls(got: map<nat, Outcome>, n: nat): (calls: seq<nat>)
    ensures forall i | 0 <= i < |calls| :: calls[i] < n
  {
    if n == 0 then []
    else
      var succeeded := n - 1 in got && got[n - 1].Ok? && got[n - 1].value.result.status == Succeeded;
      SucceededCalls(got, n - 1) + if succeeded then [n - 1] else []
  }

  // The actions are those of these calls, each with its call, the policy of its tool and what was received for it.
  ghost predicate AreActionsOf(plan: seq<PlannedCall>, got: map<nat, Outcome>, calls: seq<nat>,
                               actions: seq<CompletedAction>) {
    |actions| == |calls| && forall i | 0 <= i < |calls| ::
      && calls[i] < |plan| && calls[i] in got && got[calls[i]].Ok?
      && actions[i] == CompletedAction(plan[calls[i]].call, got[calls[i]].value.action, plan[calls[i]].entry.policy)
  }

  lemma {:induction false} ActionsAreReceived(plan: seq<PlannedCall>, got: map<nat, Outcome>, n: nat)
    requires n <= |plan|
    ensures AreActionsOf(plan, got, SucceededCalls(got, n), Successes(plan, AsOutcomes(got), 0, n))
  {
    if n > 0 {
      ActionsAreReceived(plan, got, n - 1);
    }
  }

  // Whether or not a batch ended in an error, it reports the action of every call that was answered with a success.
  lemma ReportedActions(plan: seq<PlannedCall>, outcomes: nat -> Outcome, limit: int, log: seq<Step>,
                        outcome: BatchOutcome, error: Option<TechnicalError>)
    requires Reports(plan, outcomes, limit, log, outcome, error)
    ensures AreActionsOf(plan, Received(log), SucceededCalls(Received(log), |plan|), outcome.actions)
  {
    ActionsAreReceived(plan, Received(log), |plan|);
  }

  /* ---- The order of submission ---- */

  // A call that is launched is the next one and is within the limit.  Where a tool may not run beside others, the
  // calls before it are done, with a success, and nothing is beside it.
  lemma LaunchTells(plan: seq<PlannedCall>, outcomes: nat -> Outcome, limit: int, log: seq<Step>, n: nat)
    requires IsRun(plan, outcomes, limit, log) && n < |log| && log[n].Launch?
    ensures var k, before := log[n].call, log[..n];
      && k == Launched(before) < |plan|
      && Launched(before) - |Received(before)| < (if limit <= 0 then 1 else limit)
      && forall j | 0 <= j < k && SequentialWithin(plan, j, k) ::
        j in Received(before) && Received(before)[j].Ok? && Received(before)[j].value.result.status == Succeeded
  {
    LaunchAt(plan, outcomes, limit, log, n);
    var k := log[n].call;
    forall j | 0 <= j < k && SequentialWithin(plan, j, k)
      ensures j < GroupStart(plan, k)
    {
      if GroupStart(plan, k) <= j {
        WithinStart(plan, j, k);
      }
    }
  }

  // The limit is used up, or the next call may not run beside the last one.
  ghost predicate UsesLimit(plan: seq<PlannedCall>, limit: int, next: nat, received: nat) {
    || next - received >= (if limit <= 0 then 1 else limit)
    || next >= |plan|
    || plan[next].entry.concurrency == Sequential
    || (next > 0 && plan[next - 1].entry.concurrency == Sequential)
  }

  lemma FullUsesLimit(plan: seq<PlannedCall>, limit: int, log: seq<Step>)
    requires Full(plan, limit, log) && Errors(log) == [] && Launched(log) > 0
    ensures UsesLimit(plan, limit, Launched(log), |Received(log)|)
  {
  }

  // Nothing waits that could run: before a technical error a call is waited for only when no other can be launched.
  lemma ReceiveTells(plan: seq<PlannedCall>, outcomes: nat -> Outcome, limit: int, log: seq<Step>, n: nat)
    requires IsRun(plan, outcomes, limit, log) && n < |log| && log[n].Receive?
    requires forall i | 0 <= i < n && log[i].Receive? :: log[i].outcome.Ok?
    ensures UsesLimit(plan, limit, Launched(log[..n]), |Received(log[..n])|)
  {
    ReceivedWhenFull(plan, outcomes, limit, log, n);
    NoErrorsBefore(log, n);
    FullUsesLimit(plan, limit, log[..n]);
  }

  lemma ReceivedWhenFull(plan: seq<PlannedCall>, outcomes: nat -> Outcome, limit: int, log: seq<Step>, n: nat)
    requires IsRun(plan, outcomes, limit, log) && n < |log| && log[n].Receive?
    ensures Full(plan, limit, log[..n]) && Launched(log[..n]) > 0
  {
    RunPrefix(plan, outcomes, limit, log, n + 1);
    LastStep(plan, outcomes, limit, log[..n + 1]);
    assert log[..n + 1][..n] == log[..n];
  }

  /* ---- Whole batches ---- */

  // The checks on call i, in order, each with the code of a call that fails it.
  ghost function Checks(t: Toolbox, calls: seq<ToolCall>, i: nat): seq<(bool, string)>
    requires i < |calls|
  {
    var call, tool := calls[i], t.lookup(calls[i].name);
    [(TrimSpace(call.id) != "" &&
      exists j :: 0 <= j < |calls| && j != i && TrimSpace(calls[j].id) == TrimSpace(call.id), "duplicate_tool_call_id"),
     (tool.None?, "tool_not_registered"),
     (tool.Some? && tool.value.policy.exclusivePerStep && |calls| > 1, "exclusive_tool_must_be_only_tool_call"),
     (tool.Some? && tool.value.execution == Async && |calls| > 1, "async_batch_unsupported"),
     (call.arguments.None?, "tool_arguments_missing"),
     (call.arguments.Some? && !t.argumentsFit(call.name, call.arguments.value), "tool_arguments_invalid"),
     (!t.requestFits(call), "action_request_invalid"),
     (tool.Some? && tool.value.execution == Async && t.asyncLimitFull, "async_action_limit_exceeded")]
  }

  ghost predicate Passes(t: Toolbox, calls: seq<ToolCall>, i: nat)
    requires i < |calls|
  {
    forall n | 0 <= n < 8 :: !Checks(t, calls, i)[n].0
  }

  // The first check that the call fails.
  ghost predicate FailsFirst(t: Toolbox, calls: seq<ToolCall>, i: nat, code: string)
    requires i < |calls|
  {
    exists n :: 0 <= n < 8 && Checks(t, calls, i)[n] == (true, code)
      && forall j | 0 <= j < n :: !Checks(t, calls, i)[j].0
  }

  lemma FaultTells(t: Toolbox, calls: seq<ToolCall>, i: nat)
    requires i < |calls|
    ensures Fault(t, calls, i).None? <==> Passes(t, calls, i)
    ensures Fault(t, calls, i).Some? ==> FailsFirst(t, calls, i, Fault(t, calls, i).value)
  {
    TwinIsOther(calls, i);
    var f, checks := Fault(t, calls, i), Checks(t, calls, i);
    if f.Some? {
      var n := if f.value == "duplicate_tool_call_id" then 0 else if f.value == "tool_not_registered" then 1
               else if f.value == "exclusive_tool_must_be_only_tool_call" then 2
               else if f.value == "async_batch_unsupported" then 3 else if f.value == "tool_arguments_missing" then 4
               else if f.value == "tool_arguments_invalid" then 5 else if f.value == "action_request_invalid" then 6
               else 7;
      assert checks[n] == (true, f.value);
    }
  }

  // A batch with a call that fails a check is refused without effect.
  lemma RefusalTells(t: Toolbox, calls: seq<ToolCall>, env: Environment, run: BatchRun, i: nat)
    requires BatchReports(t, calls, env, run) && i < |calls| && !Passes(t, calls, i)
    ensures run.error.None? && run.log == [] && !run.started && |run.outcome.results| == |calls|
    ensures run.outcome.failed && run.outcome.actions == [] && !run.outcome.settle && !run.outcome.asyncStarted
    ensures forall k | 0 <= k < |calls| ::
      if Passes(t, calls, k)
      then run.outcome.results[k] == ToolResult(calls[k].id, calls[k].name, Skipped, "batch_validation_failed", None)
      else run.outcome.results[k] == ToolResult(calls[k].id, calls[k].name, Invalid, run.outcome.results[k].code, None)
           && FailsFirst(t, calls, k, run.outcome.results[k].code)
  {
    forall k | 0 <= k < |calls|
      ensures Fault(t, calls, k).None? <==> Passes(t, calls, k)
      ensures Fault(t, calls, k).Some? ==> FailsFirst(t, calls, k, Fault(t, calls, k).value)
    {
      FaultTells(t, calls, k);
    }
    assert !Admissible(t, calls);
  }

  lemma AllPass(t: Toolbox, calls: seq<ToolCall>)
    requires forall k | 0 <= k < |calls| :: Passes(t, calls, k)
    ensures Admissible(t, calls)
  {
    forall k | 0 <= k < |calls|
      ensures Fault(t, calls, k).None?
    {
      FaultTells(t, calls, k);
    }
  }

  // Every call of the plan has its tool.
  ghost predicate Planned(t: Toolbox, calls: seq<ToolCall>, plan: seq<PlannedCall>) {
    |plan| == |calls| && forall k | 0 <= k < |calls| ::
      t.lookup(calls[k].name).Some? && plan[k] == PlannedCall(k, calls[k], t.lookup(calls[k].name).value)
  }

  lemma PlanIs(t: Toolbox, calls: seq<ToolCall>)
    requires Admissible(t, calls)
    ensures Planned(t, calls, PlanOf(t, calls))
    ensures RunsAlone(PlanOf(t, calls)) <==> |calls| == 1 && t.lookup(calls[0].name).value.execution == Async
  {
    forall k | 0 <= k < |calls|
      ensures t.lookup(calls[k].name).Some?
      ensures PlanOf(t, calls)[k] == PlannedCall(k, calls[k], t.lookup(calls[k].name).value)
    {
      assert Fault(t, calls, k).None?;
      assert PlanOf(t, calls)[k] == PlannedCallOf(t, calls, k);
    }
  }

  // Otherwise a single asynchronous call is started, and any other batch runs.
  lemma PlanTells(t: Toolbox, calls: seq<ToolCall>, env: Environment, run: BatchRun) returns (plan: seq<PlannedCall>)
    requires BatchReports(t, calls, env, run) && forall k | 0 <= k < |calls| :: Passes(t, calls, k)
    ensures Planned(t, calls, plan)
    ensures run.started <==> |calls| == 1 && t.lookup(calls[0].name).value.execution == Async
    ensures run.started ==> AsyncReports(plan[0], env, run)
    ensures !run.started ==>
      Reports(plan, Outcomes(plan, env.replies), t.maxParallel, run.log, run.outcome, run.error)
  {
    AllPass(t, calls);
    plan := PlanOf(t, calls);
    PlanIs(t, calls);
  }

  // What a batch that ran without a technical error tells: its slots, what was submitted, its flags and actions.
  lemma BatchTells(t: Toolbox, calls: seq<ToolCall>, env: Environment, run: BatchRun) returns (plan: seq<PlannedCall>)
    requires BatchReports(t, calls, env, run) && forall k | 0 <= k < |calls| :: Passes(t, calls, k)
    requires run.error.None? && !run.started
    ensures Planned(t, calls, plan) && |run.outcome.results| == |calls|
    ensures forall k | 0 <= k < |calls| ::
      SlotTells(plan[k], env.replies(k), k < Launched(run.log), run.outcome.results[k])
    ensures StopsRightly(plan, Launched(run.log), run.outcome.results) && Sums(plan, env.replies, run.outcome)
  {
    plan := PlanTells(t, calls, env, run);
    SlotsTell(plan, env.replies, t.maxParallel, run.log, run.outcome);
    SubmittedCalls(plan, env.replies, t.maxParallel, run.log, run.outcome);
    OutcomeSums(plan, env.replies, t.maxParallel, run.log, run.outcome);
  }
}

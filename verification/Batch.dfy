/**
 A batch of tool calls from the model (runtime/internal/agent/scheduler.go:82-265, 381-438): all calls are
 checked before any is submitted, and an asynchronous call runs alone.
 */
module Batch {
  import opened Common
  import opened Json
  import opened Text
  import opened Messages
  import opened BatchProtocol
  import opened Scheduler

  // The tools of the turn and the checks on a call that belong to them.
  datatype Toolbox = Toolbox(
    lookup: string -> Option<Entry>,
    argumentsFit: (string, JsonMap) -> bool,
    requestFits: ToolCall -> bool,
    maxParallel: int,
    asyncLimitFull: bool)

  /* ---- Duplicate ids ---- */

  function CountId(calls: seq<ToolCall>, id: string): nat {
    if calls == [] then 0
    else CountId(calls[..|calls| - 1], id) + if TrimSpace(calls[|calls| - 1].id) == id then 1 else 0
  }

  // Call i has an id that the batch holds more than once.
  predicate HasTwin(calls: seq<ToolCall>, i: nat) {
    i < |calls| && TrimSpace(calls[i].id) != "" && CountId(calls, TrimSpace(calls[i].id)) > 1
  }

  method DuplicateToolCallIDs(calls: seq<ToolCall>) returns (duplicates: set<string>)
    ensures forall id :: id in duplicates <==> id != "" && CountId(calls, id) > 1
  {
    var counts := CountIds(calls);
    duplicates := MoreThanOnce(counts);
  }

  // How often each id that is not blank occurs.
  method CountIds(calls: seq<ToolCall>) returns (counts: map<string, nat>)
    ensures AreCounts(counts, calls)
  {
    counts := map[];
    for i := 0 to |calls|
      invariant AreCounts(counts, calls[..i])
    {
      var id := TrimSpace(calls[i].id);
      assert calls[..i + 1][..i] == calls[..i];
      if id != "" {
        counts := counts[id := (if id in counts then counts[id] else 0) + 1];
      }
    }
    assert calls[..|calls|] == calls;
  }

  ghost predicate AreCounts(counts: map<string, nat>, calls: seq<ToolCall>) {
    && (forall id :: id in counts <==> id != "" && CountId(calls, id) > 0)
    && (forall id | id in counts :: counts[id] == CountId(calls, id))
  }

  method MoreThanOnce(counts: map<string, nat>) returns (ids: set<string>)
    ensures forall id :: id in ids <==> id in counts && counts[id] > 1
  {
    ids := {};
    var left := counts.Keys;
    while left != {}
      invariant left <= counts.Keys
      invariant forall id :: id in ids <==> id in counts && id !in left && counts[id] > 1
      decreases |left|
    {
      var id :| id in left;
      left := left - {id};
      if counts[id] > 1 {
        ids := ids + {id};
      }
    }
  }

  lemma {:induction false} CountIsPositive(calls: seq<ToolCall>, id: string)
    ensures CountId(calls, id) > 0 <==> exists i :: 0 <= i < |calls| && TrimSpace(calls[i].id) == id
  {
    if calls != [] {
      CountIsPositive(calls[..|calls| - 1], id);
      if CountId(calls[..|calls| - 1], id) > 0 {
        var i :| 0 <= i < |calls| - 1 && TrimSpace(calls[..|calls| - 1][i].id) == id;
        assert TrimSpace(calls[i].id) == id;
      }
    }
  }

  lemma {:induction false} TwinCount(calls: seq<ToolCall>, i: nat)
    requires i < |calls|
    ensures CountId(calls, TrimSpace(calls[i].id)) > 1 <==>
      exists j :: 0 <= j < |calls| && j != i && TrimSpace(calls[j].id) == TrimSpace(calls[i].id)
    ensures CountId(calls, TrimSpace(calls[i].id)) > 0
  {
    var id, rest, last := TrimSpace(calls[i].id), calls[..|calls| - 1], |calls| - 1;
    CountIsPositive(rest, id);
    if i == last {
      if CountId(rest, id) > 0 {
        var j :| 0 <= j < |rest| && TrimSpace(rest[j].id) == id;
        assert TrimSpace(calls[j].id) == id;
      }
    } else {
      TwinCount(rest, i);
      assert rest[i] == calls[i];
      if j :| 0 <= j < |rest| && j != i && TrimSpace(rest[j].id) == id {
        assert TrimSpace(calls[j].id) == id;
      }
    }
  }

  // A call has a twin exactly when another call of the batch has the same id, and the id is not blank.
  lemma TwinIsOther(calls: seq<ToolCall>, i: nat)
    requires i < |calls|
    ensures HasTwin(calls, i) <==>
      TrimSpace(calls[i].id) != "" && exists j ::
          0 <= j < |calls| && j != i && TrimSpace(calls[j].id) == TrimSpace(calls[i].id)
  {
    TwinCount(calls, i);
  }

  /* ---- Preflight ---- */

  // The code of the first check that call i fails.
  function Fault(t: Toolbox, calls: seq<ToolCall>, i: nat): Option<string>
    requires i < |calls|
  {
    var call, entry := calls[i], t.lookup(calls[i].name);
    if HasTwin(calls, i) then Some("duplicate_tool_call_id")
    else if entry.None? then Some("tool_not_registered")
    else if entry.value.policy.exclusivePerStep && |calls| > 1 then Some("exclusive_tool_must_be_only_tool_call")
    else if entry.value.execution == Async && |calls| > 1 then Some("async_batch_unsupported")
    else if call.arguments.None? then Some("tool_arguments_missing")
    else if !t.argumentsFit(call.name, call.arguments.value) then Some("tool_arguments_invalid")
    else if !t.requestFits(call) then Some("action_request_invalid")
    else if entry.value.execution == Async && t.asyncLimitFull then Some("async_action_limit_exceeded")
    else None
  }

  predicate Admissible(t: Toolbox, calls: seq<ToolCall>) {
    forall i | 0 <= i < |calls| :: Fault(t, calls, i).None?
  }

  function InvalidResult(call: ToolCall, code: string): ToolResult {
    ToolResult(call.id, call.name, Invalid, code, None)
  }

  // A refused batch: every faulty call names its fault and every other one is skipped.
  function Refused(t: Toolbox, calls: seq<ToolCall>): (results: seq<ToolResult>)
    ensures |results| == |calls|
  {
    seq(|calls|, i requires 0 <= i < |calls| =>
      if Fault(t, calls, i).Some? then InvalidResult(calls[i], Fault(t, calls, i).value)
      else SkippedResult(calls[i], "batch_validation_failed"))
  }

  ghost predicate IsPlanOf(t: Toolbox, calls: seq<ToolCall>, plan: seq<PlannedCall>) {
    |plan| <= |calls| && forall i | 0 <= i < |plan| ::
      t.lookup(calls[i].name).Some? && plan[i] == PlannedCall(i, calls[i], t.lookup(calls[i].name).value)
  }

  method Preflight(t: Toolbox, calls: seq<ToolCall>)
    returns (plan: seq<PlannedCall>, results: seq<ToolResult>, failed: bool)
    ensures failed <==> !Admissible(t, calls)
    ensures failed ==> results == Refused(t, calls) && plan == []
    ensures !failed ==> IsPlanOf(t, calls, plan) && |plan| == |calls|
  {
    var slots := new ToolResult[|calls|](_ => ToolResult("", "", NoStatus, "", None));
    var invalid := new bool[|calls|](_ => false);
    ghost var found;
    plan, failed, found := CheckCalls(t, calls, slots, invalid);
    FaultsAre(t, calls, found);
    if failed {
      SkipValid(t, calls, slots, invalid, found);
      plan := [];
    }
    results := slots[..];
  }

  method CheckCalls(t: Toolbox, calls: seq<ToolCall>, slots: array<ToolResult>, invalid: array<bool>)
    returns (plan: seq<PlannedCall>, failed: bool, ghost found: seq<Option<string>>)
    requires Marked(calls, [], slots[..], invalid[..])
    modifies slots, invalid
    ensures |found| == |calls| && AreFaults(t, calls, found) && Marked(calls, found, slots[..], invalid[..])
    ensures failed == HasFault(found) && (!failed ==> IsPlanOf(t, calls, plan) && |plan| == |calls|)
  {
    var duplicates := DuplicateToolCallIDs(calls);
    plan, failed, found := [], false, [];
    for i := 0 to |calls|
      invariant |found| == i && AreFaults(t, calls, found)
      invariant Marked(calls, found, slots[..], invalid[..])
      invariant failed == HasFault(found)
      invariant !failed ==> |plan| == i && IsPlanOf(t, calls, plan)
    {
      var fault := CheckCall(t, calls, i, duplicates);
      if fault.Some? {
        slots[i] := InvalidResult(calls[i], fault.value);
        invalid[i] := true;
        failed := true;
      } else {
        plan := PlanNext(t, calls, plan, i);
      }
      FaultFound(t, calls, found, fault);
      found := found + [fault];
    }
  }

  method PlanNext(t: Toolbox, calls: seq<ToolCall>, plan: seq<PlannedCall>, i: nat) returns (next: seq<PlannedCall>)
    requires i < |calls| && Fault(t, calls, i).None?
    ensures |plan| == i && IsPlanOf(t, calls, plan) ==> |next| == i + 1 && IsPlanOf(t, calls, next)
  {
    next := plan + [PlannedCall(i, calls[i], t.lookup(calls[i].name).value)];
  }

  // The faults of the first calls.
  ghost predicate AreFaults(t: Toolbox, calls: seq<ToolCall>, found: seq<Option<string>>) {
    |found| <= |calls| && forall k | 0 <= k < |found| :: found[k] == Fault(t, calls, k)
  }

  ghost predicate HasFault(found: seq<Option<string>>) {
    exists k :: 0 <= k < |found| && found[k].Some?
  }

  lemma FaultFound(t: Toolbox, calls: seq<ToolCall>, found: seq<Option<string>>, fault: Option<string>)
    requires AreFaults(t, calls, found) && |found| < |calls| && fault == Fault(t, calls, |found|)
    ensures AreFaults(t, calls, found + [fault])
    ensures HasFault(found + [fault]) == (HasFault(found) || fault.Some?)
  {
  }

  lemma FaultsAre(t: Toolbox, calls: seq<ToolCall>, found: seq<Option<string>>)
    requires AreFaults(t, calls, found) && |found| == |calls|
    ensures HasFault(found) == !Admissible(t, calls)
  {
  }

  // The calls checked so far: the faulty ones are marked and their slots name the fault.
  ghost predicate Marked(calls: seq<ToolCall>, found: seq<Option<string>>, slots: seq<ToolResult>, invalid: seq<bool>) {
    && |found| <= |calls| == |slots| == |invalid|
    && (forall k | 0 <= k < |found| :: invalid[k] == found[k].Some?)
    && (forall k | |found| <= k < |calls| :: !invalid[k])
    && (forall k | 0 <= k < |found| && found[k].Some? :: slots[k] == InvalidResult(calls[k], found[k].value))
  }

  method SkipValid(ghost t: Toolbox, calls: seq<ToolCall>, slots: array<ToolResult>, invalid: array<bool>,
                   ghost found: seq<Option<string>>)
    requires slots.Length == invalid.Length == |calls| == |found| && slots as object != invalid as object
    requires AreFaults(t, calls, found)
    requires Marked(calls, found, slots[..], invalid[..])
    modifies slots
    ensures slots[..] == Refused(t, calls)
  {
    for i := 0 to |calls|
      invariant forall k | 0 <= k < i :: slots[k] == Refused(t, calls)[k]
      invariant forall k | i <= k < |calls| :: slots[k] == old(slots[k])
    {
      if !invalid[i] {
        slots[i] := SkippedResult(calls[i], "batch_validation_failed");
      }
    }
  }

  method CheckCall(t: Toolbox, calls: seq<ToolCall>, i: nat, duplicates: set<string>) returns (fault: Option<string>)
    requires i < |calls|
    requires TrimSpace(calls[i].id) in duplicates <==> HasTwin(calls, i)
    ensures fault == Fault(t, calls, i)
  {
    var call, entry := calls[i], t.lookup(calls[i].name);
    if TrimSpace(call.id) in duplicates {
      return Some("duplicate_tool_call_id");
    }
    if entry.None? {
      return Some("tool_not_registered");
    }
    if entry.value.policy.exclusivePerStep && |calls| > 1 {
      return Some("exclusive_tool_must_be_only_tool_call");
    }
    if entry.value.execution == Async && |calls| > 1 {
      return Some("async_batch_unsupported");
    }
    if call.arguments.None? {
      return Some("tool_arguments_missing");
    }
    if !t.argumentsFit(call.name, call.arguments.value) {
      return Some("tool_arguments_invalid");
    }
    if !t.requestFits(call) {
      return Some("action_request_invalid");
    }
    if entry.value.execution == Async && t.asyncLimitFull {
      return Some("async_action_limit_exceeded");
    }
    fault := None;
  }

  /* ---- The whole batch ---- */

  function PlanOf(t: Toolbox, calls: seq<ToolCall>): (plan: seq<PlannedCall>)
    requires Admissible(t, calls)
    ensures |plan| == |calls| && IsPlan(plan)
    ensures forall i | 0 <= i < |plan| :: plan[i].call == calls[i]
  {
    seq(|calls|, i requires 0 <= i < |calls| => PlannedCallOf(t, calls, i))
  }

  function PlannedCallOf(t: Toolbox, calls: seq<ToolCall>, i: nat): PlannedCall
    requires i < |calls| && Fault(t, calls, i).None?
  {
    PlannedCall(i, calls[i], t.lookup(calls[i].name).value)
  }

  predicate RunsAlone(plan: seq<PlannedCall>) {
    |plan| == 1 && plan[0].entry.execution == Async
  }

  // An asynchronous call is first started; the environment answers with a first state or with the result.
  datatype ActionStart = ActionStart(updated: bool, result: Option<ActionResult>)

  datatype Environment = Environment(replies: nat -> Reply, start: Result<ActionStart, TechnicalError>, wait: Reply)

  // What a batch comes to: the calls submitted to the environment are those launched in the log and, when
  // one was started, the single call of the batch.
  datatype BatchRun = BatchRun(outcome: BatchOutcome, error: Option<TechnicalError>, log: seq<Step>, started: bool)

  // The asynchronous call ended without a result.
  ghost predicate FailsWith(run: BatchRun, error: TechnicalError) {
    run.error == Some(error) && run.outcome.results == [] && run.outcome.actions == []
  }

  // The call ended with this action: it has one result, which has the status and the output of the action.  A
  // rejection at the start that gives no code of its own is told apart.
  ghost predicate EndsWith(item: PlannedCall, action: ActionResult, atStart: bool, run: BatchRun) {
    if action.status == ActionNotEnded then FailsWith(run, Technical("non_terminal_action_status"))
    else
      && run.error.None? && |run.outcome.results| == 1
      && run.outcome.asyncStarted && run.outcome.failed == (action.status != ActionSucceeded)
      && run.outcome.settle == (action.status == ActionSucceeded && item.entry.policy.settleAfterSuccess)
      && run.outcome.actions == (if action.status == ActionSucceeded
                                 then [CompletedAction(item.call, action, item.entry.policy)] else [])
      && Tells(item.call, action, if atStart then "action_start_rejected" else "action_rejected",
               run.outcome.results[0])
  }

  // A result that comes with the start ends the call, whatever a wait would answer; with a first state alone the
  // answer to the wait does.  A start that fails or brings neither is a technical error, and so is a failed wait.
  ghost predicate AsyncReports(item: PlannedCall, env: Environment, run: BatchRun) {
    && run.started && run.log == []
    && match env.start
       case Err(e) => FailsWith(run, e)
       case Ok(ActionStart(_, Some(action))) => EndsWith(item, action, true, run)
       case Ok(ActionStart(false, None)) =>
         FailsWith(run, Technical("action start is missing status update or terminal result"))
       case Ok(ActionStart(true, None)) =>
         match env.wait
         case Err(e) => FailsWith(run, e)
         case Ok(None) => FailsWith(run, Technical("action result is nil"))
         case Ok(Some(action)) => EndsWith(item, action, false, run)
  }

  ghost predicate BatchReports(t: Toolbox, calls: seq<ToolCall>, env: Environment, run: BatchRun) {
    if !Admissible(t, calls) then run == BatchRun(BatchOutcome(Refused(t, calls), [], true, false, false), None, [],
                                                  false)
    else
      var plan := PlanOf(t, calls);
      if RunsAlone(plan) then AsyncReports(plan[0], env, run)
      else !run.started && Reports(plan, Outcomes(plan, env.replies), t.maxParallel, run.log, run.outcome, run.error)
  }

  method Run(t: Toolbox, calls: seq<ToolCall>, env: Environment) returns (run: BatchRun)
    ensures BatchReports(t, calls, env, run)
  {
    var plan, refused, failed := Preflight(t, calls);
    if failed {
      return BatchRun(BatchOutcome(refused, [], true, false, false), None, [], false);
    }
    assert plan == PlanOf(t, calls);
    if |plan| == 1 && plan[0].entry.execution == Async {
      run := RunAsyncOne(plan[0], env);
    } else {
      var outcome, error, log := RunPlan(plan, env.replies, t.maxParallel);
      run := BatchRun(outcome, error, log, false);
    }
  }

  method RunAsyncOne(item: PlannedCall, env: Environment) returns (run: BatchRun)
    ensures AsyncReports(item, env, run)
  {
    if env.start.Err? {
      return AsyncFailure(env.start.error);
    }
    var start := env.start.value;
    if start.result.Some? {
      run := EndWith(item, start.result.value, true);
      return;
    }
    if !start.updated {
      return AsyncFailure(Technical("action start is missing status update or terminal result"));
    }
    if env.wait.Err? {
      return AsyncFailure(env.wait.error);
    }
    if env.wait.value.None? {
      return AsyncFailure(Technical("action result is nil"));
    }
    run := EndWith(item, env.wait.value.value, false);
  }

  function AsyncFailure(error: TechnicalError): BatchRun {
    BatchRun(BatchOutcome([], [], false, false, false), Some(error), [], true)
  }

  // The result of a call that ended at its start.
  function StartResultOf(call: ToolCall, action: ActionResult): Outcome {
    var o := ToolResultOf(call, action);
    if o.Ok? && action.status == ActionRejected && TrimSpace(action.errorCode) == ""
    then Ok(o.value.(result := o.value.result.(code := "action_start_rejected"))) else o
  }

  method EndWith(item: PlannedCall, action: ActionResult, atStart: bool) returns (run: BatchRun)
    ensures EndsWith(item, action, atStart, run) && run.started && run.log == []
  {
    var o := if atStart then StartResultOf(item.call, action) else ToolResultOf(item.call, action);
    if o.Err? {
      return AsyncFailure(o.error);
    }
    var outcome := BatchOutcome([o.value.result], [], false, false, true);
    if o.value.result.status == Succeeded {
      outcome := outcome.(actions := [CompletedAction(item.call, o.value.action, item.entry.policy)],
                          settle := item.entry.policy.settleAfterSuccess);
    } else {
      outcome := outcome.(failed := true);
    }
    run := BatchRun(outcome, None, [], true);
  }

  // The calls of the batch that reached the environment.
  function Submitted(run: BatchRun): nat {
    Launched(run.log) + if run.started then 1 else 0
  }

  // Either preflight refused the batch, nothing was submitted and some slot is invalid, or a prefix of the
  // calls was submitted; without an error every slot names its own call.
  lemma BatchResults(t: Toolbox, calls: seq<ToolCall>, env: Environment, run: BatchRun)
    requires BatchReports(t, calls, env, run)
    ensures Submitted(run) <= |calls| && (run.started ==> |calls| == 1)
    ensures run.error.None? ==> |run.outcome.results| == |calls|
    ensures run.error.None? ==> forall i | 0 <= i < |calls| :: run.outcome.results[i].toolCallId == calls[i].id
    ensures !Admissible(t, calls) ==>
      && Submitted(run) == 0 && run.outcome.failed
      && (forall i | 0 <= i < |calls| :: run.outcome.results[i].status in {Invalid, Skipped})
      && exists i :: 0 <= i < |calls| && run.outcome.results[i].status == Invalid
  {
    if !Admissible(t, calls) {
      var i :| 0 <= i < |calls| && Fault(t, calls, i).Some?;
      assert run.outcome.results[i].status == Invalid;
    } else if !RunsAlone(PlanOf(t, calls)) && run.error.None? {
      PlanResults(PlanOf(t, calls), env, t.maxParallel, run);
    }
  }

  lemma PlanResults(plan: seq<PlannedCall>, env: Environment, limit: int, run: BatchRun)
    requires Reports(plan, Outcomes(plan, env.replies), limit, run.log, run.outcome, None)
    ensures |run.outcome.results| == |plan|
    ensures forall i | 0 <= i < |plan| :: run.outcome.results[i].toolCallId == plan[i].call.id
  {
    RanAsPrescribed(plan, Outcomes(plan, env.replies), limit, run.log, run.outcome);
    NamesOfSlots(plan, env.replies);
  }

  // An asynchronous call is never started once the limit of the turn is reached.
  lemma StartsWithinLimit(t: Toolbox, calls: seq<ToolCall>, env: Environment, run: BatchRun)
    requires BatchReports(t, calls, env, run)
    ensures run.started ==> !t.asyncLimitFull
    ensures run.error.None? ==> run.outcome.asyncStarted == run.started
  {
    if Admissible(t, calls) && RunsAlone(PlanOf(t, calls)) {
      assert Fault(t, calls, 0).None?;
    }
  }
}

/**
 The tool batch scheduler (runtime/internal/agent/scheduler.go).  The workers of a parallel group are
 modelled by the calls in flight, any of which may end next; once the group is cancelled a call may end
 in any way.
 */
module Scheduler {
  import opened Common
  import opened Messages
  import opened BatchProtocol

  /* ---- Successful actions ---- */

  // What was received, as a function; a call that was not received has no outcome of its own.
  function AsOutcomes(got: map<nat, Outcome>): nat -> Outcome {
    (k: nat) => if k in got then got[k] else Err(Technical(""))
  }

  lemma {:induction false} SameSuccesses(plan: seq<PlannedCall>, a: nat -> Outcome, b: nat -> Outcome, s: nat, e: nat)
    requires s <= e <= |plan| && forall k | s <= k < e :: a(k) == b(k)
    ensures Successes(plan, a, s, e) == Successes(plan, b, s, e)
    decreases e - s
  {
    if s < e {
      SameSuccesses(plan, a, b, s, e - 1);
    }
  }

  lemma {:induction false} SuccessesJoin(plan: seq<PlannedCall>, outcomes: nat -> Outcome, s: nat, m: nat, e: nat)
    requires s <= m <= e <= |plan|
    ensures Successes(plan, outcomes, s, e) == Successes(plan, outcomes, s, m) + Successes(plan, outcomes, m, e)
    decreases e - m
  {
    if m < e {
      SuccessesJoin(plan, outcomes, s, m, e - 1);
    }
  }

  // The successes that were recorded by call index.
  ghost predicate Records(byIndex: map<nat, CompletedAction>, plan: seq<PlannedCall>, outcomes: nat -> Outcome, s: nat,
                          e: nat) {
    e <= |plan| && forall k | s <= k < e ::
      if k in byIndex then ActionOf(plan[k], outcomes(k)) == [byIndex[k]] else ActionOf(plan[k], outcomes(k)) == []
  }

  method SuccessfulActionsFromParallelGroup(plan: seq<PlannedCall>, s: nat, e: nat, byIndex: map<nat, CompletedAction>,
                                            ghost outcomes: nat -> Outcome)
    returns (actions: seq<CompletedAction>)
    requires IsPlan(plan) && s <= e && Records(byIndex, plan, outcomes, s, e)
    ensures actions == Successes(plan, outcomes, s, e)
  {
    actions := [];
    for k := s to e
      invariant actions == Successes(plan, outcomes, s, k)
    {
      if plan[k].index in byIndex {
        actions := actions + [byIndex[plan[k].index]];
      }
    }
  }

  method CompletedActionsShouldSettle(actions: seq<CompletedAction>) returns (settle: bool)
    ensures settle <==> Settles(actions)
  {
    for i := 0 to |actions|
      invariant forall j | 0 <= j < i :: !actions[j].policy.settleAfterSuccess
    {
      if actions[i].policy.settleAfterSuccess {
        return true;
      }
    }
    settle := false;
  }

  /* ---- One parallel group ---- */

  // Everything before call s was submitted, is done and has succeeded.
  ghost predicate ReadyAt(plan: seq<PlannedCall>, outcomes: nat -> Outcome, limit: int, log: seq<Step>, s: nat) {
    && IsRun(plan, outcomes, limit, log) && Errors(log) == []
    && Launched(log) == s && Received(log).Keys == Below(s)
    && forall k | 0 <= k < s :: IsSuccess(outcomes(k))
  }

  // The calls up to next are launched; those in flight are the ones not received.
  ghost predicate Flying(log: seq<Step>, next: nat, inFlight: set<nat>, active: int) {
    && Launched(log) == next && active == |inFlight|
    && inFlight !! Received(log).Keys && inFlight + Received(log).Keys == Below(next)
  }

  ghost predicate Earlier(got: map<nat, Outcome>, outcomes: nat -> Outcome, s: nat) {
    forall k | 0 <= k < s :: k in got && got[k] == outcomes(k) && IsSuccess(got[k])
  }

  // A group under way: the run so far, the calls of earlier groups done, and the calls in flight.
  ghost predicate Underway(plan: seq<PlannedCall>, outcomes: nat -> Outcome, limit: int, log: seq<Step>, s: nat, e: nat,
                           next: nat, inFlight: set<nat>, active: int)
  {
    && IsRun(plan, outcomes, limit, log) && Earlier(Received(log), outcomes, s)
    && Flying(log, next, inFlight, active) && s <= next <= e
  }

  lemma ActiveIs(log: seq<Step>, next: nat, inFlight: set<nat>, active: int)
    requires Flying(log, next, inFlight, active)
    ensures Active(log) == active
  {
    assert |inFlight + Received(log).Keys| == |inFlight| + |Received(log).Keys|;
    assert |Received(log).Keys| == |Received(log)|;
  }

  lemma LaunchFlies(log: seq<Step>, next: nat, inFlight: set<nat>, active: int)
    requires Flying(log, next, inFlight, active)
    ensures Flying(log + [Launch(next)], next + 1, inFlight + {next}, active + 1)
    ensures Errors(log + [Launch(next)]) == Errors(log) && Received(log + [Launch(next)]) == Received(log)
  {
    LogNext(log, Launch(next));
    assert next !in Below(next);
  }

  lemma ReceiveLands(log: seq<Step>, next: nat, inFlight: set<nat>, active: int, k: nat, outcome: Outcome)
    requires Flying(log, next, inFlight, active) && k in inFlight
    ensures Flying(log + [Receive(k, outcome)], next, inFlight - {k}, active - 1)
    ensures k < next
  {
    LogNext(log, Receive(k, outcome));
    var received, after := Received(log).Keys, Received(log + [Receive(k, outcome)]).Keys;
    assert after == received + {k};
    MoveOne(inFlight, received, k);
    assert k in inFlight + received;
  }

  lemma MoveOne(a: set<nat>, b: set<nat>, k: nat)
    requires a !! b && k in a
    ensures a - {k} !! b + {k} && (a - {k}) + (b + {k}) == a + b && |a - {k}| == |a| - 1
  {
  }

  lemma LaunchRuns(plan: seq<PlannedCall>, outcomes: nat -> Outcome, limit: int, log: seq<Step>, s: nat, e: nat,
                   next: nat)
    requires IsRun(plan, outcomes, limit, log) && IsGroupOf(plan, s, e) && s <= next < e
    requires Launched(log) == next && Active(log) < Cap(limit) && Errors(log) == []
    requires Earlier(Received(log), outcomes, s)
    ensures IsRun(plan, outcomes, limit, log + [Launch(next)])
  {
    GroupEnds(plan, s, e, next);
    RunNext(plan, outcomes, limit, log, Launch(next));
  }

  lemma ReceiveRuns(plan: seq<PlannedCall>, outcomes: nat -> Outcome, limit: int, log: seq<Step>, s: nat, k: nat,
                    outcome: Outcome)
    requires IsRun(plan, outcomes, limit, log) && k < Launched(log) && k !in Received(log)
    requires Earlier(Received(log), outcomes, s)
    requires Errors(log) == [] ==> outcome == outcomes(k)
    requires k < |plan| && Fits(plan[k].call, outcome) && Full(plan, limit, log)
    ensures s <= k
    ensures IsRun(plan, outcomes, limit, log + [Receive(k, outcome)])
    ensures Earlier(Received(log + [Receive(k, outcome)]), outcomes, s)
  {
    RunNext(plan, outcomes, limit, log, Receive(k, outcome));
    LogNext(log, Receive(k, outcome));
  }

  lemma LaunchNext(plan: seq<PlannedCall>, outcomes: nat -> Outcome, limit: int, log: seq<Step>, s: nat, e: nat,
                   next: nat, inFlight: set<nat>, active: int)
    requires Underway(plan, outcomes, limit, log, s, e, next, inFlight, active)
    requires IsGroupOf(plan, s, e) && next < e && active < Cap(limit) && Errors(log) == []
    ensures var after := log + [Launch(next)];
      && Underway(plan, outcomes, limit, after, s, e, next + 1, inFlight + {next}, active + 1)
      && Errors(after) == [] && Received(after) == Received(log)
  {
    ActiveIs(log, next, inFlight, active);
    LaunchRuns(plan, outcomes, limit, log, s, e, next);
    LaunchFlies(log, next, inFlight, active);
  }

  lemma ReceiveOne(plan: seq<PlannedCall>, outcomes: nat -> Outcome, limit: int, log: seq<Step>, s: nat, e: nat,
                   next: nat, inFlight: set<nat>, active: int, k: nat, outcome: Outcome)
    requires Underway(plan, outcomes, limit, log, s, e, next, inFlight, active) && k in inFlight
    requires Errors(log) == [] ==> outcome == outcomes(k)
    requires k < |plan| && Fits(plan[k].call, outcome) && Full(plan, limit, log)
    ensures s <= k < next && k !in Received(log)
    ensures var after := log + [Receive(k, outcome)];
      && Underway(plan, outcomes, limit, after, s, e, next, inFlight - {k}, active - 1)
      && Received(after) == Received(log)[k := outcome]
      && Errors(after) == if outcome.Err? then Errors(log) + [outcome.error] else Errors(log)
  {
    ReceiveLands(log, next, inFlight, active, k, outcome);
    ReceiveRuns(plan, outcomes, limit, log, s, k, outcome);
    LogNext(log, Receive(k, outcome));
  }

  method LaunchMore(plan: seq<PlannedCall>, ghost outcomes: nat -> Outcome, ghost limit: int, ghost s: nat, e: nat,
                    cap: nat, stopped: bool,
                    log0: seq<Step>, next0: nat, inFlight0: set<nat>, active0: nat)
    returns (log: seq<Step>, next: nat, inFlight: set<nat>, active: nat)
    requires IsGroupOf(plan, s, e) && cap == Cap(limit)
    requires Underway(plan, outcomes, limit, log0, s, e, next0, inFlight0, active0) && (stopped <==> Errors(log0) != [])
    ensures Underway(plan, outcomes, limit, log, s, e, next, inFlight, active)
    ensures Errors(log) == Errors(log0) && Received(log) == Received(log0)
    ensures !stopped && active < cap ==> next == e
    ensures next - active == next0 - active0
  {
    if stopped {
      return log0, next0, inFlight0, active0;
    }
    log, next, inFlight, active := LaunchUpTo(plan, outcomes, limit, s, e, cap, log0, next0, inFlight0, active0);
  }

  method LaunchUpTo(plan: seq<PlannedCall>, ghost outcomes: nat -> Outcome, ghost limit: int, ghost s: nat, e: nat,
                    cap: nat,
                    log0: seq<Step>, next0: nat, inFlight0: set<nat>, active0: nat)
    returns (log: seq<Step>, next: nat, inFlight: set<nat>, active: nat)
    requires IsGroupOf(plan, s, e) && cap == Cap(limit) && Errors(log0) == []
    requires Underway(plan, outcomes, limit, log0, s, e, next0, inFlight0, active0)
    ensures Underway(plan, outcomes, limit, log, s, e, next, inFlight, active)
    ensures Errors(log) == [] && Received(log) == Received(log0)
    ensures active < cap ==> next == e
    ensures next - active == next0 - active0
  {
    log, next, inFlight, active := log0, next0, inFlight0, active0;
    while active < cap && next < e
      invariant Underway(plan, outcomes, limit, log, s, e, next, inFlight, active)
      invariant Errors(log) == [] && Received(log) == Received(log0)
      invariant next - active == next0 - active0
      decreases e - next
    {
      LaunchNext(plan, outcomes, limit, log, s, e, next, inFlight, active);
      log, next, inFlight, active := log + [Launch(next)], next + 1, inFlight + {next}, active + 1;
    }
  }

  // Slot k of the batch: the result received for call k of the group, or what it was before the group.
  function SlotAfter(got: map<nat, Outcome>, s: nat, k: nat, was: ToolResult): ToolResult {
    if s <= k && k in got && got[k].Ok? then got[k].value.result else was
  }

  ghost predicate Filled(results: seq<ToolResult>, before: seq<ToolResult>, got: map<nat, Outcome>, s: nat) {
    |results| == |before| && forall k | 0 <= k < |results| :: results[k] == SlotAfter(got, s, k, before[k])
  }

  ghost predicate SomeFailed(got: map<nat, Outcome>, s: nat) {
    exists k :: k in got && s <= k && got[k].Ok? && !IsSuccess(got[k])
  }

  // The slots, the successes and the failure flag that go with what was received.
  ghost predicate Kept(results: seq<ToolResult>, before: seq<ToolResult>, byIndex: map<nat, CompletedAction>,
                       failed: bool,
                       plan: seq<PlannedCall>, got: map<nat, Outcome>, s: nat, e: nat)
  {
    && Filled(results, before, got, s) && Records(byIndex, plan, AsOutcomes(got), s, e) && byIndex.Keys <= got.Keys
    && failed == SomeFailed(got, s)
  }

  lemma SomeFailedNext(got: map<nat, Outcome>, s: nat, k: nat, outcome: Outcome)
    requires s <= k && k !in got
    ensures SomeFailed(got[k := outcome], s) <==> SomeFailed(got, s) || (outcome.Ok? && !IsSuccess(outcome))
  {
    var after := got[k := outcome];
    if SomeFailed(got, s) {
      var j :| j in got && s <= j && got[j].Ok? && !IsSuccess(got[j]);
      assert j in after && after[j] == got[j];
    }
    if outcome.Ok? && !IsSuccess(outcome) {
      assert k in after && after[k] == outcome;
    }
  }

  method Keep(plan: seq<PlannedCall>, k: nat, outcome: Outcome, results: array<ToolResult>,
              byIndex0: map<nat, CompletedAction>, failed0: bool,
              ghost before: seq<ToolResult>, ghost got: map<nat, Outcome>, ghost s: nat, ghost e: nat)
    returns (byIndex: map<nat, CompletedAction>, failed: bool)
    requires IsPlan(plan) && s <= k < |plan| == results.Length && k !in got
    requires Kept(results[..], before, byIndex0, failed0, plan, got, s, e)
    modifies results
    ensures Kept(results[..], before, byIndex, failed, plan, got[k := outcome], s, e)
  {
    SomeFailedNext(got, s, k, outcome);
    byIndex, failed := byIndex0, failed0;
    if outcome.Err? {
      return;
    }
    results[plan[k].index] := outcome.value.result;
    if outcome.value.result.status != Succeeded {
      failed := true;
    } else {
      byIndex := byIndex[plan[k].index := CompletedAction(plan[k].call, outcome.value.action, plan[k].entry.policy)];
    }
  }

  lemma NoneInFlight(log: seq<Step>, next: nat, inFlight: set<nat>, active: int)
    requires Flying(log, next, inFlight, active) && active <= 0
    ensures Received(log).Keys == Below(Launched(log))
  {
  }

  method KeepError(outcome: Outcome, error0: Option<TechnicalError>, stopped0: bool, ghost errors: seq<TechnicalError>)
    returns (error: Option<TechnicalError>, stopped: bool)
    requires error0 == Preferred(errors) && (stopped0 <==> errors != [])
    ensures error == Preferred(if outcome.Err? then errors + [outcome.error] else errors)
    ensures stopped <==> errors != [] || outcome.Err?
  {
    error, stopped := error0, stopped0;
    if outcome.Err? {
      PreferredNext(errors, outcome.error);
      error, stopped := PreferTechnicalError(error, outcome.error), true;
    }
  }

  // The variables of the loop.
  datatype GroupState = GroupState(
    log: seq<Step>, next: nat, inFlight: set<nat>, active: nat, stopped: bool, error: Option<TechnicalError>,
    byIndex: map<nat, CompletedAction>, failed: bool)

  // Launching stops with the first technical error, and until then the limit is used up.
  ghost predicate Looping(plan: seq<PlannedCall>, outcomes: nat -> Outcome, limit: int, s: nat, e: nat, g: GroupState) {
    && Underway(plan, outcomes, limit, g.log, s, e, g.next, g.inFlight, g.active)
    && (g.stopped <==> Errors(g.log) != []) && g.error == Preferred(Errors(g.log))
    && (!g.stopped && g.active < Cap(limit) ==> g.next == e)
  }

  // The slots and records go with what was received.
  ghost predicate Recording(results: seq<ToolResult>, before: seq<ToolResult>, plan: seq<PlannedCall>, s: nat, e: nat,
                            g: GroupState) {
    Kept(results, before, g.byIndex, g.failed, plan, Received(g.log), s, e)
  }

  method RunParallelGroup(plan: seq<PlannedCall>, s: nat, e: nat, replies: nat -> Reply, maxParallel: int,
                          results: array<ToolResult>, before: seq<Step>)
    returns (actions: seq<CompletedAction>, failed: bool, error: Option<TechnicalError>, log: seq<Step>)
    requires IsPlan(plan) && IsGroupOf(plan, s, e) && results.Length == |plan|
    requires ReadyAt(plan, Outcomes(plan, replies), maxParallel, before, s)
    modifies results
    ensures GroupDone(plan, Outcomes(plan, replies), maxParallel, log, s, e, old(results[..]), results[..], actions,
                      failed, error)
  {
    var g := LaunchFirst(plan, Outcomes(plan, replies), s, e, maxParallel, before, results[..]);
    while g.active > 0
      invariant Looping(plan, Outcomes(plan, replies), maxParallel, s, e, g)
      invariant Recording(results[..], old(results[..]), plan, s, e, g)
      decreases e - (g.next - g.active)
    {
      g := SettleOne(plan, s, e, replies, maxParallel, results, g, old(results[..]));
    }
    actions, failed := EndGroup(plan, Outcomes(plan, replies), maxParallel, s, e, g, old(results[..]), results[..]);
    error, log := g.error, g.log;
  }

  method LaunchFirst(plan: seq<PlannedCall>, ghost outcomes: nat -> Outcome, s: nat, e: nat, maxParallel: int,
                     before: seq<Step>,
                     ghost results: seq<ToolResult>)
    returns (g: GroupState)
    requires IsPlan(plan) && IsGroupOf(plan, s, e) && ReadyAt(plan, outcomes, maxParallel, before, s)
    ensures Looping(plan, outcomes, maxParallel, s, e, g) && Recording(results, results, plan, s, e, g)
  {
    StartGroup(plan, outcomes, maxParallel, before, s, e);
    StartKept(plan, Received(before), s, e, results);
    var log, next, inFlight, active := LaunchMore(plan, outcomes, maxParallel, s, e, Cap(maxParallel), false, before,
                                                  s, {}, 0);
    g := GroupState(log, next, inFlight, active, false, None, map[], false);
  }

  lemma LoopIsFull(plan: seq<PlannedCall>, outcomes: nat -> Outcome, limit: int, s: nat, e: nat, g: GroupState)
    requires IsGroupOf(plan, s, e) && Looping(plan, outcomes, limit, s, e, g)
    ensures Full(plan, limit, g.log)
  {
    ActiveIs(g.log, g.next, g.inFlight, g.active);
  }

  // One round of the loop: a call ends, its outcome is recorded, and unless there was a technical error there is
  // room for more calls.
  method SettleOne(plan: seq<PlannedCall>, s: nat, e: nat, replies: nat -> Reply, maxParallel: int,
                   results: array<ToolResult>,
                  g: GroupState, ghost before: seq<ToolResult>)
    returns (h: GroupState)
    requires IsPlan(plan) && IsGroupOf(plan, s, e) && results.Length == |plan| && g.active > 0
    requires Looping(plan, Outcomes(plan, replies), maxParallel, s, e, g)
    requires Recording(results[..], before, plan, s, e, g)
    modifies results
    ensures Looping(plan, Outcomes(plan, replies), maxParallel, s, e, h)
    ensures Recording(results[..], before, plan, s, e, h)
    ensures h.next - h.active == g.next - g.active + 1
  {
    LoopIsFull(plan, Outcomes(plan, replies), maxParallel, s, e, g);
    var k, outcome, received := ReceiveNext(plan, replies, maxParallel, s, e, g.next, g.inFlight, g.active, g.stopped,
                                            g.log);
    var byIndex, failed := Keep(plan, k, outcome, results, g.byIndex, g.failed, before, Received(g.log), s, e);
    var error, stopped := KeepError(outcome, g.error, g.stopped, Errors(g.log));
    var log, next, inFlight, active := LaunchMore(plan, Outcomes(plan, replies), maxParallel, s, e, Cap(maxParallel),
                                                  stopped,
                                                  received, g.next, g.inFlight - {k}, g.active - 1);
    h := GroupState(log, next, inFlight, active, stopped, error, byIndex, failed);
  }

  // The group with nothing in flight any more.
  method EndGroup(plan: seq<PlannedCall>, ghost outcomes: nat -> Outcome, ghost limit: int, s: nat, e: nat,
                  g: GroupState,
                  ghost before: seq<ToolResult>, ghost results: seq<ToolResult>)
    returns (actions: seq<CompletedAction>, failed: bool)
    requires IsPlan(plan) && s <= e <= |plan| && g.active == 0
    requires Looping(plan, outcomes, limit, s, e, g) && Recording(results, before, plan, s, e, g)
    ensures GroupDone(plan, outcomes, limit, g.log, s, e, before, results, actions, failed, g.error)
  {
    NoneInFlight(g.log, g.next, g.inFlight, g.active);
    failed := g.error.None? && g.failed;
    actions := SuccessfulActionsFromParallelGroup(plan, s, e, g.byIndex, AsOutcomes(Received(g.log)));
  }

  lemma FlightIsLaunched(log: seq<Step>, next: nat, inFlight: set<nat>, active: int, k: nat)
    requires Flying(log, next, inFlight, active) && k in inFlight
    ensures k < next
  {
  }

  // How a call ends; once the group is cancelled the environment may answer anything.
  method Answer(plan: seq<PlannedCall>, k: nat, replies: nat -> Reply, cancelled: bool) returns (outcome: Outcome)
    requires k < |plan|
    ensures Fits(plan[k].call, outcome) && (!cancelled ==> outcome == Outcomes(plan, replies)(k))
  {
    var reply: Reply := replies(k);
    if cancelled {
      reply := *;
    }
    outcome := OutcomeOf(plan[k].call, reply);
  }

  // Any call in flight may be the next to end.
  method ReceiveNext(plan: seq<PlannedCall>, replies: nat -> Reply, ghost limit: int, ghost s: nat, ghost e: nat,
                     ghost next: nat,
                     inFlight: set<nat>, ghost active: int, cancelled: bool, log: seq<Step>)
    returns (k: nat, outcome: Outcome, received: seq<Step>)
    requires Underway(plan, Outcomes(plan, replies), limit, log, s, e, next, inFlight, active) && active > 0
    requires e <= |plan|
    requires (cancelled <==> Errors(log) != []) && Full(plan, limit, log)
    ensures k in inFlight && s <= k < next && k !in Received(log)
    ensures Underway(plan, Outcomes(plan, replies), limit, received, s, e, next, inFlight - {k}, active - 1)
    ensures Received(received) == Received(log)[k := outcome]
    ensures Errors(received) == if outcome.Err? then Errors(log) + [outcome.error] else Errors(log)
  {
    k :| k in inFlight;
    FlightIsLaunched(log, next, inFlight, active, k);
    outcome := Answer(plan, k, replies, cancelled);
    ReceiveOne(plan, Outcomes(plan, replies), limit, log, s, e, next, inFlight, active, k, outcome);
    received := log + [Receive(k, outcome)];
  }

  lemma StartGroup(plan: seq<PlannedCall>, outcomes: nat -> Outcome, limit: int, log: seq<Step>, s: nat, e: nat)
    requires ReadyAt(plan, outcomes, limit, log, s) && s <= e <= |plan|
    ensures Underway(plan, outcomes, limit, log, s, e, s, {}, 0)
  {
    forall k | 0 <= k < s
      ensures Received(log)[k] == outcomes(k)
    {
      RunIsAnswered(plan, outcomes, limit, log, k);
    }
  }

  lemma StartKept(plan: seq<PlannedCall>, got: map<nat, Outcome>, s: nat, e: nat, results: seq<ToolResult>)
    requires got.Keys == Below(s) && s <= e <= |plan|
    ensures Kept(results, results, map[], false, plan, got, s, e)
  {
  }

  /* ---- A whole plan ---- */

  // The group [s, e) was submitted and every call in it was answered.
  ghost predicate Answered(plan: seq<PlannedCall>, outcomes: nat -> Outcome, limit: int, log: seq<Step>, e: nat) {
    && IsRun(plan, outcomes, limit, log) && Errors(log) == []
    && Launched(log) == e && Received(log).Keys == Below(e)
  }

  lemma AnswersAre(plan: seq<PlannedCall>, outcomes: nat -> Outcome, limit: int, log: seq<Step>, e: nat)
    requires Answered(plan, outcomes, limit, log, e)
    ensures forall k | 0 <= k < e :: outcomes(k).Ok? && Received(log)[k] == outcomes(k)
  {
    forall k | 0 <= k < e
      ensures outcomes(k).Ok? && Received(log)[k] == outcomes(k)
    {
      RunIsAnswered(plan, outcomes, limit, log, k);
    }
  }

  lemma GroupIsDone(plan: seq<PlannedCall>, outcomes: nat -> Outcome, limit: int, log: seq<Step>, s: nat, e: nat)
    requires IsGroupOf(plan, s, e) && Answered(plan, outcomes, limit, log, e)
    requires forall k | 0 <= k < s :: IsSuccess(outcomes(k))
    ensures !SomeFailed(Received(log), s) ==> ReadyAt(plan, outcomes, limit, log, e)
    ensures SomeFailed(Received(log), s) ==> FirstBad(outcomes, 0, |plan|) < |plan| && Stop(plan, outcomes) == e
  {
    AnswersAre(plan, outcomes, limit, log, e);
    var got := Received(log);
    if SomeFailed(got, s) {
      var k :| k in got && s <= k && got[k].Ok? && !IsSuccess(got[k]);
      assert k < e && !IsSuccess(outcomes(k));
      GroupEnds(plan, s, e, FirstBad(outcomes, 0, |plan|));
    } else {
      forall k | s <= k < e
        ensures IsSuccess(outcomes(k))
      {
        assert k in got && got[k] == outcomes(k);
      }
    }
  }

  // The slots before call i hold the results of their own calls.
  ghost predicate Written(results: seq<ToolResult>, outcomes: nat -> Outcome, i: nat) {
    i <= |results| && forall k | 0 <= k < i :: outcomes(k).Ok? && results[k] == outcomes(k).value.result
  }

  lemma WrittenNext(plan: seq<PlannedCall>, outcomes: nat -> Outcome, limit: int, log: seq<Step>, s: nat, e: nat,
                    before: seq<ToolResult>, results: seq<ToolResult>)
    requires s <= e <= |results| && Answered(plan, outcomes, limit, log, e)
    requires Written(before, outcomes, s) && Filled(results, before, Received(log), s)
    ensures Written(results, outcomes, e)
  {
    AnswersAre(plan, outcomes, limit, log, e);
  }

  lemma SuccessesNext(plan: seq<PlannedCall>, outcomes: nat -> Outcome, limit: int, log: seq<Step>, s: nat, e: nat)
    requires s <= e <= |plan| && Answered(plan, outcomes, limit, log, e)
    ensures Successes(plan, outcomes, 0, s) + Successes(plan, AsOutcomes(Received(log)), s, e) ==
        Successes(plan, outcomes, 0, e)
  {
    AnswersAre(plan, outcomes, limit, log, e);
    SameSuccesses(plan, AsOutcomes(Received(log)), outcomes, s, e);
    SuccessesJoin(plan, outcomes, 0, s, e);
  }

  method FillPriorGroupSkipped(results: array<ToolResult>, plan: seq<PlannedCall>, from: nat,
                               ghost outcomes: nat -> Outcome)
    requires IsPlan(plan) && results.Length == |plan| && from == Stop(plan, outcomes)
    requires Written(results[..], outcomes, from)
    modifies results
    ensures results[..] == Slots(plan, outcomes)
  {
    for k := from to |plan|
      invariant forall j | 0 <= j < k :: results[j] == Slot(plan, outcomes, from, j)
    {
      results[plan[k].index] := SkippedResult(plan[k].call, "prior_group_failed");
    }
  }

  lemma AllWritten(plan: seq<PlannedCall>, outcomes: nat -> Outcome, results: seq<ToolResult>)
    requires |results| == |plan| && Written(results, outcomes, |plan|) && forall k | 0 <= k < |plan| ::
      IsSuccess(outcomes(k))
    ensures Stop(plan, outcomes) == |plan| && FirstBad(outcomes, 0, |plan|) == |plan|
    ensures results == Slots(plan, outcomes)
  {
  }

  lemma SettlesJoin(a: seq<CompletedAction>, b: seq<CompletedAction>)
    ensures Settles(a + b) <==> Settles(a) || Settles(b)
  {
    if Settles(a) {
      var i :| 0 <= i < |a| && a[i].policy.settleAfterSuccess;
      assert (a + b)[i] == a[i];
    }
    if Settles(b) {
      var i :| 0 <= i < |b| && b[i].policy.settleAfterSuccess;
      assert (a + b)[|a| + i] == b[i];
    }
  }

  lemma OneCall(plan: seq<PlannedCall>, outcomes: nat -> Outcome, limit: int, before: seq<Step>, k: nat,
                outcome: Outcome)
    requires IsGroupOf(plan, k, k + 1) && ReadyAt(plan, outcomes, limit, before, k)
    requires outcome == outcomes(k) && Fits(plan[k].call, outcome)
    ensures var log := before + [Launch(k)] + [Receive(k, outcome)];
      && IsRun(plan, outcomes, limit, log) && Launched(log) == k + 1
      && Received(log) == Received(before)[k := outcome]
      && Errors(log) == if outcome.Err? then [outcome.error] else []
  {
    StartGroup(plan, outcomes, limit, before, k, k + 1);
    LaunchNext(plan, outcomes, limit, before, k, k + 1, k, {}, 0);
    LogNext(before, Launch(k));
    ReceiveOne(plan, outcomes, limit, before + [Launch(k)], k, k + 1, k + 1, {} + {k}, 1, k, outcome);
  }

  // One sequential call.
  method RunOne(plan: seq<PlannedCall>, k: nat, replies: nat -> Reply, ghost limit: int, before: seq<Step>)
    returns (outcome: Outcome, log: seq<Step>)
    requires IsPlan(plan) && IsGroupOf(plan, k, k + 1) && ReadyAt(plan, Outcomes(plan, replies), limit, before, k)
    ensures outcome == Outcomes(plan, replies)(k)
    ensures IsRun(plan, Outcomes(plan, replies), limit, log) && Launched(log) == k + 1
    ensures Received(log) == Received(before)[k := outcome]
    ensures Errors(log) == if outcome.Err? then [outcome.error] else []
  {
    outcome := Answer(plan, k, replies, false);
    OneCall(plan, Outcomes(plan, replies), limit, before, k, outcome);
    log := before + [Launch(k)] + [Receive(k, outcome)];
  }

  /* ---- The loop over the groups ---- */

  // What every run of a plan, complete or cut short by a technical error, leaves behind.
  ghost predicate Reports(plan: seq<PlannedCall>, outcomes: nat -> Outcome, limit: int, log: seq<Step>,
                          outcome: BatchOutcome, error: Option<TechnicalError>)
  {
    && IsRun(plan, outcomes, limit, log)
    && Received(log).Keys == Below(Launched(log)) && Launched(log) <= Stop(plan, outcomes)
    && outcome.actions == Successes(plan, AsOutcomes(Received(log)), 0, |plan|)
    && outcome.settle == Settles(outcome.actions) && !outcome.asyncStarted
    && error == Preferred(Errors(log))
    && (error.None? ==> Launched(log) == Stop(plan, outcomes) && outcome == Prescribed(plan, outcomes))
  }

  lemma {:induction false} NothingAfter(plan: seq<PlannedCall>, got: map<nat, Outcome>, s: nat, e: nat)
    requires s <= e <= |plan| && forall k | s <= k < e :: k !in got
    ensures Successes(plan, AsOutcomes(got), s, e) == []
    decreases e - s
  {
    if s < e {
      NothingAfter(plan, got, s, e - 1);
    }
  }

  // The successes before the group and those of the group are all there are.
  lemma AllSuccesses(plan: seq<PlannedCall>, outcomes: nat -> Outcome, got: map<nat, Outcome>, s: nat, e: nat)
    requires s <= e <= |plan| && Earlier(got, outcomes, s) && got.Keys <= Below(e)
    ensures Successes(plan, outcomes, 0, s) + Successes(plan, AsOutcomes(got), s, e) ==
        Successes(plan, AsOutcomes(got), 0, |plan|)
  {
    SameSuccesses(plan, AsOutcomes(got), outcomes, 0, s);
    NothingAfter(plan, got, e, |plan|);
    SuccessesJoin(plan, AsOutcomes(got), 0, s, e);
    SuccessesJoin(plan, AsOutcomes(got), 0, e, |plan|);
  }

  // A technical error in a group: that group is the last one.
  lemma ErrorStops(plan: seq<PlannedCall>, outcomes: nat -> Outcome, limit: int, log: seq<Step>, s: nat, e: nat)
    requires IsGroupOf(plan, s, e) && IsRun(plan, outcomes, limit, log) && Errors(log) != [] && Launched(log) <= e
    requires forall k | 0 <= k < s :: IsSuccess(outcomes(k))
    ensures Stop(plan, outcomes) == e
  {
    var k := FirstErrorIsTrue(plan, outcomes, limit, log);
    GroupEnds(plan, s, e, FirstBad(outcomes, 0, |plan|));
  }

  lemma ReportsError(plan: seq<PlannedCall>, outcomes: nat -> Outcome, limit: int, log: seq<Step>, s: nat, e: nat,
                     outcome: BatchOutcome, error: Option<TechnicalError>)
    requires IsGroupOf(plan, s, e) && IsRun(plan, outcomes, limit, log) && Errors(log) != [] && Launched(log) <= e
    requires Received(log).Keys == Below(Launched(log)) && Earlier(Received(log), outcomes, s)
    requires outcome.actions == Successes(plan, outcomes, 0, s) + Successes(plan, AsOutcomes(Received(log)), s, e)
    requires outcome.settle == Settles(outcome.actions) && !outcome.asyncStarted && error == Preferred(Errors(log))
    ensures Reports(plan, outcomes, limit, log, outcome, error)
  {
    ErrorStops(plan, outcomes, limit, log, s, e);
    AllSuccesses(plan, outcomes, Received(log), s, e);
  }

  lemma ReportsDone(plan: seq<PlannedCall>, outcomes: nat -> Outcome, limit: int, log: seq<Step>, e: nat,
                    outcome: BatchOutcome)
    requires Answered(plan, outcomes, limit, log, e) && e == Stop(plan, outcomes)
    requires outcome == Prescribed(plan, outcomes)
    ensures Reports(plan, outcomes, limit, log, outcome, None)
  {
    AnswersAre(plan, outcomes, limit, log, e);
    SameSuccesses(plan, AsOutcomes(Received(log)), outcomes, 0, e);
    NothingAfter(plan, Received(log), e, |plan|);
    SuccessesJoin(plan, AsOutcomes(Received(log)), 0, e, |plan|);
  }

  // Where the loop stands before the group that starts at i.
  ghost predicate AtGroup(plan: seq<PlannedCall>, outcomes: nat -> Outcome, limit: int, log: seq<Step>, i: nat,
                          results: seq<ToolResult>, actions: seq<CompletedAction>, settle: bool)
  {
    && Boundary(plan, i) && |results| == |plan|
    && ReadyAt(plan, outcomes, limit, log, i) && Written(results, outcomes, i)
    && actions == Successes(plan, outcomes, 0, i) && settle == Settles(actions)
  }

  // What one group adds.
  ghost predicate GroupDone(plan: seq<PlannedCall>, outcomes: nat -> Outcome, limit: int, log: seq<Step>, s: nat,
                            e: nat,
                            before: seq<ToolResult>, results: seq<ToolResult>, added: seq<CompletedAction>,
                            failed: bool, error: Option<TechnicalError>)
  {
    && IsRun(plan, outcomes, limit, log) && Earlier(Received(log), outcomes, s)
    && s <= Launched(log) <= e <= |plan| && Received(log).Keys == Below(Launched(log))
    && Filled(results, before, Received(log), s)
    && added == Successes(plan, AsOutcomes(Received(log)), s, e)
    && error == Preferred(Errors(log))
    && (error.None? ==> Launched(log) == e)
    && failed == (error.None? && SomeFailed(Received(log), s))
  }

  lemma GroupAdds(plan: seq<PlannedCall>, outcomes: nat -> Outcome, limit: int, was: seq<Step>, log: seq<Step>, s: nat,
                  e: nat,
                  before: seq<ToolResult>, results: seq<ToolResult>, actions: seq<CompletedAction>,
                  added: seq<CompletedAction>,
                  settle: bool, failed: bool)
    requires IsGroupOf(plan, s, e) && AtGroup(plan, outcomes, limit, was, s, before, actions, settle)
    requires GroupDone(plan, outcomes, limit, log, s, e, before, results, added, failed, None)
    ensures Answered(plan, outcomes, limit, log, e) && Written(results, outcomes, e) && |results| == |plan|
    ensures actions + added == Successes(plan, outcomes, 0, e) && Settles(actions + added) == (settle || Settles(added))
    ensures failed ==> FirstBad(outcomes, 0, |plan|) < |plan| && Stop(plan, outcomes) == e
    ensures !failed ==> AtGroup(plan, outcomes, limit, log, e, results, actions + added, settle || Settles(added))
  {
    assert Answered(plan, outcomes, limit, log, e);
    WrittenNext(plan, outcomes, limit, log, s, e, before, results);
    SuccessesNext(plan, outcomes, limit, log, s, e);
    SettlesJoin(actions, added);
    GroupIsDone(plan, outcomes, limit, log, s, e);
  }

  method FindGroupEnd(plan: seq<PlannedCall>, s: nat) returns (e: nat)
    requires s < |plan| && Boundary(plan, s) && plan[s].entry.concurrency == ParallelSafe
    ensures IsGroupOf(plan, s, e)
  {
    e := s + 1;
    while e < |plan| && plan[e].entry.concurrency == ParallelSafe
      invariant s < e <= |plan| && forall k | s <= k < e :: Parallel(plan, k)
    {
      e := e + 1;
    }
  }

  // One group, parallel or a single sequential call.
  method RunGroup(plan: seq<PlannedCall>, s: nat, replies: nat -> Reply, maxParallel: int, results: array<ToolResult>,
                  before: seq<Step>)
    returns (e: nat, added: seq<CompletedAction>, failed: bool, error: Option<TechnicalError>, log: seq<Step>)
    requires IsPlan(plan) && s < |plan| == results.Length && Boundary(plan, s)
    requires ReadyAt(plan, Outcomes(plan, replies), maxParallel, before, s)
    modifies results
    ensures IsGroupOf(plan, s, e)
    ensures GroupDone(plan, Outcomes(plan, replies), maxParallel, log, s, e, old(results[..]), results[..], added,
                      failed, error)
  {
    if plan[s].entry.concurrency == ParallelSafe {
      e := FindGroupEnd(plan, s);
      added, failed, error, log := RunParallelGroup(plan, s, e, replies, maxParallel, results, before);
    } else {
      e := s + 1;
      added, failed, error, log := RunSequential(plan, s, replies, maxParallel, results, before);
    }
  }

  method RunSequential(plan: seq<PlannedCall>, s: nat, replies: nat -> Reply, ghost limit: int,
                       results: array<ToolResult>, before: seq<Step>)
    returns (added: seq<CompletedAction>, failed: bool, error: Option<TechnicalError>, log: seq<Step>)
    requires IsPlan(plan) && IsGroupOf(plan, s, s + 1) && results.Length == |plan|
    requires ReadyAt(plan, Outcomes(plan, replies), limit, before, s)
    modifies results
    ensures GroupDone(plan, Outcomes(plan, replies), limit, log, s, s + 1, old(results[..]), results[..], added,
                      failed, error)
  {
    var outcome;
    outcome, log := RunOne(plan, s, replies, limit, before);
    AnswersAre(plan, Outcomes(plan, replies), limit, before, s);
    if outcome.Err? {
      OneError(outcome.error);
      error, failed, added := Some(outcome.error), false, [];
    } else {
      results[plan[s].index] := outcome.value.result;
      error, failed := None, outcome.value.result.status != Succeeded;
      added := if failed then [] else [CompletedAction(plan[s].call, outcome.value.action, plan[s].entry.policy)];
    }
    OneIsDone(plan, Outcomes(plan, replies), limit, Received(before), log, s, old(results[..]), results[..], added,
              failed, error, outcome);
  }

  // The records of a single call, in terms of what was received before it.
  lemma OneAdds(plan: seq<PlannedCall>, outcomes: nat -> Outcome, got: map<nat, Outcome>, s: nat, outcome: Outcome)
    requires s < |plan| && got.Keys == Below(s) && forall k | 0 <= k < s ::
      got[k] == outcomes(k) && IsSuccess(outcomes(k))
    ensures got[s := outcome].Keys == Below(s + 1)
    ensures ActionOf(plan[s], outcome) == Successes(plan, AsOutcomes(got[s := outcome]), s, s + 1)
  {
    OneSuccess(plan, AsOutcomes(got[s := outcome]), s);
  }

  lemma OneIsDone(plan: seq<PlannedCall>, outcomes: nat -> Outcome, limit: int, got: map<nat, Outcome>, log: seq<Step>,
                  s: nat,
                  was: seq<ToolResult>, results: seq<ToolResult>, added: seq<CompletedAction>,
                  failed: bool, error: Option<TechnicalError>, outcome: Outcome)
    requires s < |plan| == |was| && got.Keys == Below(s) && forall k | 0 <= k < s ::
      got[k] == outcomes(k) && IsSuccess(outcomes(k))
    requires IsRun(plan, outcomes, limit, log) && Launched(log) == s + 1 && Received(log) == got[s := outcome]
    requires error == Preferred(Errors(log)) && error.Some? == outcome.Err?
    requires results == if outcome.Ok? then was[s := outcome.value.result] else was
    requires added == ActionOf(plan[s], outcome)
    requires failed == (outcome.Ok? && !IsSuccess(outcome))
    ensures GroupDone(plan, outcomes, limit, log, s, s + 1, was, results, added, failed, error)
  {
    OneAdds(plan, outcomes, got, s, outcome);
    OneIsFilled(outcomes, got, s, was, outcome);
  }

  lemma OneSuccess(plan: seq<PlannedCall>, outcomes: nat -> Outcome, k: nat)
    requires k < |plan|
    ensures Successes(plan, outcomes, k, k + 1) == ActionOf(plan[k], outcomes(k))
  {
  }

  lemma OneError(e: TechnicalError)
    ensures Preferred([e]) == Some(e)
  {
    PreferredNext([], e);
    assert [] + [e] == [e];
  }

  lemma OneIsFilled(outcomes: nat -> Outcome, got: map<nat, Outcome>, s: nat, was: seq<ToolResult>, outcome: Outcome)
    requires got.Keys == Below(s) && s < |was| && forall k | 0 <= k < s ::
      got[k] == outcomes(k) && IsSuccess(outcomes(k))
    ensures Earlier(got[s := outcome], outcomes, s)
    ensures Filled(if outcome.Ok? then was[s := outcome.value.result] else was, was, got[s := outcome], s)
    ensures SomeFailed(got[s := outcome], s) == (outcome.Ok? && !IsSuccess(outcome))
  {
    OneFills(got, s, was, outcome);
    OneFails(got, s, outcome);
  }

  lemma OneFills(got: map<nat, Outcome>, s: nat, was: seq<ToolResult>, outcome: Outcome)
    requires got.Keys == Below(s) && s < |was|
    ensures Filled(if outcome.Ok? then was[s := outcome.value.result] else was, was, got[s := outcome], s)
  {
  }

  lemma OneFails(got: map<nat, Outcome>, s: nat, outcome: Outcome)
    requires got.Keys == Below(s)
    ensures SomeFailed(got[s := outcome], s) == (outcome.Ok? && !IsSuccess(outcome))
  {
    assert !SomeFailed(got, s);
    SomeFailedNext(got, s, s, outcome);
  }

  // The batch after a group with a technical error.
  method CutShort(plan: seq<PlannedCall>, ghost outcomes: nat -> Outcome, ghost limit: int, ghost log: seq<Step>,
                  ghost s: nat, ghost e: nat,
                  ghost before: seq<ToolResult>, results: seq<ToolResult>, actions: seq<CompletedAction>,
                      added: seq<CompletedAction>,
                  settle: bool, ghost failed: bool, ghost error: Option<TechnicalError>)
    returns (outcome: BatchOutcome)
    requires IsGroupOf(plan, s, e) && error.Some? && actions == Successes(plan, outcomes, 0, s)
    requires settle == Settles(actions)
    requires GroupDone(plan, outcomes, limit, log, s, e, before, results, added, failed, error)
    ensures Reports(plan, outcomes, limit, log, outcome, error)
  {
    var settleGroup := CompletedActionsShouldSettle(added);
    SettlesJoin(actions, added);
    outcome := BatchOutcome(results, actions + added, false, settle || settleGroup, false);
    ReportsError(plan, outcomes, limit, log, s, e, outcome, error);
  }

  // The batch after a group with a failure.
  method StopAfter(plan: seq<PlannedCall>, e: nat, ghost outcomes: nat -> Outcome, ghost limit: int,
                   ghost log: seq<Step>,
                   results: array<ToolResult>, actions: seq<CompletedAction>, settle: bool)
    returns (outcome: BatchOutcome)
    requires IsPlan(plan) && results.Length == |plan| && Answered(plan, outcomes, limit, log, e)
    requires e == Stop(plan, outcomes) && FirstBad(outcomes, 0, |plan|) < |plan| && Written(results[..], outcomes, e)
    requires actions == Successes(plan, outcomes, 0, e) && settle == Settles(actions)
    modifies results
    ensures Reports(plan, outcomes, limit, log, outcome, None)
  {
    FillPriorGroupSkipped(results, plan, e, outcomes);
    outcome := BatchOutcome(results[..], actions, true, settle, false);
    ReportsDone(plan, outcomes, limit, log, e, outcome);
  }

  method RunPlan(plan: seq<PlannedCall>, replies: nat -> Reply, maxParallel: int)
    returns (outcome: BatchOutcome, error: Option<TechnicalError>, log: seq<Step>)
    requires IsPlan(plan)
    ensures Reports(plan, Outcomes(plan, replies), maxParallel, log, outcome, error)
  {
    var results := new ToolResult[|plan|](_ => ToolResult("", "", NoStatus, "", None));
    var actions: seq<CompletedAction>, settle := [], false;
    var i: nat := 0;
    log := [];
    while i < |plan|
      invariant AtGroup(plan, Outcomes(plan, replies), maxParallel, log, i, results[..], actions, settle)
      decreases |plan| - i
    {
      var end;
      i, log, actions, settle, end := NextGroup(plan, i, replies, maxParallel, results, log, actions, settle);
      if end.Some? {
        return end.value.0, end.value.1, log;
      }
    }
    AllWritten(plan, Outcomes(plan, replies), results[..]);
    outcome, error := BatchOutcome(results[..], actions, false, settle, false), None;
    ReportsDone(plan, Outcomes(plan, replies), maxParallel, log, i, outcome);
  }

  // One group and what it means for the batch: it goes on behind the group, or it ends.
  method NextGroup(plan: seq<PlannedCall>, i: nat, replies: nat -> Reply, maxParallel: int, results: array<ToolResult>,
                   before: seq<Step>, actions0: seq<CompletedAction>, settle0: bool)
    returns (e: nat, log: seq<Step>, actions: seq<CompletedAction>, settle: bool,
             end: Option<(BatchOutcome, Option<TechnicalError>)>)
    requires IsPlan(plan) && i < |plan| == results.Length
    requires AtGroup(plan, Outcomes(plan, replies), maxParallel, before, i, results[..], actions0, settle0)
    modifies results
    ensures i < e <= |plan|
    ensures end.None? ==> AtGroup(plan, Outcomes(plan, replies), maxParallel, log, e, results[..], actions, settle)
    ensures end.Some? ==> Reports(plan, Outcomes(plan, replies), maxParallel, log, end.value.0, end.value.1)
  {
    ghost var outcomes, was := Outcomes(plan, replies), results[..];
    var added, failed, error;
    e, added, failed, error, log := RunGroup(plan, i, replies, maxParallel, results, before);
    if error.Some? {
      var outcome := CutShort(plan, outcomes, maxParallel, log, i, e, was, results[..], actions0, added, settle0,
                              failed, error);
      return e, log, actions0, settle0, Some((outcome, error));
    }
    var settleGroup := CompletedActionsShouldSettle(added);
    GroupAdds(plan, outcomes, maxParallel, before, log, i, e, was, results[..], actions0, added, settle0, failed);
    actions, settle, end := actions0 + added, settle0 || settleGroup, None;
    if failed {
      var outcome := StopAfter(plan, e, outcomes, maxParallel, log, results, actions, settle);
      end := Some((outcome, None));
    }
  }

  // Every successful action has succeeded, also those of a batch that was cut short.
  lemma {:induction false} SuccessesSucceeded(plan: seq<PlannedCall>, outcomes: nat -> Outcome, s: nat, e: nat)
    requires s <= e <= |plan| && forall k | s <= k < e :: Fits(plan[k].call, outcomes(k))
    ensures forall i | 0 <= i < |Successes(plan, outcomes, s, e)| ::
      Successes(plan, outcomes, s, e)[i].action.status == ActionSucceeded
    decreases e - s
  {
    if s < e {
      SuccessesSucceeded(plan, outcomes, s, e - 1);
    }
  }

  lemma ActionsSucceeded(plan: seq<PlannedCall>, outcomes: nat -> Outcome, limit: int, log: seq<Step>,
                         outcome: BatchOutcome, error: Option<TechnicalError>)
    requires Reports(plan, outcomes, limit, log, outcome, error)
    ensures forall i | 0 <= i < |outcome.actions| :: outcome.actions[i].action.status == ActionSucceeded
  {
    forall k | 0 <= k < |plan|
      ensures Fits(plan[k].call, AsOutcomes(Received(log))(k))
    {
      if k in Received(log) {
        RunFits(plan, outcomes, limit, log, k);
      }
    }
    SuccessesSucceeded(plan, AsOutcomes(Received(log)), 0, |plan|);
  }

  // A technical error ends the batch exactly when some call that is submitted has one: not the order of
  // completion, not the limit and not what cancelled calls still answer decides whether there is an error.
  lemma ErrorIffReply(plan: seq<PlannedCall>, outcomes: nat -> Outcome, limit: int, log: seq<Step>,
                      outcome: BatchOutcome, error: Option<TechnicalError>)
    requires Reports(plan, outcomes, limit, log, outcome, error)
    ensures error.None? <==> forall k | 0 <= k < Stop(plan, outcomes) :: outcomes(k).Ok?
  {
    if error.None? {
      AnswersAre(plan, outcomes, limit, log, Launched(log));
    } else {
      var k := FirstErrorIsTrue(plan, outcomes, limit, log);
      assert outcomes(k).Err?;
    }
  }

  // Two runs of the same plan against the same replies agree whenever there is no technical error.
  lemma ScheduleIndependence(plan: seq<PlannedCall>, replies: nat -> Reply,
                             limit1: int, log1: seq<Step>, outcome1: BatchOutcome, error1: Option<TechnicalError>,
                             limit2: int, log2: seq<Step>, outcome2: BatchOutcome, error2: Option<TechnicalError>)
    requires Reports(plan, Outcomes(plan, replies), limit1, log1, outcome1, error1)
    requires Reports(plan, Outcomes(plan, replies), limit2, log2, outcome2, error2)
    ensures error1.None? <==> error2.None?
    ensures error1.None? ==> outcome1 == outcome2 && Launched(log1) == Launched(log2)
  {
    ErrorIffReply(plan, Outcomes(plan, replies), limit1, log1, outcome1, error1);
    ErrorIffReply(plan, Outcomes(plan, replies), limit2, log2, outcome2, error2);
  }

  // The slots that succeeded, in call order.
  function SucceededSlots(results: seq<ToolResult>): (slots: seq<nat>)
    ensures forall i | 0 <= i < |slots| :: slots[i] < |results|
  {
    if results == [] then []
    else
      var n := |results| - 1;
      SucceededSlots(results[..n]) + if results[n].status == Succeeded then [n] else []
  }

  ghost predicate ActionsOfSlots(plan: seq<PlannedCall>, replies: nat -> Reply, slots: seq<nat>,
                                 actions: seq<CompletedAction>) {
    && |actions| == |slots|
    && forall i | 0 <= i < |slots| ::
      && slots[i] < |plan|
      && actions[i].call == plan[slots[i]].call && actions[i].policy == plan[slots[i]].entry.policy
      && replies(slots[i]) == Ok(Some(actions[i].action))
  }

  lemma {:induction false} SuccessesAreSlots(plan: seq<PlannedCall>, replies: nat -> Reply, results: seq<ToolResult>,
                                             n: nat)
    requires n <= |results| && n <= |plan| && Written(results, Outcomes(plan, replies), n)
    ensures ActionsOfSlots(plan, replies, SucceededSlots(results[..n]), Successes(plan, Outcomes(plan, replies), 0, n))
  {
    if n > 0 {
      SuccessesAreSlots(plan, replies, results, n - 1);
      assert results[..n][..n - 1] == results[..n - 1];
      ResultNamesItsCall(plan[n - 1].call, replies(n - 1));
    }
  }

  lemma {:induction false} SkippedAdd(results: seq<ToolResult>, n: nat)
    requires n <= |results| && forall k | n <= k < |results| :: results[k].status != Succeeded
    ensures SucceededSlots(results) == SucceededSlots(results[..n])
    decreases |results|
  {
    if n == |results| {
      assert results[..n] == results;
    } else {
      SkippedAdd(results[..|results| - 1], n);
      assert results[..|results| - 1][..n] == results[..n];
    }
  }

  // A batch that ran without a technical error submitted the calls before Stop, all of which were answered.
  lemma RanAsPrescribed(plan: seq<PlannedCall>, outcomes: nat -> Outcome, limit: int, log: seq<Step>,
                        outcome: BatchOutcome)
    requires Reports(plan, outcomes, limit, log, outcome, None)
    ensures outcome == Prescribed(plan, outcomes) && Launched(log) == Stop(plan, outcomes) && IsAnswered(plan, outcomes)
  {
    AnswersAre(plan, outcomes, limit, log, Launched(log));
  }

  ghost predicate IsAnswered(plan: seq<PlannedCall>, outcomes: nat -> Outcome) {
    forall k | 0 <= k < Stop(plan, outcomes) :: outcomes(k).Ok?
  }

  // The shape of such a batch: the submitted calls are a prefix that ends at a group, the calls of its earlier
  // groups succeeded, the rest is skipped, and each slot names its own call.
  lemma BatchShape(plan: seq<PlannedCall>, replies: nat -> Reply)
    requires IsAnswered(plan, Outcomes(plan, replies))
    ensures var results, n := Slots(plan, Outcomes(plan, replies)), Stop(plan, Outcomes(plan, replies));
      && Boundary(plan, n)
      && (forall k | 0 <= k < n :: GroupEnd(plan, k) < n ==> results[k].status == Succeeded)
      && (forall k | n <= k < |plan| :: results[k] == SkippedResult(plan[k].call, "prior_group_failed"))
      && (forall k | 0 <= k < |plan| ::
          results[k].toolCallId == plan[k].call.id && results[k].name == plan[k].call.name)
  {
    StopIsBoundary(plan, Outcomes(plan, replies));
    NamesOfSlots(plan, replies);
  }

  // The successful actions are the succeeded slots in call order, each with the result its call got.
  lemma ActionsAreSlots(plan: seq<PlannedCall>, replies: nat -> Reply)
    requires IsAnswered(plan, Outcomes(plan, replies))
    ensures var outcome := Prescribed(plan, Outcomes(plan, replies));
      ActionsOfSlots(plan, replies, SucceededSlots(outcome.results), outcome.actions)
  {
    var outcomes := Outcomes(plan, replies);
    var results, n := Slots(plan, outcomes), Stop(plan, outcomes);
    assert Written(results, outcomes, n);
    SuccessesAreSlots(plan, replies, results, n);
    NamesOfSlots(plan, replies);
    SkippedAdd(results, n);
  }

  // The batch counts as failed exactly when some slot did not succeed.
  lemma FailedIffSlot(plan: seq<PlannedCall>, outcomes: nat -> Outcome)
    requires IsAnswered(plan, outcomes)
    ensures Prescribed(plan, outcomes).failed <==>
      exists k :: 0 <= k < |plan| && Slots(plan, outcomes)[k].status != Succeeded
  {
    var bad := FirstBad(outcomes, 0, |plan|);
    if bad < |plan| {
      assert bad < Stop(plan, outcomes);
      assert Slots(plan, outcomes)[bad].status != Succeeded;
    }
  }

  lemma NamesOfSlots(plan: seq<PlannedCall>, replies: nat -> Reply)
    requires IsAnswered(plan, Outcomes(plan, replies))
    ensures var results, n := Slots(plan, Outcomes(plan, replies)), Stop(plan, Outcomes(plan, replies));
      && (forall k | 0 <= k < |plan| ::
          results[k].toolCallId == plan[k].call.id && results[k].name == plan[k].call.name)
      && (forall k | n <= k < |plan| :: results[k].status == Skipped)
  {
    forall k | 0 <= k < Stop(plan, Outcomes(plan, replies))
      ensures var r := Slots(plan, Outcomes(plan, replies))[k];
        r.toolCallId == plan[k].call.id && r.name == plan[k].call.name
    {
      ResultNamesItsCall(plan[k].call, replies(k));
    }
  }
}

/**
 One turn of the agent loop (runtime/internal/agent/loop.go): observe, then up to a number of steps in each
 of which a request is built, the model is asked, and its batch of tool calls is run.

 What the environment, the model, the context engine and the memory store answer is arbitrary.
 */
module Loop {
  import opened Common
  import opened Text
  import opened Messages
  import opened Transcript
  import opened BatchProtocol
  import opened Scheduler
  import opened Batch

  datatype Config = Config(maxSteps: int, maxToolCallsPerStep: int, maxToolCallsPerTurn: int,
                           maxAsyncActionsPerTurn: int, memoryEnabled: bool)

  datatype Control = Unspecified | Settle | Continue

  datatype Decision = Decision(control: Control, toolCalls: seq<ToolCall>)

  datatype TurnError = ContextFailed | ProviderFailed | InvalidModelResponse | TooManyCallsPerStep | TooManyCallsPerTurn
                     | BatchFailed(cause: TechnicalError) | ObservationFailed | MaxStepsExceeded | InvalidTarget

  datatype Completion = TurnCompleted | TurnFailed

  datatype MemoryRecord = MemoryRecord(outcomes: seq<CompletedAction>, withContextFacts: bool)

  datatype Step = Step(index: nat, transcript: seq<Message>)

  // What the turn meets: answers may depend on the step and on the transcript that was sent.
  datatype World = World(
    worldId: string,
    entityId: string,
    target: Option<string>,
    hasCatalog: bool,
    observes: bool,
    builds: Step -> bool,
    model: Step -> Option<Decision>,
    tools: Toolbox,
    environment: Step -> Environment,
    resumes: Step -> bool,
    hasContextFacts: bool,
    projects: seq<CompletedAction> -> bool,
    appends: MemoryRecord -> bool)

  // A turn needs the ids of its agent, a target that is that agent, and the tools of the environment.
  predicate IsValid(w: World) {
    && w.worldId != "" && w.entityId != "" && w.hasCatalog
    && w.target.Some? && TrimSpace(w.target.value) == w.entityId
  }

  /* ---- Tool-call ids ---- */

  // The ids that are not blank, trimmed, with their number.
  function IdsOf(calls: seq<ToolCall>): multiset<string> {
    if calls == [] then multiset{}
    else
      var id := TrimSpace(calls[|calls| - 1].id);
      IdsOf(calls[..|calls| - 1]) + if id == "" then multiset{} else multiset{id}
  }

  lemma {:induction false} IdsOfCount(calls: seq<ToolCall>, id: string)
    ensures IdsOf(calls)[id] == if id == "" then 0 else CountId(calls, id)
  {
    if calls != [] {
      IdsOfCount(calls[..|calls| - 1], id);
    }
  }

  lemma {:induction false} CountPrefix(calls: seq<ToolCall>, n: nat, id: string)
    requires n <= |calls|
    ensures CountId(calls[..n], id) <= CountId(calls, id)
    decreases |calls|
  {
    if n == |calls| {
      assert calls[..n] == calls;
    } else {
      CountPrefix(calls[..|calls| - 1], n, id);
      assert calls[..|calls| - 1][..n] == calls[..n];
    }
  }

  lemma AdmissibleHasNoTwin(t: Toolbox, calls: seq<ToolCall>, i: nat)
    requires Admissible(t, calls) && i < |calls|
    ensures !HasTwin(calls, i)
  {
    assert Fault(t, calls, i).None?;
  }

  // A batch that passes preflight has no id twice.
  lemma AdmissibleIds(t: Toolbox, calls: seq<ToolCall>, n: nat, id: string)
    requires Admissible(t, calls) && n <= |calls|
    ensures IdsOf(calls[..n])[id] <= 1
  {
    IdsOfCount(calls[..n], id);
    CountPrefix(calls, n, id);
    if id != "" && CountId(calls, id) > 1 {
      CountIsPositive(calls, id);
      var i :| 0 <= i < |calls| && TrimSpace(calls[i].id) == id;
      AdmissibleHasNoTwin(t, calls, i);
    }
  }

  // No id is submitted twice, and every id that was submitted is remembered.
  ghost predicate OncePerTurn(submitted: multiset<string>, seen: set<string>) {
    forall id :: submitted[id] <= 1 && (submitted[id] > 0 ==> id in seen && id != "")
  }

  ghost predicate Remembers(calls: seq<ToolCall>, before: set<string>, after: set<string>) {
    forall id :: id in after <==> id in before || (id != "" && CountId(calls, id) > 0)
  }

  predicate SeenBefore(calls: seq<ToolCall>, seen: set<string>) {
    exists i :: 0 <= i < |calls| && TrimSpace(calls[i].id) != "" && TrimSpace(calls[i].id) in seen
  }

  lemma SubmitOnce(t: Toolbox, calls: seq<ToolCall>, n: nat, submitted: multiset<string>, before: set<string>,
                   after: set<string>)
    requires OncePerTurn(submitted, before) && Remembers(calls, before, after) && !SeenBefore(calls, before)
    requires n <= |calls| && (n > 0 ==> Admissible(t, calls))
    ensures OncePerTurn(submitted + IdsOf(calls[..n]), after)
  {
    forall id
      ensures (submitted + IdsOf(calls[..n]))[id] <= 1
      ensures (submitted + IdsOf(calls[..n]))[id] > 0 ==> id in after && id != ""
    {
      IdsOfCount(calls[..n], id);
      CountPrefix(calls, n, id);
      if n > 0 {
        AdmissibleIds(t, calls, n, id);
      }
      if id != "" && CountId(calls, id) > 0 {
        CountIsPositive(calls, id);
        var i :| 0 <= i < |calls| && TrimSpace(calls[i].id) == id;
        assert id !in before;
      }
    }
  }

  /* ---- The transcript ---- */

  datatype Round = Round(calls: seq<ToolCall>, results: seq<ToolResult>)

  // Every call of the round has the result in its place.
  ghost predicate Paired(r: Round) {
    r.calls != [] && |r.results| == |r.calls| && forall i | 0 <= i < |r.calls| ::
        r.results[i].toolCallId == r.calls[i].id
  }

  function RoundGroup(r: Round): Group {
    [Message(Assistant, "", r.calls, []), Message(Tool, "", [], r.results)]
  }

  function RoundGroups(rounds: seq<Round>): (gs: seq<Group>)
    ensures |gs| == |rounds|
  {
    seq(|rounds|, i requires 0 <= i < |rounds| => RoundGroup(rounds[i]))
  }

  function TranscriptOf(rounds: seq<Round>): seq<Message> {
    Flatten(RoundGroups(rounds))
  }

  lemma TranscriptNext(rounds: seq<Round>, r: Round)
    ensures TranscriptOf(rounds + [r]) == TranscriptOf(rounds) + RoundGroup(r)
  {
    assert RoundGroups(rounds + [r]) == RoundGroups(rounds) + [RoundGroup(r)];
    FlattenOfJoin(RoundGroups(rounds), [RoundGroup(r)]);
    assert Flatten([RoundGroup(r)]) == RoundGroup(r) + Flatten([]);
  }

  lemma RoundIsGroup(r: Round)
    requires Paired(r)
    ensures IsGroup(RoundGroup(r)) <==> DistinctIds(CallIds(r.calls))
    ensures IsGroup(RoundGroup(r)) <==> Answers(r.calls, r.results)
  {
    assert CallIds(r.calls) == ResultIds(r.results);
  }

  // The engine accepts the transcript exactly when within every batch the ids are present and distinct.
  lemma {:induction false} AcceptedIffDistinct(rounds: seq<Round>)
    requires forall r | r in rounds :: Paired(r)
    ensures Grouping(TranscriptOf(rounds)).Ok? <==> forall r | r in rounds :: DistinctIds(CallIds(r.calls))
  {
    if rounds != [] {
      var r, rest := rounds[0], rounds[1..];
      AcceptedIffDistinct(rest);
      RoundIsGroup(r);
      assert RoundGroups(rounds)[1..] == RoundGroups(rest);
      var ms := TranscriptOf(rounds);
      assert ms == RoundGroup(r) + TranscriptOf(rest);
      assert ms[0].toolCalls == r.calls && ms[1] == RoundGroup(r)[1] && ms[2..] == TranscriptOf(rest);
      assert forall x :: x in rounds <==> x == r || x in rest;
    }
  }

  // A batch with a blank id can pass every check; whatever its results, the transcript with it is refused.
  lemma BlankIdIsRunAndRefused(t: Toolbox, results: seq<ToolResult>)
    requires t.lookup("x").Some? && !(t.lookup("x").value.execution == Async && t.asyncLimitFull)
    requires t.argumentsFit("x", map[]) && t.requestFits(ToolCall("", "x", Some(map[])))
    requires Paired(Round([ToolCall("", "x", Some(map[]))], results))
    ensures Admissible(t, [ToolCall("", "x", Some(map[]))])
    ensures Grouping(TranscriptOf([Round([ToolCall("", "x", Some(map[]))], results)])).Err?
  {
    var calls := [ToolCall("", "x", Some(map[]))];
    assert Fault(t, calls, 0).None?;
    assert !DistinctIds(CallIds(calls)) by {
      assert CallIds(calls)[0] == "";
    }
    AcceptedIffDistinct([Round(calls, results)]);
    assert Round(calls, results) in [Round(calls, results)];
  }

  /* ---- The turn ---- */

  // What the environment got from a batch that was run.
  ghost predicate RanWell(run: BatchRun) {
    run.error.None? && !run.outcome.failed && !run.outcome.asyncStarted
  }

  // A batch that was run: where, whether asynchronous actions were used up, and what it came to.
  datatype Ran = Ran(at: Step, asyncLimitFull: bool, calls: seq<ToolCall>, run: BatchRun)

  // It is what the scheduler reports for these calls against the tools and the environment of that step.
  ghost predicate IsReport(w: World, r: Ran) {
    BatchReports(w.tools.(asyncLimitFull := r.asyncLimitFull), r.calls, w.environment(r.at), r.run)
  }

  ghost predicate AreReports(w: World, runs: seq<Ran>) {
    forall r | r in runs :: IsReport(w, r)
  }

  // The successful actions of the batches, in order.
  function ActionsOfRuns(runs: seq<Ran>): seq<CompletedAction> {
    if runs == [] then [] else ActionsOfRuns(runs[..|runs| - 1]) + runs[|runs| - 1].run.outcome.actions
  }

  // The ids of the calls that reached the environment, with their number.
  function SubmittedIds(r: Ran): multiset<string> {
    if Submitted(r.run) <= |r.calls| then IdsOf(r.calls[..Submitted(r.run)]) else multiset{}
  }

  function IdsOfRuns(runs: seq<Ran>): multiset<string> {
    if runs == [] then multiset{} else IdsOfRuns(runs[..|runs| - 1]) + SubmittedIds(runs[|runs| - 1])
  }

  // How many asynchronous calls were started.
  function StartsOfRuns(runs: seq<Ran>): nat {
    if runs == [] then 0 else StartsOfRuns(runs[..|runs| - 1]) + if runs[|runs| - 1].run.started then 1 else 0
  }

  lemma RunsNext(runs: seq<Ran>, r: Ran)
    ensures ActionsOfRuns(runs + [r]) == ActionsOfRuns(runs) + r.run.outcome.actions
    ensures IdsOfRuns(runs + [r]) == IdsOfRuns(runs) + SubmittedIds(r)
    ensures StartsOfRuns(runs + [r]) == StartsOfRuns(runs) + if r.run.started then 1 else 0
  {
    assert (runs + [r])[..|runs|] == runs;
  }

  ghost predicate AllSucceeded(actions: seq<CompletedAction>) {
    forall i | 0 <= i < |actions| :: actions[i].action.status == ActionSucceeded
  }

  function AtLeastZero(n: int): nat {
    if n < 0 then 0 else n
  }

  // The record of a turn: its successful actions and, only when the turn settled, the facts of its event.
  function Recorded(config: Config, world: World, actions: seq<CompletedAction>, settled: bool): seq<MemoryRecord> {
    var record := MemoryRecord(actions, settled && world.hasContextFacts);
    if config.memoryEnabled && (actions != [] || record.withContextFacts) && world.projects(actions) &&
        world.appends(record)
    then [record] else []
  }

  // A settled turn is recorded with its facts, a failed batch without them; a failed observation is recorded
  // exactly when it follows a batch; any other error leaves no record.
  ghost predicate MemoryFits(config: Config, world: World, actions: seq<CompletedAction>, runs: seq<Ran>,
                             error: Option<TurnError>, memory: seq<MemoryRecord>) {
    match error
    case None => memory == Recorded(config, world, actions, true)
    case Some(BatchFailed(_)) => memory == Recorded(config, world, actions, false)
    case Some(ObservationFailed) => memory == if runs == [] then [] else Recorded(config, world, actions, false)
    case Some(_) => memory == []
  }

  // A batch has just been run when the turn ends with this error, unless it is the first observation that failed.
  predicate FollowsBatch(error: TurnError) {
    error.BatchFailed? || error.ObservationFailed?
  }

  lemma SubmitNothing(calls: seq<ToolCall>, submitted: multiset<string>, before: set<string>, after: set<string>)
    requires OncePerTurn(submitted, before) && Remembers(calls, before, after)
    ensures OncePerTurn(submitted, after)
  {
  }

  lemma RunSucceeded(t: Toolbox, calls: seq<ToolCall>, env: Environment, run: BatchRun)
    requires BatchReports(t, calls, env, run)
    ensures AllSucceeded(run.outcome.actions)
  {
    if Admissible(t, calls) && !RunsAlone(PlanOf(t, calls)) {
      var plan := PlanOf(t, calls);
      ActionsSucceeded(plan, Outcomes(plan, env.replies), t.maxParallel, run.log, run.outcome, run.error);
    }
  }

  // What the turn relies on: the ids stay once per turn, an asynchronous call was allowed, the slots pair up.
  ghost predicate BatchFits(calls: seq<ToolCall>, run: BatchRun, submitted: multiset<string>, seen: set<string>,
                            asyncLimitFull: bool) {
    && Submitted(run) <= |calls| && OncePerTurn(submitted + IdsOf(calls[..Submitted(run)]), seen)
    && !(run.started && asyncLimitFull)
    && (run.error.None? ==> run.outcome.asyncStarted == run.started && Paired(Round(calls, run.outcome.results)))
    && AllSucceeded(run.outcome.actions)
  }

  lemma BatchFitsTurn(t: Toolbox, calls: seq<ToolCall>, env: Environment, run: BatchRun,
                      submitted: multiset<string>, before: set<string>, after: set<string>)
    requires BatchReports(t, calls, env, run) && calls != []
    requires OncePerTurn(submitted, before) && Remembers(calls, before, after) && !SeenBefore(calls, before)
    ensures BatchFits(calls, run, submitted, after, t.asyncLimitFull)
  {
    BatchResults(t, calls, env, run);
    StartsWithinLimit(t, calls, env, run);
    SubmitOnce(t, calls, Submitted(run), submitted, before, after);
    RunSucceeded(t, calls, env, run);
  }

  function TotalCalls(batches: seq<seq<ToolCall>>): nat {
    if batches == [] then 0 else TotalCalls(batches[..|batches| - 1]) + |batches[|batches| - 1]|
  }

  /* ---- What a turn keeps ---- */

  // The calls of the batches accepted for processing are counted and within the limits.
  ghost predicate CallsFit(config: Config, accepted: seq<seq<ToolCall>>, total: nat) {
    && total == TotalCalls(accepted) <= AtLeastZero(config.maxToolCallsPerTurn)
    && forall calls | calls in accepted :: |calls| <= config.maxToolCallsPerStep
  }

  // The actions started are those of the batches, within the limit.
  predicate StartsFit(config: Config, startActions: nat, runs: seq<Ran>) {
    startActions == StartsOfRuns(runs) <= AtLeastZero(config.maxAsyncActionsPerTurn)
  }

  // The successful actions are those of the batches that were run.
  ghost predicate ActionsFit(actions: seq<CompletedAction>, runs: seq<Ran>) {
    actions == ActionsOfRuns(runs) && AllSucceeded(actions)
  }

  ghost predicate TranscriptFits(transcript: seq<Message>, rounds: seq<Round>) {
    transcript == TranscriptOf(rounds) && forall r | r in rounds :: Paired(r)
  }

  // The books of a turn are in order: what was run are reports of the scheduler, and what is counted, submitted
  // and successful is what they say.
  ghost predicate InOrder(config: Config, w: World, accepted: seq<seq<ToolCall>>, total: nat, startActions: nat,
                          seen: set<string>, actions: seq<CompletedAction>, runs: seq<Ran>)
  {
    && CallsFit(config, accepted, total) && StartsFit(config, startActions, runs)
    && OncePerTurn(IdsOfRuns(runs), seen) && ActionsFit(actions, runs) && AreReports(w, runs)
  }

  lemma AcceptCalls(config: Config, accepted: seq<seq<ToolCall>>, total: nat, calls: seq<ToolCall>)
    requires CallsFit(config, accepted, total)
    requires |calls| <= config.maxToolCallsPerStep && total + |calls| <= config.maxToolCallsPerTurn
    ensures CallsFit(config, accepted + [calls], total + |calls|)
  {
  }

  // The entry is a report of the scheduler and fits what the turn has done so far.
  ghost predicate MayEnter(config: Config, w: World, startActions: nat, seen: set<string>, runs: seq<Ran>, r: Ran) {
    && IsReport(w, r) && BatchFits(r.calls, r.run, IdsOfRuns(runs), seen, r.asyncLimitFull)
    && r.asyncLimitFull == (startActions >= config.maxAsyncActionsPerTurn)
  }

  lemma InOrderNext(config: Config, w: World, accepted: seq<seq<ToolCall>>, total: nat, startActions: nat,
                    seen: set<string>, actions: seq<CompletedAction>, runs: seq<Ran>, r: Ran)
    requires InOrder(config, w, accepted, total, startActions, seen, actions, runs)
    requires MayEnter(config, w, startActions, seen, runs, r)
    ensures InOrder(config, w, accepted, total, startActions + if r.run.started then 1 else 0, seen,
                    actions + r.run.outcome.actions, runs + [r])
  {
    RunsNext(runs, r);
  }

  /* ---- What a step does ---- */

  // The decision of the model, or why there is none to act on.
  function DecisionOf(w: World, s: Step): Result<Decision, TurnError> {
    if Grouping(s.transcript).Err? || !w.builds(s) then Err(ContextFailed)
    else if w.model(s).None? then Err(ProviderFailed)
    else if w.model(s).value.control == Unspecified then Err(InvalidModelResponse)
    else Ok(w.model(s).value)
  }

  // Why a decision is not accepted: a decision without calls must settle, and batches are limited.
  function Refusal(config: Config, total: nat, d: Decision): Option<TurnError> {
    if d.toolCalls == [] then (if d.control == Settle then None else Some(InvalidModelResponse))
    else if |d.toolCalls| > config.maxToolCallsPerStep then Some(TooManyCallsPerStep)
    else if total + |d.toolCalls| > config.maxToolCallsPerTurn then Some(TooManyCallsPerTurn)
    else None
  }

  // The results of a batch that reuses ids.
  function RepeatedResults(calls: seq<ToolCall>, seen: set<string>): (results: seq<ToolResult>)
    ensures |results| == |calls|
  {
    seq(|calls|, i requires 0 <= i < |calls| => RepeatedResult(calls[i], seen))
  }

  function RepeatedResult(call: ToolCall, seen: set<string>): ToolResult {
    if TrimSpace(call.id) != "" && TrimSpace(call.id) in seen then InvalidResult(call, "duplicate_tool_call_id")
    else SkippedResult(call, "batch_validation_failed")
  }

  // How a batch that was run ends the turn, if it does.
  ghost function EndAfter(run: BatchRun, control: Control, resumes: bool): Option<Option<TurnError>> {
    if run.error.Some? then Some(Some(BatchFailed(run.error.value)))
    else if run.outcome.asyncStarted && !resumes then Some(Some(ObservationFailed))
    else if RanWell(run) && (control == Settle || run.outcome.settle) then Some(None)
    else None
  }

  // What a step reads and adds to.
  datatype Books = Books(total: nat, seen: set<string>, transcript: seq<Message>, accepted: seq<seq<ToolCall>>,
                         runs: seq<Ran>, rounds: seq<Round>, lastRun: Option<BatchRun>)

  // Those of a turn that has done nothing yet.
  const FRESH := Books(0, {}, [], [], [], [], None)

  ghost predicate NothingRan(before: Books, after: Books) {
    after == before.(lastRun := after.lastRun)
  }

  // The entry for a batch: it is run at this step, and may start an asynchronous action while there is one left.
  function Entered(config: Config, step: nat, calls: seq<ToolCall>, before: Books, run: BatchRun): Ran {
    Ran(Step(step, before.transcript), StartsOfRuns(before.runs) >= config.maxAsyncActionsPerTurn, calls, run)
  }

  // A batch that was run is the last run, and its results, if it has any, are the last round.
  ghost predicate BatchEnds(config: Config, w: World, step: nat, calls: seq<ToolCall>, control: Control,
                            before: Books, after: Books, end: Option<Option<TurnError>>) {
    && after.lastRun.Some? && after.runs == before.runs + [Entered(config, step, calls, before, after.lastRun.value)]
    && after.rounds == (if after.lastRun.value.error.None?
                        then before.rounds + [Round(calls, after.lastRun.value.outcome.results)] else before.rounds)
    && end == EndAfter(after.lastRun.value, control, w.resumes(Step(step, after.transcript)))
  }

  // A batch that reuses an id of an earlier step is answered without being run.
  ghost predicate CheckEnds(config: Config, w: World, step: nat, calls: seq<ToolCall>, control: Control,
                            before: Books, after: Books, end: Option<Option<TurnError>>) {
    && Remembers(calls, before.seen, after.seen)
    && if SeenBefore(calls, before.seen) then
         && end == None && after.runs == before.runs
         && after.rounds == before.rounds + [Round(calls, RepeatedResults(calls, before.seen))]
       else BatchEnds(config, w, step, calls, control, before, after, end)
  }

  ghost predicate ActEnds(config: Config, w: World, step: nat, d: Decision, before: Books, after: Books,
                          end: Option<Option<TurnError>>) {
    var refusal := Refusal(config, before.total, d);
    if refusal.Some? then end == Some(refusal) && NothingRan(before, after)
    else if d.toolCalls == [] then end == Some(None) && NothingRan(before, after)
    else
      && after.accepted == before.accepted + [d.toolCalls] && after.total == before.total + |d.toolCalls|
      && CheckEnds(config, w, step, d.toolCalls, d.control, before, after, end)
  }

  ghost predicate StepEnds(config: Config, w: World, step: nat, before: Books, after: Books,
                           end: Option<Option<TurnError>>) {
    var d := DecisionOf(w, Step(step, before.transcript));
    if d.Err? then end == Some(Some(d.error)) && NothingRan(before, after)
    else ActEnds(config, w, step, d.value, before, after, end)
  }

  /* ---- Turns of a model that gives its calls ids ---- */

  // Within every batch the model gives each call an id of its own.
  ghost predicate GivesIds(w: World) {
    forall s | w.model(s).Some? :: DistinctIds(CallIds(w.model(s).value.toolCalls))
  }

  function CallsOf(rounds: seq<Round>): (batches: seq<seq<ToolCall>>)
    ensures |batches| == |rounds|
  {
    seq(|rounds|, i requires 0 <= i < |rounds| => rounds[i].calls)
  }

  ghost predicate AllDistinct(rounds: seq<Round>) {
    forall r | r in rounds :: DistinctIds(CallIds(r.calls))
  }

  // The rounds are the accepted batches; only the last one may have ended the turn without results.
  ghost predicate RoundsAreAccepted(b: Books) {
    CallsOf(b.rounds) == b.accepted
    || (b.accepted != [] && CallsOf(b.rounds) == b.accepted[..|b.accepted| - 1])
  }

  lemma StepKeepsRounds(config: Config, w: World, step: nat, before: Books, after: Books,
                        end: Option<Option<TurnError>>)
    requires StepEnds(config, w, step, before, after, end) && CallsOf(before.rounds) == before.accepted
    ensures RoundsAreAccepted(after) && (end.None? ==> CallsOf(after.rounds) == after.accepted)
    ensures GivesIds(w) && AllDistinct(before.rounds) ==> AllDistinct(after.rounds)
  {
    var d := DecisionOf(w, Step(step, before.transcript));
    if d.Ok? && after.rounds != before.rounds {
      assert after.rounds == before.rounds + [after.rounds[|after.rounds| - 1]];
      assert after.rounds[|after.rounds| - 1].calls == d.value.toolCalls;
      assert CallsOf(after.rounds) == CallsOf(before.rounds) + [d.value.toolCalls];
    }
  }

  lemma EndsRun(config: Config, w: World, step: nat, calls: seq<ToolCall>, control: Control, before: Books,
                after: Books, run: BatchRun, end: Option<Option<TurnError>>)
    requires after.lastRun == Some(run) && after.runs == before.runs + [Entered(config, step, calls, before, run)]
    requires after.rounds == (if run.error.None? then before.rounds + [Round(calls, run.outcome.results)]
                              else before.rounds)
    requires end == EndAfter(run, control, w.resumes(Step(step, after.transcript)))
    ensures BatchEnds(config, w, step, calls, control, before, after, end)
  {
  }

  // A step starts by forgetting the batch of the step before.
  lemma EndsFrom(config: Config, w: World, step: nat, before: Books, decided: Books, after: Books,
                 end: Option<Option<TurnError>>)
    requires decided == before.(lastRun := None) && StepEnds(config, w, step, decided, after, end)
    ensures StepEnds(config, w, step, before, after, end)
  {
  }

  lemma ContextFails(config: Config, w: World, step: nat, before: Books, after: Books, end: Option<Option<TurnError>>)
    requires StepEnds(config, w, step, before, after, end)
    ensures end == Some(Some(ContextFailed)) <==> DecisionOf(w, Step(step, before.transcript)) == Err(ContextFailed)
  {
  }

  lemma EndsUnaccepted(config: Config, w: World, step: nat, d: Decision, before: Books, after: Books)
    requires NothingRan(before, after) && (Refusal(config, before.total, d).Some? || d.toolCalls == [])
    ensures ActEnds(config, w, step, d, before, after, Some(Refusal(config, before.total, d)))
  {
  }

  // The decision is judged, and a batch that is accepted is counted; nothing else has happened.
  ghost predicate TakenUp(config: Config, d: Decision, refused: Option<TurnError>, before: Books, now: Books) {
    && refused == Refusal(config, before.total, d)
    && now == before.(total := now.total, accepted := now.accepted)
    && (if refused.None? && d.toolCalls != []
        then now.accepted == before.accepted + [d.toolCalls] && now.total == before.total + |d.toolCalls|
        else now == before)
  }

  lemma EndsAccepted(config: Config, w: World, step: nat, d: Decision, refused: Option<TurnError>, before: Books,
                     now: Books, after: Books, end: Option<Option<TurnError>>)
    requires TakenUp(config, d, refused, before, now) && refused.None? && d.toolCalls != []
    requires CheckEnds(config, w, step, d.toolCalls, d.control, now, after, end)
    requires after.accepted == now.accepted && after.total == now.total
    ensures ActEnds(config, w, step, d, before, after, end)
  {
  }

  // The ids of the batch are remembered; nothing else has happened.
  ghost predicate Remembered(calls: seq<ToolCall>, before: Books, now: Books) {
    now == before.(seen := now.seen) && Remembers(calls, before.seen, now.seen)
  }

  lemma EndsFresh(config: Config, w: World, step: nat, calls: seq<ToolCall>, control: Control, before: Books,
                  now: Books, after: Books, end: Option<Option<TurnError>>)
    requires Remembered(calls, before, now) && !SeenBefore(calls, before.seen)
    requires BatchEnds(config, w, step, calls, control, now, after, end) && after.seen == now.seen
    ensures CheckEnds(config, w, step, calls, control, before, after, end)
  {
  }

  // Steps after each of which the turn goes on: stage i is what the turn has before step i + 1.
  ghost predicate GoesOn(config: Config, w: World, stages: seq<Books>) {
    && stages != [] && (forall i | 0 <= i < |stages| :: TranscriptFits(stages[i].transcript, stages[i].rounds))
    && forall i | 0 <= i < |stages| - 1 :: StepEnds(config, w, i + 1, stages[i], stages[i + 1], None)
  }

  // The steps of a turn: the last one ended it with this error, or all the steps there may be were taken.
  ghost predicate EndsTurn(config: Config, w: World, stages: seq<Books>, error: Option<TurnError>) {
    var n := |stages| - 1;
    if error == Some(MaxStepsExceeded) then GoesOn(config, w, stages) && n == AtLeastZero(config.maxSteps)
    else
      && 0 < n <= AtLeastZero(config.maxSteps) && GoesOn(config, w, stages[..n])
      && StepEnds(config, w, n, stages[n - 1], stages[n], Some(error))
  }

  lemma GoesOnNext(config: Config, w: World, stages: seq<Books>, after: Books)
    requires GoesOn(config, w, stages) && TranscriptFits(after.transcript, after.rounds)
    requires StepEnds(config, w, |stages|, stages[|stages| - 1], after, None)
    ensures GoesOn(config, w, stages + [after])
  {
    var next := stages + [after];
    assert forall i | 0 <= i < |stages| :: next[i] == stages[i];
  }

  lemma TurnEndsHere(config: Config, w: World, stages: seq<Books>, after: Books, error: Option<TurnError>)
    requires GoesOn(config, w, stages) && |stages| <= AtLeastZero(config.maxSteps)
    requires StepEnds(config, w, |stages|, stages[|stages| - 1], after, Some(error))
    ensures EndsTurn(config, w, stages + [after], error) && error != Some(MaxStepsExceeded)
  {
    assert (stages + [after])[..|stages|] == stages;
  }

  // Between steps every accepted batch is a round, and has ids if the model gives them.
  ghost predicate RoundsKept(w: World, b: Books) {
    CallsOf(b.rounds) == b.accepted && (GivesIds(w) ==> AllDistinct(b.rounds))
  }

  // With a model that gives its calls ids no transcript is refused by the engine: where the context failed, the
  // transcript parses and the request itself could not be built.
  ghost predicate EngineParses(w: World, b: Books, modelCalls: nat, error: Option<TurnError>) {
    && RoundsAreAccepted(b)
    && (GivesIds(w) ==> AllDistinct(b.rounds))
    && (GivesIds(w) && error == Some(ContextFailed) ==>
        Grouping(b.transcript).Ok? && !w.builds(Step(modelCalls + 1, b.transcript)))
  }

  lemma StepParses(config: Config, w: World, step: nat, before: Books, after: Books, end: Option<Option<TurnError>>,
                   modelCalls: nat)
    requires StepEnds(config, w, step, before, after, end) && RoundsKept(w, before)
    requires TranscriptFits(before.transcript, before.rounds)
    requires end == Some(Some(ContextFailed)) ==> modelCalls + 1 == step
    ensures end.None? ==> RoundsKept(w, after)
    ensures end.Some? ==> EngineParses(w, after, modelCalls, end.value)
  {
    StepKeepsRounds(config, w, step, before, after, end);
    AcceptedIffDistinct(before.rounds);
  }

  // The steps of a turn so far, from its first.
  ghost predicate GoingOn(config: Config, w: World, stages: seq<Books>, now: Books) {
    && GoesOn(config, w, stages) && stages[0] == FRESH && stages[|stages| - 1] == now && RoundsKept(w, now)
  }

  lemma AllStepsTaken(config: Config, w: World, stages: seq<Books>, now: Books)
    requires GoingOn(config, w, stages, now) && |stages| - 1 == AtLeastZero(config.maxSteps)
    ensures TurnTold(config, w, stages, now, Some(MaxStepsExceeded), |stages| - 1)
    ensures EngineParses(w, now, |stages| - 1, Some(MaxStepsExceeded))
  {
  }

  // What is known after one more step.
  ghost predicate StepTold(config: Config, w: World, stages: seq<Books>, after: Books,
                           end: Option<Option<TurnError>>, modelCalls: nat) {
    match end
    case None => GoingOn(config, w, stages + [after], after) && modelCalls == |stages|
    case Some(error) =>
      && EngineParses(w, after, modelCalls, error)
      && error != Some(MaxStepsExceeded) && TurnTold(config, w, stages + [after], after, error, modelCalls)
  }

  // The steps that a turn took, from its first to its last, and how often it asked the model.
  ghost predicate TurnTold(config: Config, w: World, stages: seq<Books>, last: Books, error: Option<TurnError>,
                           modelCalls: nat) {
    && EndsTurn(config, w, stages, error) && stages[0] == FRESH && stages[|stages| - 1] == last
    && modelCalls == |stages| - 1 - if error == Some(ContextFailed) then 1 else 0
  }

  lemma StepTells(config: Config, w: World, stages: seq<Books>, after: Books, end: Option<Option<TurnError>>,
                  modelCalls: nat)
    requires stages != [] && GoingOn(config, w, stages, stages[|stages| - 1])
    requires |stages| <= AtLeastZero(config.maxSteps)
    requires StepEnds(config, w, |stages|, stages[|stages| - 1], after, end)
    requires modelCalls == |stages| - if end == Some(Some(ContextFailed)) then 1 else 0
    requires end.None? ==> TranscriptFits(after.transcript, after.rounds)
    ensures StepTold(config, w, stages, after, end, modelCalls)
  {
    StepParses(config, w, |stages|, stages[|stages| - 1], after, end, modelCalls);
    if end.Some? {
      TurnEndsHere(config, w, stages, after, end.value);
    } else {
      GoesOnNext(config, w, stages, after);
    }
  }

  class Turn {
    const config: Config
    const world: World

    // The local state of the steps.
    var transcript: seq<Message>
    var successfulActions: seq<CompletedAction>
    var totalToolCalls: nat
    var asyncActionsStarted: nat
    var seenToolCallIds: set<string>

    // What the turn has done to the world.
    var modelCalls: nat
    var startActions: nat
    var completions: seq<Completion>
    var memory: seq<MemoryRecord>

    // The history of the turn: batches accepted for processing, batches answered, batches run.
    ghost var accepted: seq<seq<ToolCall>>
    ghost var rounds: seq<Round>
    ghost var runs: seq<Ran>
    ghost var lastRun: Option<BatchRun>

    constructor (config: Config, world: World)
      ensures this.config == config && this.world == world
      ensures Open() && modelCalls == 0 && BooksNow() == FRESH
    {
      this.config, this.world := config, world;
      transcript, successfulActions, totalToolCalls, asyncActionsStarted, seenToolCallIds := [], [], 0, 0, {};
      modelCalls, startActions, completions, memory := 0, 0, [], [];
      accepted, rounds, runs, lastRun := [], [], [], None;
    }

    ghost function BooksNow(): Books
      reads this`totalToolCalls, this`seenToolCallIds, this`transcript, this`accepted, this`runs, this`rounds,
            this`lastRun
    {
      Books(totalToolCalls, seenToolCallIds, transcript, accepted, runs, rounds, lastRun)
    }

    // Between two steps: the turn goes on.
    ghost predicate Open()
      reads this
    {
      && InOrder(config, world, accepted, totalToolCalls, startActions, seenToolCallIds, successfulActions, runs)
      && TranscriptFits(transcript, rounds)
      && startActions == asyncActionsStarted && completions == [] && memory == []
    }

    // The turn has ended, with one completion; memory got the successful actions at most once.
    ghost predicate Closed(error: Option<TurnError>)
      reads this
    {
      && InOrder(config, world, accepted, totalToolCalls, startActions, seenToolCallIds, successfulActions, runs)
      && completions == [if error.None? then TurnCompleted else TurnFailed]
      && MemoryFits(config, world, successfulActions, runs, error, memory) && TranscriptFits(transcript, rounds)
      && (error.None? ==> lastRun.None? || RanWell(lastRun.value))
    }

    method ValidateToolCallIDsAcrossSteps(calls: seq<ToolCall>) returns (results: seq<ToolResult>, failed: bool)
      ensures failed <==> SeenBefore(calls, seenToolCallIds)
      ensures failed ==> results == RepeatedResults(calls, seenToolCallIds)
    {
      results, failed := [], false;
      for i := 0 to |calls|
        invariant |results| == i
        invariant forall k | 0 <= k < i :: results[k] == RepeatedResult(calls[k], seenToolCallIds)
        invariant failed <==>
          exists k :: 0 <= k < i && TrimSpace(calls[k].id) != "" && TrimSpace(calls[k].id) in seenToolCallIds
      {
        var id := TrimSpace(calls[i].id);
        if id != "" && id in seenToolCallIds {
          results := results + [InvalidResult(calls[i], "duplicate_tool_call_id")];
          failed := true;
        } else {
          results := results + [SkippedResult(calls[i], "batch_validation_failed")];
        }
      }
    }

    method RememberToolCallIDs(calls: seq<ToolCall>)
      modifies this`seenToolCallIds
      ensures Remembers(calls, old(seenToolCallIds), seenToolCallIds)
    {
      for i := 0 to |calls|
        invariant Remembers(calls[..i], old(seenToolCallIds), seenToolCallIds)
      {
        var id := TrimSpace(calls[i].id);
        assert calls[..i + 1][..i] == calls[..i];
        if id != "" {
          seenToolCallIds := seenToolCallIds + {id};
        }
      }
      assert calls[..|calls|] == calls;
    }

    // Appends a record of the successful actions; failures on the way leave memory as it was.
    method UpdateMemory(settled: bool)
      requires AllSucceeded(successfulActions) && memory == []
      modifies this`memory
      ensures memory == Recorded(config, world, successfulActions, settled)
    {
      if !config.memoryEnabled {
        return;
      }
      var outcomes: seq<CompletedAction> := [];
      for i := 0 to |successfulActions|
        invariant outcomes == successfulActions[..i]
      {
        if successfulActions[i].action.status == ActionSucceeded {
          outcomes := outcomes + [successfulActions[i]];
        }
      }
      assert outcomes == successfulActions;
      if outcomes == [] && !(settled && world.hasContextFacts) {
        return;
      }
      var record := MemoryRecord(outcomes, settled && world.hasContextFacts);
      if world.projects(outcomes) && world.appends(record) {
        memory := memory + [record];
      }
    }

    method SendTurnCompletion(completion: Completion)
      modifies this`completions
      ensures completions == old(completions) + [completion]
    {
      completions := completions + [completion];
    }

    method CompleteTurn()
      requires InOrder(config, world, accepted, totalToolCalls, startActions, seenToolCallIds, successfulActions, runs)
      requires completions == [] && memory == []
      requires TranscriptFits(transcript, rounds)
      requires lastRun.None? || RanWell(lastRun.value)
      modifies this`completions, this`memory
      ensures Closed(None)
    {
      UpdateMemory(true);
      SendTurnCompletion(TurnCompleted);
    }

    method FailTurn(error: TurnError)
      requires InOrder(config, world, accepted, totalToolCalls, startActions, seenToolCallIds, successfulActions, runs)
      requires completions == []
      requires MemoryFits(config, world, successfulActions, runs, Some(error), memory)
      requires TranscriptFits(transcript, rounds)
      modifies this`completions
      ensures Closed(Some(error))
    {
      SendTurnCompletion(TurnFailed);
    }

    // One request to the model.
    method Decide(step: nat) returns (r: Result<Decision, TurnError>)
      requires Open()
      modifies this`modelCalls, this`lastRun
      ensures Open() && lastRun == None
      ensures modelCalls == old(modelCalls) + if r == Err(ContextFailed) then 0 else 1
      ensures r == DecisionOf(world, Step(step, transcript))
      ensures Grouping(transcript).Ok? <==> forall r | r in rounds :: DistinctIds(CallIds(r.calls))
    {
      lastRun := None;
      AcceptedIffDistinct(rounds);
      var groups := TranscriptCausalGroups(transcript);
      if groups.Err? || !world.builds(Step(step, transcript)) {
        return Err(ContextFailed);
      }
      modelCalls := modelCalls + 1;
      var decision := world.model(Step(step, transcript));
      if decision.None? {
        return Err(ProviderFailed);
      }
      if decision.value.control == Unspecified {
        return Err(InvalidModelResponse);
      }
      r := Ok(decision.value);
    }

    // The limits on the batch of a decision; a decision without calls must settle.
    method Accept(decision: Decision) returns (error: Option<TurnError>)
      requires Open()
      modifies this`totalToolCalls, this`accepted
      ensures Open()
      ensures TakenUp(config, decision, error, old(BooksNow()), BooksNow())
    {
      var calls := decision.toolCalls;
      if calls == [] {
        return if decision.control == Settle then None else Some(InvalidModelResponse);
      }
      if |calls| > config.maxToolCallsPerStep {
        return Some(TooManyCallsPerStep);
      }
      if totalToolCalls + |calls| > config.maxToolCallsPerTurn {
        return Some(TooManyCallsPerTurn);
      }
      CountCalls(calls);
      error := None;
    }

    method CountCalls(calls: seq<ToolCall>)
      requires Open()
      requires |calls| <= config.maxToolCallsPerStep && totalToolCalls + |calls| <= config.maxToolCallsPerTurn
      modifies this`totalToolCalls, this`accepted
      ensures Open() && accepted == old(accepted) + [calls] && totalToolCalls == old(totalToolCalls) + |calls|
    {
      AcceptCalls(config, accepted, totalToolCalls, calls);
      totalToolCalls := totalToolCalls + |calls|;
      accepted := accepted + [calls];
    }

    // One step; the turn goes on, or it ends with or without an error.
    method RunStep(step: nat) returns (end: Option<Option<TurnError>>)
      requires Open()
      modifies this
      ensures end.None? ==> Open()
      ensures end.Some? ==> Closed(end.value)
      ensures modelCalls == old(modelCalls) + if end == Some(Some(ContextFailed)) then 0 else 1
      ensures StepEnds(config, world, step, old(BooksNow()), BooksNow(), end)
    {
      ghost var before := BooksNow();
      var decision := Decide(step);
      ghost var decided := BooksNow();
      end := Follow(step, decision);
      ContextFails(config, world, step, decided, BooksNow(), end);
      EndsFrom(config, world, step, before, decided, BooksNow(), end);
    }

    // Acts on the decision, or fails the turn when there is none.
    method Follow(step: nat, decision: Result<Decision, TurnError>) returns (end: Option<Option<TurnError>>)
      requires Open() && lastRun.None? && decision == DecisionOf(world, Step(step, transcript))
      modifies this`totalToolCalls, this`accepted, this`transcript, this`successfulActions, this`asyncActionsStarted,
               this`startActions, this`completions, this`memory, this`rounds, this`runs, this`lastRun,
               this`seenToolCallIds
      ensures end.None? ==> Open() && decision.Ok?
      ensures end.Some? ==> Closed(end.value)
      ensures StepEnds(config, world, step, old(BooksNow()), BooksNow(), end)
    {
      if decision.Err? {
        FailOpenTurn(decision.error);
        return Some(Some(decision.error));
      }
      end := Act(step, decision.value);
    }

    method Act(step: nat, decision: Decision) returns (end: Option<Option<TurnError>>)
      requires Open() && lastRun.None?
      modifies this`totalToolCalls, this`accepted, this`transcript, this`successfulActions, this`asyncActionsStarted,
               this`startActions, this`completions, this`memory, this`rounds, this`runs, this`lastRun,
               this`seenToolCallIds
      ensures end.None? ==> Open()
      ensures end.Some? ==> Closed(end.value)
      ensures ActEnds(config, world, step, decision, old(BooksNow()), BooksNow(), end)
    {
      ghost var before := BooksNow();
      var refused := Accept(decision);
      end := ActOn(step, decision, refused, before);
    }

    // A decision that is refused or has no calls closes the turn; any other one is a batch.
    method ActOn(step: nat, decision: Decision, refused: Option<TurnError>, ghost before: Books)
      returns (end: Option<Option<TurnError>>)
      requires Open() && lastRun.None? && TakenUp(config, decision, refused, before, BooksNow())
      modifies this`transcript, this`successfulActions, this`asyncActionsStarted, this`startActions, this`completions,
               this`memory, this`rounds, this`runs, this`lastRun, this`seenToolCallIds
      ensures end.None? ==> Open()
      ensures end.Some? ==> Closed(end.value)
      ensures ActEnds(config, world, step, decision, before, BooksNow(), end)
    {
      if refused.Some? || decision.toolCalls == [] {
        Close(refused);
        EndsUnaccepted(config, world, step, decision, before, BooksNow());
        return Some(refused);
      }
      ghost var later := BooksNow();
      end := CheckIds(step, decision.toolCalls, decision.control);
      EndsAccepted(config, world, step, decision, refused, before, later, BooksNow(), end);
    }

    // The turn ends without a batch.
    method Close(error: Option<TurnError>)
      requires Open() && lastRun.None? && (error.Some? ==> !FollowsBatch(error.value))
      modifies this`completions, this`memory
      ensures Closed(error)
    {
      if error.Some? {
        FailOpenTurn(error.value);
      } else {
        CompleteTurn();
      }
    }

    method FailOpenTurn(error: TurnError)
      requires Open() && !FollowsBatch(error)
      modifies this`completions
      ensures Closed(Some(error))
    {
      FailTurn(error);
    }

    // An id that an earlier step used refuses the whole batch.
    method CheckIds(step: nat, calls: seq<ToolCall>, control: Control) returns (end: Option<Option<TurnError>>)
      requires Open() && calls != []
      modifies this`transcript, this`successfulActions, this`asyncActionsStarted, this`startActions, this`completions,
               this`memory, this`rounds, this`runs, this`lastRun, this`seenToolCallIds
      ensures end.None? ==> Open()
      ensures end.Some? ==> Closed(end.value)
      ensures CheckEnds(config, world, step, calls, control, old(BooksNow()), BooksNow(), end)
    {
      ghost var before := BooksNow();
      var refused, repeated := ValidateToolCallIDsAcrossSteps(calls);
      RememberIds(calls);
      end := RunUnlessRepeated(step, calls, control, refused, repeated, before);
    }

    method RememberIds(calls: seq<ToolCall>)
      requires Open()
      modifies this`seenToolCallIds
      ensures Open() && Remembered(calls, old(BooksNow()), BooksNow())
    {
      ghost var seen := seenToolCallIds;
      RememberToolCallIDs(calls);
      SubmitNothing(calls, IdsOfRuns(runs), seen, seenToolCallIds);
    }

    method RunUnlessRepeated(step: nat, calls: seq<ToolCall>, control: Control, refused: seq<ToolResult>,
                             repeated: bool, ghost before: Books)
      returns (end: Option<Option<TurnError>>)
      requires Open() && calls != [] && Remembered(calls, before, BooksNow())
      requires OncePerTurn(IdsOfRuns(before.runs), before.seen) && repeated == SeenBefore(calls, before.seen)
      requires repeated ==> refused == RepeatedResults(calls, before.seen)
      modifies this`transcript, this`successfulActions, this`asyncActionsStarted, this`startActions, this`completions,
               this`memory, this`rounds, this`runs, this`lastRun
      ensures end.None? ==> Open()
      ensures end.Some? ==> Closed(end.value)
      ensures CheckEnds(config, world, step, calls, control, before, BooksNow(), end)
    {
      ghost var now := BooksNow();
      if repeated {
        AnswerRepeated(calls, refused);
        return None;
      }
      end := RunBatch(step, calls, control, before.seen);
      EndsFresh(config, world, step, calls, control, before, now, BooksNow(), end);
    }

    method AnswerRepeated(calls: seq<ToolCall>, results: seq<ToolResult>)
      requires Open() && Paired(Round(calls, results))
      modifies this`transcript, this`rounds
      ensures Open() && rounds == old(rounds) + [Round(calls, results)]
    {
      AppendRound(calls, results);
    }

    // The messages of one batch.
    method AppendRound(calls: seq<ToolCall>, results: seq<ToolResult>)
      requires TranscriptFits(transcript, rounds) && Paired(Round(calls, results))
      modifies this`transcript, this`rounds
      ensures TranscriptFits(transcript, rounds) && rounds == old(rounds) + [Round(calls, results)]
    {
      TranscriptNext(rounds, Round(calls, results));
      transcript := transcript + [Message(Assistant, "", calls, [])];
      transcript := transcript + [Message(Tool, "", [], results)];
      rounds := rounds + [Round(calls, results)];
    }

    // Runs a batch none of whose ids was seen before.
    method RunBatch(step: nat, calls: seq<ToolCall>, control: Control, ghost seen: set<string>)
      returns (end: Option<Option<TurnError>>)
      requires Open() && calls != []
      requires !SeenBefore(calls, seen) && Remembers(calls, seen, seenToolCallIds) && OncePerTurn(IdsOfRuns(runs), seen)
      modifies this`transcript, this`successfulActions, this`asyncActionsStarted, this`startActions, this`completions,
               this`memory, this`rounds, this`runs, this`lastRun
      ensures end.None? ==> Open()
      ensures end.Some? ==> Closed(end.value)
      ensures BatchEnds(config, world, step, calls, control, old(BooksNow()), BooksNow(), end)
    {
      ghost var before := BooksNow();
      var run := RunAndRecord(step, calls, seen);
      end := EndBatch(step, calls, run, control);
      EndsRun(config, world, step, calls, control, before, BooksNow(), run, end);
    }

    method RunAndRecord(step: nat, calls: seq<ToolCall>, ghost seen: set<string>) returns (run: BatchRun)
      requires Open() && calls != []
      requires !SeenBefore(calls, seen) && Remembers(calls, seen, seenToolCallIds) && OncePerTurn(IdsOfRuns(runs), seen)
      modifies this`successfulActions, this`startActions, this`runs, this`lastRun
      ensures InOrder(config, world, accepted, totalToolCalls, startActions, seenToolCallIds, successfulActions, runs)
      ensures runs == old(runs) + [Entered(config, step, calls, old(BooksNow()), run)] && lastRun == Some(run)
      ensures run.error.None? ==> startActions == asyncActionsStarted + if run.outcome.asyncStarted then 1 else 0
      ensures run.error.None? ==> Paired(Round(calls, run.outcome.results))
    {
      run := Schedule(step, calls, seen);
      RecordBatch(run, Entered(config, step, calls, BooksNow(), run));
    }

    // A technical error ends the turn.
    method EndBatch(step: nat, calls: seq<ToolCall>, run: BatchRun, control: Control)
      returns (end: Option<Option<TurnError>>)
      requires InOrder(config, world, accepted, totalToolCalls, startActions, seenToolCallIds, successfulActions, runs)
      requires TranscriptFits(transcript, rounds) && completions == [] && memory == []
      requires lastRun == Some(run) && runs != []
      requires run.error.None? ==> Paired(Round(calls, run.outcome.results))
      requires run.error.None? ==> startActions == asyncActionsStarted + if run.outcome.asyncStarted then 1 else 0
      modifies this`transcript, this`rounds, this`asyncActionsStarted, this`completions, this`memory
      ensures end.None? ==> Open()
      ensures end.Some? ==> Closed(end.value)
      ensures rounds == if run.error.None? then old(rounds) + [Round(calls, run.outcome.results)] else old(rounds)
      ensures end == EndAfter(run, control, world.resumes(Step(step, transcript)))
    {
      if run.error.Some? {
        FailBatch(BatchFailed(run.error.value));
        return Some(Some(BatchFailed(run.error.value)));
      }
      end := Conclude(step, calls, run, control);
    }

    // A batch without a technical error: its results are answered, and the turn may settle.
    method Conclude(step: nat, calls: seq<ToolCall>, run: BatchRun, control: Control)
      returns (end: Option<Option<TurnError>>)
      requires InOrder(config, world, accepted, totalToolCalls, startActions, seenToolCallIds, successfulActions, runs)
      requires TranscriptFits(transcript, rounds) && completions == [] && memory == []
      requires Paired(Round(calls, run.outcome.results)) && run.error.None? && lastRun == Some(run) && runs != []
      requires startActions == asyncActionsStarted + if run.outcome.asyncStarted then 1 else 0
      modifies this`transcript, this`rounds, this`asyncActionsStarted, this`completions, this`memory
      ensures end.None? ==> Open()
      ensures end.Some? ==> Closed(end.value)
      ensures rounds == old(rounds) + [Round(calls, run.outcome.results)]
      ensures end == EndAfter(run, control, world.resumes(Step(step, transcript)))
    {
      var resumed := Answer(step, calls, run);
      if !resumed {
        FailBatch(ObservationFailed);
        return Some(Some(ObservationFailed));
      }
      end := AfterBatch(run, control);
    }

    method Schedule(step: nat, calls: seq<ToolCall>, ghost seen: set<string>) returns (run: BatchRun)
      requires calls != [] && !SeenBefore(calls, seen) && Remembers(calls, seen, seenToolCallIds)
      requires OncePerTurn(IdsOfRuns(runs), seen)
      ensures BatchFits(calls, run, IdsOfRuns(runs), seenToolCallIds,
                        asyncActionsStarted >= config.maxAsyncActionsPerTurn)
      ensures BatchReports(world.tools.(asyncLimitFull := asyncActionsStarted >= config.maxAsyncActionsPerTurn), calls,
                           world.environment(Step(step, transcript)), run)
    {
      var tools := world.tools.(asyncLimitFull := asyncActionsStarted >= config.maxAsyncActionsPerTurn);
      var env := world.environment(Step(step, transcript));
      run := Run(tools, calls, env);
      BatchFitsTurn(tools, calls, env, run, IdsOfRuns(runs), seen, seenToolCallIds);
    }

    method FailBatch(error: TurnError)
      requires InOrder(config, world, accepted, totalToolCalls, startActions, seenToolCallIds, successfulActions, runs)
      requires completions == [] && memory == []
      requires TranscriptFits(transcript, rounds)
      requires FollowsBatch(error) && runs != []
      modifies this`completions, this`memory
      ensures Closed(Some(error))
    {
      UpdateMemory(false);
      FailTurn(error);
    }

    // A batch that did not fail may settle the turn, unless it was asynchronous.
    method AfterBatch(run: BatchRun, control: Control) returns (end: Option<Option<TurnError>>)
      requires Open() && lastRun == Some(run) && run.error.None?
      modifies this`completions, this`memory
      ensures end.None? ==> Open()
      ensures end.Some? ==> Closed(end.value)
      ensures end == if RanWell(run) && (control == Settle || run.outcome.settle) then Some(None) else None
    {
      if run.outcome.failed || run.outcome.asyncStarted {
        return None;
      }
      if control == Settle || run.outcome.settle {
        CompleteTurn();
        return Some(None);
      }
      end := None;
    }

    // The results join the transcript; after an asynchronous action the turn observes again.
    method Answer(step: nat, calls: seq<ToolCall>, run: BatchRun) returns (resumed: bool)
      requires InOrder(config, world, accepted, totalToolCalls, startActions, seenToolCallIds, successfulActions, runs)
      requires TranscriptFits(transcript, rounds) && completions == [] && memory == []
      requires Paired(Round(calls, run.outcome.results))
      requires startActions == asyncActionsStarted + if run.outcome.asyncStarted then 1 else 0
      modifies this`transcript, this`rounds, this`asyncActionsStarted
      ensures Open()
      ensures resumed == (run.outcome.asyncStarted ==> world.resumes(Step(step, transcript)))
      ensures rounds == old(rounds) + [Round(calls, run.outcome.results)]
    {
      AppendRound(calls, run.outcome.results);
      if run.outcome.asyncStarted {
        asyncActionsStarted := asyncActionsStarted + 1;
        return world.resumes(Step(step, transcript));
      }
      resumed := true;
    }

    // The actions of the batch count, whatever ended it.
    method RecordBatch(run: BatchRun, ghost r: Ran)
      requires InOrder(config, world, accepted, totalToolCalls, startActions, seenToolCallIds, successfulActions, runs)
      requires r.run == run && MayEnter(config, world, startActions, seenToolCallIds, runs, r)
      modifies this`successfulActions, this`startActions, this`runs, this`lastRun
      ensures InOrder(config, world, accepted, totalToolCalls, startActions, seenToolCallIds, successfulActions, runs)
      ensures runs == old(runs) + [r] && lastRun == Some(run)
      ensures startActions == old(startActions) + if run.started then 1 else 0
    {
      InOrderNext(config, world, accepted, totalToolCalls, startActions, seenToolCallIds, successfulActions, runs, r);
      runs := runs + [r];
      successfulActions := successfulActions + run.outcome.actions;
      lastRun := Some(run);
      startActions := startActions + if run.started then 1 else 0;
    }

    method RunBoundedSteps() returns (error: Option<TurnError>, ghost stages: seq<Books>)
      requires Open() && modelCalls == 0 && BooksNow() == FRESH
      modifies this
      ensures Closed(error) && EngineParses(world, BooksNow(), modelCalls, error)
      ensures TurnTold(config, world, stages, BooksNow(), error, modelCalls)
    {
      stages := [BooksNow()];
      var step := 1;
      while step <= config.maxSteps
        invariant 1 <= step <= AtLeastZero(config.maxSteps) + 1 && |stages| == step
        invariant Open() && modelCalls == step - 1 && GoingOn(config, world, stages, BooksNow())
      {
        var end;
        end, stages := NextStep(step, stages);
        if end.Some? {
          return end.value, stages;
        }
        step := step + 1;
      }
      error := ExceedSteps(stages);
    }

    // A step and what it adds to the steps before.
    method NextStep(step: nat, ghost before: seq<Books>)
      returns (end: Option<Option<TurnError>>, ghost stages: seq<Books>)
      requires Open() && modelCalls == step - 1 && |before| == step <= AtLeastZero(config.maxSteps)
      requires GoingOn(config, world, before, BooksNow())
      modifies this
      ensures end.None? ==>
        Open() && modelCalls == step && |stages| == step + 1 && GoingOn(config, world, stages, BooksNow())
      ensures end.Some? ==> Closed(end.value) && EngineParses(world, BooksNow(), modelCalls, end.value)
      ensures end.Some? ==> TurnTold(config, world, stages, BooksNow(), end.value, modelCalls)
    {
      end := RunStep(step);
      stages := before + [BooksNow()];
      StepTells(config, world, before, BooksNow(), end, modelCalls);
    }

    method ExceedSteps(ghost stages: seq<Books>) returns (error: Option<TurnError>)
      requires Open() && modelCalls == |stages| - 1 == AtLeastZero(config.maxSteps)
      requires GoingOn(config, world, stages, BooksNow())
      modifies this`completions
      ensures Closed(error) && EngineParses(world, BooksNow(), modelCalls, error)
      ensures TurnTold(config, world, stages, BooksNow(), error, modelCalls)
    {
      AllStepsTaken(config, world, stages, BooksNow());
      FailTurn(MaxStepsExceeded);
      error := Some(MaxStepsExceeded);
    }

    // A turn whose target is valid ends with exactly one completion, and with TurnCompleted only without an error.
    method HandleEvent() returns (error: Option<TurnError>, ghost stages: seq<Books>)
      requires Open() && modelCalls == 0 && BooksNow() == FRESH
      modifies this
      ensures IsValid(world) ==> Closed(error) && EngineParses(world, BooksNow(), modelCalls, error)
      ensures IsValid(world) && world.observes ==> TurnTold(config, world, stages, BooksNow(), error, modelCalls)
      ensures IsValid(world) && !world.observes ==> error == Some(ObservationFailed)
      ensures !IsValid(world) ==> error == Some(InvalidTarget) && completions == [] && memory == []
      ensures !IsValid(world) <==>
        || world.entityId == "" || world.worldId == "" || world.target.None? || !world.hasCatalog
        || TrimSpace(world.target.value) != world.entityId
      ensures !IsValid(world) || !world.observes ==> BooksNow() == FRESH && modelCalls == 0 && startActions == 0
    {
      stages := [];
      if world.entityId == "" || world.worldId == "" || world.target.None? {
        return Some(InvalidTarget), stages;
      }
      var targetEntityId := TrimSpace(world.target.value);
      if targetEntityId == "" || targetEntityId != world.entityId || !world.hasCatalog {
        return Some(InvalidTarget), stages;
      }
      if !world.observes {
        FailTurn(ObservationFailed);
        return Some(ObservationFailed), stages;
      }
      error, stages := RunBoundedSteps();
    }
  }
}

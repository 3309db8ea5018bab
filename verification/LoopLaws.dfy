/**
 What a step and a turn mean (runtime/internal/agent/loop.go:250-508, 945-1011): laws about every step and every
 ending of a turn, in terms of what the world answers, the limits, and the ids seen before.
 */
module LoopLaws {
  import opened Common
  import opened Text
  import opened Messages
  import opened Transcript
  import opened BatchProtocol
  import opened Batch
  import opened Loop

  // The request of the step is built.
  ghost predicate IsBuilt(w: World, s: Loop.Step) {
    Grouping(s.transcript).Ok? && w.builds(s)
  }

  // The model answers with these calls and a control that means something.
  ghost predicate Answers(w: World, s: Loop.Step, control: Control, calls: seq<ToolCall>) {
    IsBuilt(w, s) && w.model(s) == Some(Decision(control, calls)) && control != Unspecified
  }

  // The answer is acted on: it has no calls and settles, or its calls are within both limits.
  ghost predicate IsTaken(config: Config, before: Books, control: Control, calls: seq<ToolCall>) {
    if |calls| == 0 then control == Settle
    else |calls| <= config.maxToolCallsPerStep && before.total + |calls| <= config.maxToolCallsPerTurn
  }

  // The transcript is the rounds in order: the calls of the model, then the results for them.
  lemma {:induction false} TranscriptTells(rounds: seq<Round>, i: nat)
    requires i < |rounds|
    ensures |TranscriptOf(rounds)| == 2 * |rounds|
    ensures TranscriptOf(rounds)[2 * i] == Message(Assistant, "", rounds[i].calls, [])
    ensures TranscriptOf(rounds)[2 * i + 1] == Message(Tool, "", [], rounds[i].results)
  {
    var n := |rounds| - 1;
    var before, last := rounds[..n], rounds[n];
    assert rounds == before + [last];
    TranscriptNext(before, last);
    if n > 0 {
      TranscriptTells(before, if i < n then i else 0);
    } else {
      assert RoundGroups(before) == [];
    }
  }

  // Which step fails before it does anything, and why.
  lemma StepFails(config: Config, w: World, step: nat, before: Books, after: Books, end: Option<Option<TurnError>>)
    requires StepEnds(config, w, step, before, after, end)
    ensures var s := Loop.Step(step, before.transcript);
      && (!IsBuilt(w, s) ==> end == Some(Some(ContextFailed)))
      && (IsBuilt(w, s) && w.model(s).None? ==> end == Some(Some(ProviderFailed)))
      && (IsBuilt(w, s) && w.model(s).Some? && w.model(s).value.control == Unspecified ==>
          end == Some(Some(InvalidModelResponse)))
      && forall control, calls | Answers(w, s, control, calls) ::
        && (|calls| == 0 && control == Continue ==> end == Some(Some(InvalidModelResponse)))
        && (|calls| > 0 && |calls| > config.maxToolCallsPerStep ==> end == Some(Some(TooManyCallsPerStep)))
        && (0 < |calls| <= config.maxToolCallsPerStep && before.total + |calls| > config.maxToolCallsPerTurn ==>
            end == Some(Some(TooManyCallsPerTurn)))
        && (!IsTaken(config, before, control, calls) ==> after == before.(lastRun := after.lastRun))
  {
  }

  // An id of the batch was used by an earlier step.
  ghost predicate Reuses(calls: seq<ToolCall>, i: nat, seen: set<string>) {
    i < |calls| && TrimSpace(calls[i].id) != "" && TrimSpace(calls[i].id) in seen
  }

  // A batch that reuses an id is not run; the calls that do are told so, and the others that they were skipped.
  lemma RepeatedStep(config: Config, w: World, step: nat, before: Books, after: Books,
                     end: Option<Option<TurnError>>, control: Control, calls: seq<ToolCall>)
    returns (results: seq<ToolResult>)
    requires StepEnds(config, w, step, before, after, end)
    requires Answers(w, Loop.Step(step, before.transcript), control, calls) && IsTaken(config, before, control, calls)
    requires exists i :: Reuses(calls, i, before.seen)
    ensures end == None && after.runs == before.runs && after.rounds == before.rounds + [Round(calls, results)]
    ensures after.accepted == before.accepted + [calls] && after.total == before.total + |calls|
    ensures |results| == |calls|
    ensures forall i | 0 <= i < |calls| && Reuses(calls, i, before.seen) ::
      results[i] == ToolResult(calls[i].id, calls[i].name, Invalid, "duplicate_tool_call_id", None)
    ensures forall i | 0 <= i < |calls| && !Reuses(calls, i, before.seen) ::
      results[i] == ToolResult(calls[i].id, calls[i].name, Skipped, "batch_validation_failed", None)
  {
    results := RepeatedResults(calls, before.seen);
    var i :| Reuses(calls, i, before.seen);
    assert SeenBefore(calls, before.seen);
  }

  lemma FreshIsUnseen(calls: seq<ToolCall>, seen: set<string>)
    requires forall i | 0 <= i < |calls| :: !Reuses(calls, i, seen)
    ensures !SeenBefore(calls, seen)
  {
    if SeenBefore(calls, seen) {
      var i :| 0 <= i < |calls| && TrimSpace(calls[i].id) != "" && TrimSpace(calls[i].id) in seen;
      assert Reuses(calls, i, seen);
    }
  }

  // Any other batch is run: here, with asynchronous actions refused once the turn has started as many as it may.
  // A technical error or an observation that fails ends the turn; it settles only after a batch that neither failed
  // nor was asynchronous, when the model or a tool asks for it.
  lemma BatchStep(config: Config, w: World, step: nat, before: Books, after: Books, end: Option<Option<TurnError>>,
                  control: Control, calls: seq<ToolCall>)
    returns (run: BatchRun)
    requires StepEnds(config, w, step, before, after, end)
    requires Answers(w, Loop.Step(step, before.transcript), control, calls) && IsTaken(config, before, control, calls)
    requires |calls| > 0 && forall i | 0 <= i < |calls| :: !Reuses(calls, i, before.seen)
    ensures var full := StartsOfRuns(before.runs) >= config.maxAsyncActionsPerTurn;
      after.runs == before.runs + [Ran(Loop.Step(step, before.transcript), full, calls, run)]
    ensures after.accepted == before.accepted + [calls] && after.total == before.total + |calls|
    ensures run.error.Some? ==> end == Some(Some(BatchFailed(run.error.value))) && after.rounds == before.rounds
    ensures run.error.None? ==> after.rounds == before.rounds + [Round(calls, run.outcome.results)]
    ensures run.error.None? && run.outcome.asyncStarted ==>
      end == if w.resumes(Loop.Step(step, after.transcript)) then None else Some(Some(ObservationFailed))
    ensures run.error.None? && !run.outcome.asyncStarted ==>
      end == if !run.outcome.failed && (control == Settle || run.outcome.settle) then Some(None) else None
  {
    FreshIsUnseen(calls, before.seen);
    run := after.lastRun.value;
  }

  // A step without calls that settles ends the turn well and does nothing else.
  lemma SettlingStep(config: Config, w: World, step: nat, before: Books, after: Books,
                     end: Option<Option<TurnError>>)
    requires StepEnds(config, w, step, before, after, end)
    requires Answers(w, Loop.Step(step, before.transcript), Settle, [])
    ensures end == Some(None) && after == before.(lastRun := after.lastRun)
  {
  }

  // Afterwards exactly the ids seen before and those of the calls that were taken are remembered.
  lemma StepRemembers(config: Config, w: World, step: nat, before: Books, after: Books,
                      end: Option<Option<TurnError>>, control: Control, calls: seq<ToolCall>, id: string)
    requires StepEnds(config, w, step, before, after, end)
    requires Answers(w, Loop.Step(step, before.transcript), control, calls) && IsTaken(config, before, control, calls)
    ensures id in after.seen <==>
      id in before.seen || (id != "" && exists i :: 0 <= i < |calls| && TrimSpace(calls[i].id) == id)
  {
    CountIsPositive(calls, id);
  }

  // The memory of a turn is one record of its successful actions or none.  There is one exactly when memory is on,
  // the turn settled or ended with or after a batch, there is something to record, and recording succeeds.
  lemma MemoryTells(config: Config, w: World, actions: seq<CompletedAction>, runs: seq<Ran>, error: Option<TurnError>,
                    memory: seq<MemoryRecord>)
    requires MemoryFits(config, w, actions, runs, error, memory)
    ensures var facts := error.None? && w.hasContextFacts;
      memory == if && config.memoryEnabled
                   && (error.None? || error.value.BatchFailed? || (error.value == ObservationFailed && runs != []))
                   && (|actions| > 0 || facts) && w.projects(actions) && w.appends(MemoryRecord(actions, facts))
                then [MemoryRecord(actions, facts)] else []
  {
  }
}

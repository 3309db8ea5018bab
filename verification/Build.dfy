/**
 The building of one model request (runtime/internal/context/context.go:248-331): memories are selected and
 trimmed, the transcript is cut into groups and trimmed, and the projection made of them goes through every budget.

 The input is one that has been validated.  How a record is projected, what a group costs, and how large the
 rendered request is are arbitrary functions.
 */
module Build {
  import opened Common
  import opened Entities
  import opened Messages
  import opened Transcript
  import opened Memory
  import opened DefinitionBudget
  import opened Projection
  import opened RequestBudget

  datatype BuildInput = BuildInput(
    envelope: Envelope,
    gameDefinition: Option<Definition>,
    agentDefinition: Option<Definition>,
    event: Event,
    facts: seq<Fact>,
    observation: Observation,
    records: seq<Record>,
    messages: seq<Message>)

  datatype Budget = Budget(memory: int, transcript: int, limits: Limits)

  datatype Renderer = Renderer(project: Record -> MemoryProjection, tokens: Group -> nat, costs: Costs,
                               measure: Measure)

  datatype Report = Report(memory: Retention, transcript: Retention, reasons: seq<Reason>,
                           cropped: set<RequestBudget.Section>)

  // A build with an error still says how far the projection was degraded.
  datatype BuildResult = Refused(fault: TranscriptError, report: Report)
                       | Built(projection: Projection, report: Report, error: Option<BudgetError>)

  // The time of the event, else that of the observation.
  function CurrentGameTime(input: BuildInput): Option<GameTime> {
    if input.event.shell.gameTime.Some? then input.event.shell.gameTime else input.observation.shell.gameTime
  }

  function ProjectionOf(input: BuildInput, memories: seq<MemoryProjection>, transcript: seq<Message>): Projection {
    Projection(input.envelope, input.gameDefinition, input.agentDefinition, input.event, input.facts,
               input.observation, memories, transcript)
  }

  /* ---- The transcript ---- */

  // Why a transcript is refused: it is no sequence of groups, or its newest group alone is too large.
  function TranscriptFault(messages: seq<Message>, limit: int, tokens: Group -> nat): Option<TranscriptError> {
    match Grouping(messages)
    case Err(e) => Some(e)
    case Ok(gs) =>
      if gs != [] && 0 < limit < tokens(gs[|gs| - 1]) then Some(LatestGroupOverBudget) else None
  }

  // The groups from the first one kept on are within the limit, and the newest is among them.
  ghost predicate KeepsGroups(groups: seq<Group>, first: nat, limit: int, tokens: Group -> nat) {
    && first <= |groups| && (groups != [] ==> first < |groups|)
    && (limit > 0 ==> CostOf(groups[first..], tokens) <= limit)
  }

  // No older group would have fitted too.
  ghost predicate NoMoreGroupsFit(groups: seq<Group>, first: nat, limit: int, tokens: Group -> nat) {
    && (limit <= 0 ==> first == 0)
    && (limit > 0 ==> forall j | 0 <= j < first <= |groups| :: CostOf(groups[j..], tokens) > limit)
  }

  // The messages of those groups are what is kept.
  ghost predicate KeepsMessages(messages: seq<Message>, first: nat, kept: seq<Message>, limit: int,
                                tokens: Group -> nat) {
    && Grouping(messages).Ok? && KeepsGroups(Grouping(messages).value, first, limit, tokens)
    && kept == Flatten(Grouping(messages).value[first..])
  }

  method ProjectCurrentTurnTranscript(messages: seq<Message>, limit: int, tokens: Group -> nat)
    returns (r: Result<seq<Message>, TranscriptError>, report: Retention, ghost first: nat)
    ensures TranscriptFault(messages, limit, tokens) == if r.Ok? then None else Some(r.error)
    ensures r.Ok? ==> KeepsMessages(messages, first, r.value, limit, tokens)
    ensures r.Ok? ==> NoMoreGroupsFit(Grouping(messages).value, first, limit, tokens)
    ensures r.Ok? ==> report.retained == |r.value| && report.retained + report.dropped == |messages|
    ensures r.Err? ==> report == Retention(0, if r.error == LatestGroupOverBudget then |messages| else 0)
  {
    if |messages| == 0 {
      return Ok([]), Retention(0, 0), 0;
    }
    var groups := TranscriptCausalGroups(messages);
    if groups.Err? {
      GroupingFaults(messages);
      return Err(groups.error), Retention(0, 0), 0;
    }
    r, report, first := TrimToLimit(groups.value, limit, tokens);
  }

  method TrimToLimit(groups: seq<Group>, limit: int, tokens: Group -> nat)
    returns (r: Result<seq<Message>, TranscriptError>, report: Retention, ghost first: nat)
    requires groups != []
    ensures r.Err? <==> 0 < limit < tokens(groups[|groups| - 1])
    ensures r.Err? ==> r.error == LatestGroupOverBudget && report == Retention(0, |Flatten(groups)|)
    ensures r.Ok? ==> KeepsGroups(groups, first, limit, tokens) && r.value == Flatten(groups[first..])
    ensures r.Ok? ==> NoMoreGroupsFit(groups, first, limit, tokens)
    ensures r.Ok? ==> report.retained == |r.value| && report.retained + report.dropped == |Flatten(groups)|
  {
    var trimmed;
    trimmed, first := TrimTranscriptGroups(groups, limit, tokens);
    if trimmed.overBudget {
      return Err(LatestGroupOverBudget), Retention(0, |Flatten(groups)|), first;
    }
    NewestIsKept(groups, first, limit, tokens);
    r, report := Ok(trimmed.kept), Retention(|trimmed.kept|, trimmed.dropped);
  }

  lemma NewestIsKept(groups: seq<Group>, first: nat, limit: int, tokens: Group -> nat)
    requires groups != [] && first <= |groups| && !(0 < limit < tokens(groups[|groups| - 1]))
    requires limit <= 0 ==> first == 0
    requires limit > 0 ==> forall j | 0 <= j < first :: CostOf(groups[j..], tokens) > limit
    ensures first < |groups|
  {
    var newest := |groups| - 1;
    assert groups[newest..] == [groups[newest]];
    assert CostOf(groups[newest..], tokens) == tokens(groups[newest]) + CostOf([], tokens);
  }

  lemma {:induction false} GroupingFaults(messages: seq<Message>)
    ensures Grouping(messages) != Err(LatestGroupOverBudget)
    decreases |messages|
  {
    if messages != [] {
      GroupingFaults(messages[1..]);
      if |messages| > 1 {
        GroupingFaults(messages[2..]);
      }
    }
  }

  /* ---- What is left of memories and transcript ---- */

  // Groups that are cut further are the newest still, and cost no more.
  lemma CutGroups(groups: seq<Group>, first: nat, left: seq<Group>, limit: int, tokens: Group -> nat)
    requires KeepsGroups(groups, first, limit, tokens) && IsSuffix(left, groups[first..])
    requires left == [] ==> groups == []
    ensures KeepsGroups(groups, |groups| - |left|, limit, tokens) && groups[|groups| - |left|..] == left
  {
    var next := |groups| - |left|;
    assert groups[next..] == left;
    if limit > 0 && next > first && CostOf(left, tokens) > limit {
      OlderCostsMore(groups, next, tokens, limit);
    }
  }

  lemma CutMessages(messages: seq<Message>, first: nat, left: seq<Group>, limit: int, tokens: Group -> nat)
    requires Grouping(messages).Ok? && KeepsGroups(Grouping(messages).value, first, limit, tokens)
    requires IsSuffix(left, Grouping(messages).value[first..])
    requires left == [] ==> Grouping(messages).value[first..] == []
    ensures exists next :: KeepsMessages(messages, next, Flatten(left), limit, tokens)
  {
    var groups := Grouping(messages).value;
    CutGroups(groups, first, left, limit, tokens);
    assert KeepsMessages(messages, |groups| - |left|, Flatten(left), limit, tokens);
  }

  lemma KeptIsCounted(messages: seq<Message>, first: nat, kept: seq<Message>, limit: int, tokens: Group -> nat)
    requires KeepsMessages(messages, first, kept, limit, tokens)
    ensures |kept| <= |messages| && kept == messages[|messages| - |kept|..]
    ensures Grouping(kept) == Ok(Grouping(messages).value[first..])
  {
    GroupingOfSuffix(messages, first);
  }

  lemma FewerMemoriesCostLess(memories: seq<MemoryProjection>, kept: seq<MemoryProjection>, limit: int)
    requires IsSuffix(kept, memories) && kept != [] && MemoryTokens(memories) <= limit
    ensures MemoryTokens(kept) <= limit
  {
    var first := |memories| - |kept|;
    assert memories[0..] == memories;
    if MemoryTokens(memories[first..]) > limit {
      OlderMemoriesCost(memories, first, limit);
    }
  }

  // What is required of groups: the messages of the newest one.
  function Newest(groups: seq<Group>): seq<Message> {
    if |groups| <= 1 then Flatten(groups) else groups[|groups| - 1]
  }

  lemma NewestOfSuffix(groups: seq<Group>, first: nat)
    requires first <= |groups| && (groups != [] ==> first < |groups|)
    ensures Newest(groups[first..]) == Newest(groups)
  {
    if first == |groups| - 1 {
      assert groups[first..] == [groups[first]];
      assert Flatten(groups[first..]) == groups[first] + Flatten([]);
    }
  }

  lemma NewestIsRequired(p: Projection, groups: seq<Group>)
    requires Grouping(p.transcript) == Ok(groups)
    ensures Required(p).transcript == Newest(groups)
    ensures Newest(groups) == [] ==> groups == []
  {
    RequiredIs(p);
    assert groups != [] ==> IsGroup(groups[|groups| - 1]);
    assert |groups| == 1 ==> Flatten(groups) == groups[0] + Flatten([]);
  }

  // The required content does not depend on what is trimmed.
  lemma SameNewest(p: Projection, q: Projection, groups: seq<Group>, left: seq<Group>)
    requires q == p.(memories := q.memories, transcript := q.transcript)
    requires Grouping(p.transcript) == Ok(groups) && Grouping(q.transcript) == Ok(left)
    requires Newest(left) == Newest(groups)
    ensures Required(p) == Required(q)
  {
    NewestIsRequired(p, groups);
    NewestIsRequired(q, left);
    RequiredIs(p);
    RequiredIs(q);
  }

  lemma TrimmedKeepsRequired(input: BuildInput, memories: seq<MemoryProjection>, first: nat, kept: seq<Message>,
                             limit: int, tokens: Group -> nat)
    requires KeepsMessages(input.messages, first, kept, limit, tokens)
    ensures Required(ProjectionOf(input, memories, kept)) == Required(ProjectionOf(input, [], input.messages))
  {
    var groups := Grouping(input.messages).value;
    KeptIsCounted(input.messages, first, kept, limit, tokens);
    NewestOfSuffix(groups, first);
    SameNewest(ProjectionOf(input, [], input.messages), ProjectionOf(input, memories, kept), groups, groups[first..]);
  }

  /* ---- The build ---- */

  // The memories are the newest of the timeline, and no more of them would have fitted.
  ghost predicate KeepsMemories(timeline: seq<MemoryProjection>, kept: seq<MemoryProjection>, limit: int) {
    && IsSuffix(kept, timeline)
    && (limit <= 0 ==> kept == timeline)
    && (limit > 0 && kept != [] ==> MemoryTokens(kept) <= limit)
    && (limit > 0 ==> forall j | 0 <= j < |timeline| - |kept| :: MemoryTokens(timeline[j..]) > limit)
  }

  function TimelineOf(input: BuildInput, r: Renderer): seq<MemoryProjection> {
    Timeline(input.records, CurrentGameTime(input), r.project)
  }

  // The projection before the budgets that are shared by its sections.
  ghost predicate IsTrimmed(input: BuildInput, budget: Budget, r: Renderer, start: Projection, first: nat) {
    && start == ProjectionOf(input, start.memories, start.transcript)
    && KeepsMemories(TimelineOf(input, r), start.memories, budget.memory)
    && KeepsMessages(input.messages, first, start.transcript, budget.transcript, r.tokens)
    && NoMoreGroupsFit(Grouping(input.messages).value, first, budget.transcript, r.tokens)
  }

  // What the budgets leave: the newest memories and the newest groups, within their own limits, and all that
  // the input requires.
  ghost predicate IsLeft(input: BuildInput, budget: Budget, r: Renderer, p: Projection) {
    && IsSuffix(p.memories, TimelineOf(input, r))
    && (budget.memory > 0 && p.memories != [] ==> MemoryTokens(p.memories) <= budget.memory)
    && (exists first :: KeepsMessages(input.messages, first, p.transcript, budget.transcript, r.tokens))
    && Required(p) == Required(ProjectionOf(input, [], input.messages))
  }

  ghost predicate Conserves(input: BuildInput, memory: Retention, transcript: Retention) {
    && memory.retained + memory.dropped == |Past(input.records, CurrentGameTime(input))|
    && transcript.retained + transcript.dropped == |input.messages|
  }

  // Every selected memory and every message is in the projection or, if it is one of the oldest, counted as dropped.
  ghost predicate IsCounted(input: BuildInput, r: Renderer, p: Projection, report: Report) {
    && report.memory.retained == |p.memories| && report.transcript.retained == |p.transcript|
    && Conserves(input, report.memory, report.transcript)
    && |TimelineOf(input, r)| == |Past(input.records, CurrentGameTime(input))|
    && p.memories == TimelineOf(input, r)[report.memory.dropped..]
    && p.transcript == input.messages[report.transcript.dropped..]
  }

  lemma LeftIsCounted(input: BuildInput, budget: Budget, r: Renderer, p: Projection, report: Report)
    requires IsLeft(input, budget, r, p) && Conserves(input, report.memory, report.transcript)
    requires report.memory.retained == |p.memories| && report.transcript.retained == |p.transcript|
    requires |TimelineOf(input, r)| == |Past(input.records, CurrentGameTime(input))|
    ensures IsCounted(input, r, p, report)
  {
    var first :| KeepsMessages(input.messages, first, p.transcript, budget.transcript, r.tokens);
    KeptIsCounted(input.messages, first, p.transcript, budget.transcript, r.tokens);
  }

  // The memory is of a record that is not later than this time.
  ghost predicate IsOfRecord(input: BuildInput, r: Renderer, m: MemoryProjection, time: GameTime) {
    exists record :: record in input.records && m == r.project(record)
      && (record.gameTime.Some? ==> !Later(record.gameTime.value, time))
  }

  ghost predicate NoneLater(input: BuildInput, r: Renderer, p: Projection, time: GameTime) {
    forall i | 0 <= i < |p.memories| :: IsOfRecord(input, r, p.memories[i], time)
  }

  // The time of the event counts, and that of the observation only where the event has none.
  ghost predicate IsTimely(input: BuildInput, r: Renderer, p: Projection) {
    && (input.event.shell.gameTime.Some? ==> NoneLater(input, r, p, input.event.shell.gameTime.value))
    && (input.event.shell.gameTime.None? && input.observation.shell.gameTime.Some? ==>
        NoneLater(input, r, p, input.observation.shell.gameTime.value))
  }

  lemma SelectedIsPast(records: seq<Record>, now: Option<GameTime>, i: nat)
    requires i < |Stabilized(Past(records, now))|
    ensures var record := Stabilized(Past(records, now))[i];
      record in records && (now.Some? && record.gameTime.Some? ==> !Later(record.gameTime.value, now.value))
  {
    var record := Stabilized(Past(records, now))[i];
    StabilizedPermutes(Past(records, now), 0);
    assert record in multiset(Stabilized(Past(records, now)));
    PastIsExactly(records, now, record);
    assert multiset(records)[record] > 0;
  }

  lemma NoMemoryIsLater(input: BuildInput, r: Renderer, p: Projection, time: GameTime)
    requires IsSuffix(p.memories, TimelineOf(input, r)) && CurrentGameTime(input) == Some(time)
    ensures NoneLater(input, r, p, time)
  {
    var selected := Stabilized(Past(input.records, Some(time)));
    forall i | 0 <= i < |p.memories|
      ensures IsOfRecord(input, r, p.memories[i], time)
    {
      var k := |selected| - |p.memories| + i;
      SelectedIsPast(input.records, Some(time), k);
      assert p.memories[i] == r.project(selected[k]);
    }
  }

  lemma MemoriesAreTimely(input: BuildInput, r: Renderer, p: Projection)
    requires IsSuffix(p.memories, TimelineOf(input, r))
    ensures IsTimely(input, r, p)
  {
    if input.event.shell.gameTime.Some? {
      NoMemoryIsLater(input, r, p, input.event.shell.gameTime.value);
    } else if input.observation.shell.gameTime.Some? {
      NoMemoryIsLater(input, r, p, input.observation.shell.gameTime.value);
    }
  }

  lemma SettledKeepsNewest(p: Projection, q: Projection, error: Option<BudgetError>, c: Costs, measure: Measure,
                           limits: Limits)
    requires Settles(p, q, error, c, measure, limits)
    ensures KeepsNewest(p, q)
  {
    if EarlyError(p, c, limits).None? {
      EndKeepsNewest(Sections(p, c, limits), q, error, measure, limits);
    }
    SectionsKeepBoth(p, c, limits);
    NewestOfSame(p, Sections(p, c, limits), q);
  }

  lemma SectionsKeepBoth(p: Projection, c: Costs, limits: Limits)
    ensures Sections(p, c, limits).memories == p.memories && Sections(p, c, limits).transcript == p.transcript
  {
  }

  lemma EndKeepsNewest(p: Projection, q: Projection, error: Option<BudgetError>, measure: Measure, limits: Limits)
    requires EndsAt(p, q, error, measure, limits)
    ensures KeepsNewest(p, q)
  {
    var i := FirstFit(p, q, error, measure, limits);
    CandidatesKeepNewest(p, Candidates(p)[i]);
  }

  lemma NewestOfSame(p: Projection, sized: Projection, q: Projection)
    requires q == sized || KeepsNewest(sized, q)
    requires sized.memories == p.memories && sized.transcript == p.transcript
    ensures KeepsNewest(p, q)
  {
  }

  lemma SomeIsLeft(start: Projection, groups: seq<Group>, p: Projection)
    requires Grouping(start.transcript) == Ok(groups)
    requires Required(p) == Required(start) && KeepsNewest(start, p)
    ensures p.transcript == Flatten(Groups(p)) && IsSuffix(Groups(p), groups) && (Groups(p) == [] ==> groups == [])
  {
    NewestIsRequired(start, groups);
    NewestIsRequired(p, Groups(p));
  }

  lemma BudgetsLeaveMessages(messages: seq<Message>, first: nat, limit: int, tokens: Group -> nat, start: Projection,
                             p: Projection)
    requires KeepsMessages(messages, first, start.transcript, limit, tokens)
    requires Required(p) == Required(start) && KeepsNewest(start, p)
    ensures exists next :: KeepsMessages(messages, next, p.transcript, limit, tokens)
  {
    KeptIsCounted(messages, first, start.transcript, limit, tokens);
    SomeIsLeft(start, Grouping(messages).value[first..], p);
    CutMessages(messages, first, Groups(p), limit, tokens);
  }

  lemma BudgetsLeaveMemories(timeline: seq<MemoryProjection>, memories: seq<MemoryProjection>,
                             kept: seq<MemoryProjection>, limit: int)
    requires KeepsMemories(timeline, memories, limit) && IsSuffix(kept, memories)
    ensures IsSuffix(kept, timeline) && (limit > 0 && kept != [] ==> MemoryTokens(kept) <= limit)
  {
    if limit > 0 && kept != [] {
      FewerMemoriesCostLess(memories, kept, limit);
    }
  }

  lemma BudgetsLeave(input: BuildInput, budget: Budget, r: Renderer, start: Projection, first: nat, p: Projection)
    requires IsTrimmed(input, budget, r, start, first)
    requires Required(p) == Required(start) && KeepsNewest(start, p)
    ensures IsLeft(input, budget, r, p)
  {
    BudgetsLeaveMessages(input.messages, first, budget.transcript, r.tokens, start, p);
    TrimmedKeepsRequired(input, start.memories, first, start.transcript, budget.transcript, r.tokens);
    BudgetsLeaveMemories(TimelineOf(input, r), start.memories, p.memories, budget.memory);
  }

  ghost predicate FirstTell(input: BuildInput, memory: Retention, transcript: Retention, reasons: seq<Reason>) {
    && (DefinitionFallback in reasons <==>
        input.gameDefinition.None? || (input.envelope.target.definitionId != "" && input.agentDefinition.None?))
    && (MemoryBudgetExceeded in reasons <==> memory.dropped > 0)
    && (TranscriptBudgetExceeded in reasons <==> transcript.dropped > 0)
    && forall r | r in reasons :: r in {DefinitionFallback, MemoryBudgetExceeded, TranscriptBudgetExceeded}
  }

  // The reasons known before the budgets that are shared by the sections.
  method FirstReasons(input: BuildInput, memory: Retention, transcript: Retention) returns (reasons: seq<Reason>)
    ensures FirstTell(input, memory, transcript, reasons)
  {
    reasons := [];
    if input.gameDefinition.None? || (input.envelope.target.definitionId != "" && input.agentDefinition.None?) {
      reasons := reasons + [DefinitionFallback];
    }
    if memory.dropped > 0 {
      reasons := reasons + [MemoryBudgetExceeded];
    }
    if transcript.dropped > 0 {
      reasons := reasons + [TranscriptBudgetExceeded];
    }
  }

  // The reasons name dropped memories, dropped messages and definitions that are missing, and nothing else of these.
  ghost predicate ReasonsTell(input: BuildInput, report: Report) {
    && (MemoryBudgetExceeded in report.reasons <==> report.memory.dropped > 0)
    && (TranscriptBudgetExceeded in report.reasons <==> report.transcript.dropped > 0)
    && (ContextFactsBudgetExceeded in report.reasons <==> FactsSection in report.cropped)
    && (EventBudgetExceeded in report.reasons <==> EventSection in report.cropped)
    && (ObservationBudgetExceeded in report.reasons <==> ObservationSection in report.cropped)
    && (GameSection in report.cropped || AgentSection in report.cropped ==> DefinitionBudgetExceeded in report.reasons)
    && (DefinitionFallback in report.reasons <==>
        input.gameDefinition.None? || (input.envelope.target.definitionId != "" && input.agentDefinition.None?))
  }

  lemma EarlyCropsNeither(p: Projection, c: Costs, limits: Limits)
    ensures MemorySection !in EarlyCropped(p, c, limits) && TranscriptSection !in EarlyCropped(p, c, limits)
  {
  }

  lemma CropsAre(start: Projection, p: Projection, c: Costs, limits: Limits)
    ensures MemorySection in CroppedBy(start, p, c, limits) <==> p.memories != start.memories
    ensures TranscriptSection in CroppedBy(start, p, c, limits) <==> p.transcript != start.transcript
  {
    EarlyCropsNeither(start, c, limits);
    var sized := Sections(start, c, limits);
    assert MemorySection in Changed(sized, p) <==> Differs(sized, p, MemorySection);
    assert TranscriptSection in Changed(sized, p) <==> Differs(sized, p, TranscriptSection);
  }

  lemma FewerIffDiffers<T>(left: seq<T>, all: seq<T>)
    requires IsSuffix(left, all)
    ensures left != all <==> |left| < |all|
  {
  }

  lemma DropsAreCropped(start: Projection, p: Projection, c: Costs, limits: Limits)
    requires IsSuffix(p.memories, start.memories) && IsSuffix(p.transcript, start.transcript)
    ensures MemorySection in CroppedBy(start, p, c, limits) <==> |p.memories| < |start.memories|
    ensures TranscriptSection in CroppedBy(start, p, c, limits) <==> |p.transcript| < |start.transcript|
  {
    CropsAre(start, p, c, limits);
    FewerIffDiffers(p.memories, start.memories);
    FewerIffDiffers(p.transcript, start.transcript);
  }

  lemma FlattenedSuffix(groups: seq<Group>, left: seq<Group>)
    requires IsSuffix(left, groups)
    ensures IsSuffix(Flatten(left), Flatten(groups))
  {
    var n := |groups| - |left|;
    assert groups == groups[..n] + left;
    FlattenOfJoin(groups[..n], left);
  }

  lemma NewestMessages(start: Projection, p: Projection)
    requires KeepsNewest(start, p) && Grouping(start.transcript).Ok?
    ensures IsSuffix(p.transcript, start.transcript)
  {
    if p.transcript != start.transcript {
      FlattenedSuffix(Groups(start), Groups(p));
    }
  }

  lemma ReasonsAdd(input: BuildInput, reasons: seq<Reason>, memory: Retention, transcript: Retention, report: Report)
    requires FirstTell(input, memory, transcript, reasons)
    requires Accounted((set x | x in reasons), report.reasons, report.cropped)
    requires MemorySection in report.cropped <==> report.memory.retained < memory.retained
    requires TranscriptSection in report.cropped <==> report.transcript.retained < transcript.retained
    requires report.memory.retained <= memory.retained && report.transcript.retained <= transcript.retained
    requires report.memory.retained + report.memory.dropped == memory.retained + memory.dropped
    requires report.transcript.retained + report.transcript.dropped == transcript.retained + transcript.dropped
    ensures ReasonsTell(input, report)
  {
  }

  // A build is refused exactly for its transcript.  Otherwise the newest memories and groups that fit their own
  // limits go through the shared budgets, which leave the newest of them and all that is required, and whatever
  // is dropped on the way is counted.
  method Build(input: BuildInput, budget: Budget, r: Renderer)
    returns (result: BuildResult, ghost start: Projection, ghost first: nat)
    ensures TranscriptFault(input.messages, budget.transcript, r.tokens)
         == if result.Refused? then Some(result.fault) else None
    ensures result.Refused? ==>
      && result.report.transcript == Retention(0, if result.fault == LatestGroupOverBudget then |input.messages| else 0)
      && result.report.memory == Retention(0, 0) && result.report.cropped == {}
      && result.report.reasons == if result.fault == LatestGroupOverBudget
                                  then [TranscriptBudgetExceeded, RequiredContextOverBudget] else []
    ensures result.Built? ==> IsTrimmed(input, budget, r, start, first)
    ensures result.Built? ==>
      Settles(start, result.projection, result.error, r.costs, r.measure, budget.limits)
    ensures result.Built? ==>
      IsLeft(input, budget, r, result.projection) && IsTimely(input, r, result.projection)
    ensures result.Built? ==> IsCounted(input, r, result.projection, result.report)
    ensures result.Built? ==> ReasonsTell(input, result.report)
    ensures result.Built? ==>
      result.report.cropped == CroppedBy(start, result.projection, r.costs, budget.limits)
    ensures result.Built? ==>
      (RequiredContextOverBudget in result.report.reasons <==> result.error.Some? && result.error != Some(RenderFailed))
  {
    var memories, memoryReport := TrimmedMemories(input, budget.memory, r);
    var transcript, transcriptReport;
    transcript, transcriptReport, first := ProjectCurrentTurnTranscript(input.messages, budget.transcript, r.tokens);
    if transcript.Err? {
      start := ProjectionOf(input, [], []);
      return Refused(transcript.error, RefusalReport(transcript.error, transcriptReport)), start, first;
    }
    var projection := ProjectionOf(input, memories, transcript.value);
    start := projection;
    var reasons := FirstReasons(input, memoryReport, transcriptReport);
    var left, report, error := WithinBudgets(projection, memoryReport, transcriptReport, reasons, r, budget.limits);
    SettledKeepsNewest(start, left, error, r.costs, r.measure, budget.limits);
    BudgetsLeave(input, budget, r, start, first, left);
    LeftIsCounted(input, budget, r, left, report);
    MemoriesAreTimely(input, r, left);
    KeptIsCounted(input.messages, first, transcript.value, budget.transcript, r.tokens);
    NewestMessages(start, left);
    DropsAreCropped(start, left, r.costs, budget.limits);
    ReasonsAdd(input, reasons, memoryReport, transcriptReport, report);
    result := Built(left, report, error);
  }

  method TrimmedMemories(input: BuildInput, limit: int, r: Renderer)
    returns (memories: seq<MemoryProjection>, report: Retention)
    ensures KeepsMemories(TimelineOf(input, r), memories, limit)
    ensures report.retained == |memories|
    ensures report.retained + report.dropped == |Past(input.records, CurrentGameTime(input))|
    ensures |TimelineOf(input, r)| == |Past(input.records, CurrentGameTime(input))|
  {
    memories, report := ProjectRecentMemories(input.records, limit, CurrentGameTime(input), r.project);
  }

  // The budgets that are shared by the sections.
  method WithinBudgets(p: Projection, memory: Retention, transcript: Retention, reasons: seq<Reason>, r: Renderer,
                       limits: Limits)
    returns (q: Projection, report: Report, error: Option<BudgetError>)
    requires memory.retained == |p.memories| && transcript.retained == |p.transcript|
    requires RequiredContextOverBudget !in reasons
    ensures Settles(p, q, error, r.costs, r.measure, limits) && Required(q) == Required(p)
    ensures report.memory.retained == |q.memories|
    ensures report.memory.retained + report.memory.dropped == memory.retained + memory.dropped
    ensures report.transcript.retained == |q.transcript|
    ensures report.transcript.retained + report.transcript.dropped == transcript.retained + transcript.dropped
    ensures report.cropped == CroppedBy(p, q, r.costs, limits)
    ensures Accounted((set x | x in reasons), report.reasons, report.cropped)
    ensures RequiredContextOverBudget in report.reasons <==> error.Some? && error != Some(RenderFailed)
  {
    var draft := new Draft(p, transcript.dropped, memory.dropped, reasons);
    error := draft.ApplyProjectionBudgets(r.costs, r.measure, limits);
    q := draft.View();
    report := Report(draft.memoryReport, draft.transcriptReport, draft.reasons, draft.cropped);
  }

  function RefusalReport(fault: TranscriptError, transcript: Retention): Report {
    Report(Retention(0, 0), transcript,
           if fault == LatestGroupOverBudget then [TranscriptBudgetExceeded, RequiredContextOverBudget] else [], {})
  }
}

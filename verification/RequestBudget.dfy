/**
 The budgets of one model request (runtime/internal/context/context.go:349-584).  Each section first gets
 its own limit; then the projection is degraded step by step until the rendered request fits.

 A section costs the tokens of its JSON text; the stages themselves work for any cost.  How large the rendered
 request is, and whether it renders at all, is an arbitrary function of the projection.
 */
module RequestBudget {
  import opened Common
  import opened Json
  import opened Messages
  import opened Transcript
  import opened Memory
  import opened Projection
  import opened DefinitionBudget
  import opened TokenEstimate
  import opened SectionText

  // A limit that is not positive is not enforced.
  datatype Limits = Limits(system: int, user: int, request: int, event: int, observation: int, facts: int,
                           definitions: int)

  predicate Over(cost: int, limit: int) {
    0 < limit < cost
  }

  /* ---- The size of a request ---- */

  datatype Size = Size(system: nat, user: nat, total: nat)

  datatype RenderError = RenderError

  type Measure = Projection -> Result<Size, RenderError>

  predicate Exceeds(size: Size, limits: Limits) {
    Over(size.system, limits.system) || Over(size.user, limits.user) || Over(size.total, limits.request)
  }

  predicate RequiredSectionExceeds(size: Size, limits: Limits) {
    Over(size.system, limits.system) || Over(size.user, limits.user)
  }

  // The loop also stops at a projection that does not render.
  predicate Stops(p: Projection, measure: Measure, limits: Limits) {
    measure(p).Err? || !Exceeds(measure(p).value, limits)
  }

  function StopTest(measure: Measure, limits: Limits): Projection -> bool {
    p => Stops(p, measure, limits)
  }

  // Where the loop stops: the first candidate that renders within the limits or not at all.
  function Chosen(p: Projection, measure: Measure, limits: Limits): Option<Projection> {
    FirstOf(Candidates(p), StopTest(measure, limits))
  }

  /* ---- The cost of a section ---- */

  datatype Costs = Costs(event: Event -> nat, observation: Observation -> nat, facts: seq<Fact> -> nat)

  // What the runtime measures: the tokens of the compact JSON text of the section.
  function TextCosts(t: Texts): Costs {
    Costs(e => Tokens(EventText(e, t)), o => Tokens(ObservationText(o, t)), facts => Tokens(FactsText(facts, t)))
  }

  /* ---- What the section limits leave ---- */

  const MARKED_PAYLOAD: JsonMap := map["_truncated" := Text("current event payload exceeded token limit")]
  const MARKED_STATE: JsonMap := map["_truncated" := Text("current observation state exceeded token limit")]

  function MarkedEvent(e: Event): Event {
    e.(payload := MARKED_PAYLOAD)
  }

  function MarkedObservation(o: Observation): Observation {
    Observation(o.shell, [], map[], if o.state == map[] then o.state else MARKED_STATE)
  }

  // The event as it is, else with a mark for its payload, else bare: the first that fits, or the last.
  function LimitedEvent(e: Event, c: Costs, limit: int): Event {
    if !Over(c.event(e), limit) then e
    else if !Over(c.event(MarkedEvent(e)), limit) then MarkedEvent(e)
    else BareEvent(e)
  }

  function LimitedObservation(o: Observation, c: Costs, limit: int): Observation {
    if !Over(c.observation(o), limit) then o
    else if !Over(c.observation(MarkedObservation(o)), limit) then MarkedObservation(o)
    else BareObservation(o)
  }

  function LimitedFacts(facts: seq<Fact>, c: Costs, limit: int): seq<Fact> {
    if !Over(c.facts(facts), limit) then facts else FactShells(facts)
  }

  function LimitedSections(p: Projection, c: Costs, limits: Limits): Projection {
    p.(event := LimitedEvent(p.event, c, limits.event),
       observation := LimitedObservation(p.observation, c, limits.observation),
       facts := LimitedFacts(p.facts, c, limits.facts))
  }

  datatype BudgetError = DefinitionsOverBudget | EventOverBudget | ObservationOverBudget | FactsOverBudget
                       | RenderFailed | RequestOverBudget

  // The first section that is over its limit even so.
  function SectionError(p: Projection, c: Costs, limits: Limits): Option<BudgetError> {
    var q := LimitedSections(p, c, limits);
    if Over(c.event(q.event), limits.event) then Some(EventOverBudget)
    else if Over(c.observation(q.observation), limits.observation) then Some(ObservationOverBudget)
    else if Over(c.facts(q.facts), limits.facts) then Some(FactsOverBudget)
    else None
  }

  // The projection after the first pass over the sections, which marks what it drops.
  function Capped(p: Projection, c: Costs, limits: Limits): Projection {
    p.(event := if Over(c.event(p.event), limits.event) then MarkedEvent(p.event) else p.event,
       observation := if Over(c.observation(p.observation), limits.observation)
           then MarkedObservation(p.observation) else p.observation,
       facts := LimitedFacts(p.facts, c, limits.facts))
  }

  predicate DefinitionsExceed(p: Projection, maxTokens: int) {
    Over(DefinitionTokens(Minimal(p.agentDefinition), Minimal(p.gameDefinition)), maxTokens)
  }

  // Definitions that are over their limit are refilled, the agent first; they stay minimal if not even that fits.
  function LimitedDefinitions(p: Projection, maxTokens: int): Projection {
    if maxTokens <= 0 then p
    else if DefinitionsExceed(p, maxTokens) then p.(agentDefinition := Minimal(p.agentDefinition),
                                                    gameDefinition := Minimal(p.gameDefinition))
    else
      var agent := Refilled(p.agentDefinition, Minimal(p.gameDefinition), maxTokens);
      p.(agentDefinition := agent, gameDefinition := Refilled(p.gameDefinition, agent, maxTokens))
  }

  // The error that ends the build before the request is sized.
  function EarlyError(p: Projection, c: Costs, limits: Limits): Option<BudgetError> {
    if SectionError(p, c, limits).Some? then SectionError(p, c, limits)
    else if DefinitionsExceed(p, limits.definitions) then Some(DefinitionsOverBudget)
    else None
  }

  // A second pass over capped sections drops the mark too where even the mark does not fit.
  lemma CappedThenLimited(p: Projection, c: Costs, limits: Limits)
    ensures var q := Capped(p, c, limits);
      && LimitedEvent(p.event, c, limits.event) ==
          (if Over(c.event(q.event), limits.event) then BareEvent(q.event) else q.event)
      && LimitedObservation(p.observation, c, limits.observation)
           == (if Over(c.observation(q.observation), limits.observation) then BareObservation(q.observation)
               else q.observation)
      && LimitedFacts(p.facts, c, limits.facts) == LimitedFacts(q.facts, c, limits.facts)
    ensures OverSections(Capped(p, c, limits), c, limits) <= OverSections(p, c, limits)
  {
  }

  /* ---- Which sections were cropped ---- */

  datatype Section = TranscriptSection | MemorySection | FactsSection | EventSection | ObservationSection | GameSection
                   | AgentSection

  datatype Reason = TranscriptBudgetExceeded | MemoryBudgetExceeded | ContextFactsBudgetExceeded | EventBudgetExceeded
                  | ObservationBudgetExceeded | DefinitionBudgetExceeded | RequiredContextOverBudget
                  | RequiredSectionOverBudget | DefinitionFallback

  function CropReason(s: Section): (r: Reason)
    ensures r != RequiredContextOverBudget && r != RequiredSectionOverBudget
  {
    match s
    case TranscriptSection => TranscriptBudgetExceeded
    case MemorySection => MemoryBudgetExceeded
    case FactsSection => ContextFactsBudgetExceeded
    case EventSection => EventBudgetExceeded
    case ObservationSection => ObservationBudgetExceeded
    case GameSection => DefinitionBudgetExceeded
    case AgentSection => DefinitionBudgetExceeded
  }

  // Which reasons are given, section by section.
  ghost predicate Accounted(noted: set<Reason>, reasons: seq<Reason>, cropped: set<Section>) {
    && (TranscriptBudgetExceeded in reasons <==> TranscriptBudgetExceeded in noted || TranscriptSection in cropped)
    && (MemoryBudgetExceeded in reasons <==> MemoryBudgetExceeded in noted || MemorySection in cropped)
    && (ContextFactsBudgetExceeded in reasons <==> ContextFactsBudgetExceeded in noted || FactsSection in cropped)
    && (EventBudgetExceeded in reasons <==> EventBudgetExceeded in noted || EventSection in cropped)
    && (ObservationBudgetExceeded in reasons <==> ObservationBudgetExceeded in noted || ObservationSection in cropped)
    && (DefinitionFallback in reasons <==> DefinitionFallback in noted)
    && (DefinitionBudgetExceeded in noted || GameSection in cropped || AgentSection in cropped ==>
        DefinitionBudgetExceeded in reasons)
  }

  function SectionOf(cut: Cut): Section {
    match cut
    case OldestGroup => TranscriptSection
    case OldestMemory => MemorySection
    case FactDetails => FactsSection
    case EventPayload => EventSection
    case ObservationDetails => ObservationSection
    case GameDetails => GameSection
    case AgentDetails => AgentSection
  }

  // Whether section s differs between p and q.
  predicate Differs(p: Projection, q: Projection, s: Section) {
    match s
    case TranscriptSection => p.transcript != q.transcript
    case MemorySection => p.memories != q.memories
    case FactsSection => p.facts != q.facts
    case EventSection => p.event != q.event
    case ObservationSection => p.observation != q.observation
    case GameSection => p.gameDefinition != q.gameDefinition
    case AgentSection => p.agentDefinition != q.agentDefinition
  }

  // The sections in which p and q differ.
  function Changed(p: Projection, q: Projection): set<Section> {
    set s: Section | Differs(p, q, s)
  }

  lemma ChangedDefinitions(p: Projection, agent: Option<Definition>, game: Option<Definition>)
    ensures Changed(p, p.(agentDefinition := agent, gameDefinition := game))
         == (if agent != p.agentDefinition then {AgentSection} else {}) + (if game != p.gameDefinition
             then {GameSection} else {})
  {
  }

  // The sections that are over their own limit.
  function OverSections(p: Projection, c: Costs, limits: Limits): set<Section> {
    (if Over(c.event(p.event), limits.event) then {EventSection} else {})
    + (if Over(c.observation(p.observation), limits.observation) then {ObservationSection} else {})
    + (if Over(c.facts(p.facts), limits.facts) then {FactsSection} else {})
  }

  // What the stages before the last one crop.
  function EarlyCropped(p: Projection, c: Costs, limits: Limits): set<Section> {
    var defined := LimitedDefinitions(p, limits.definitions);
    Changed(p, defined) + OverSections(defined, c, limits)
  }

  // q came from p by cuts: a section that was cut is gone for good.
  predicate Reduced(p: Projection, q: Projection) {
    && p.envelope == q.envelope
    && (q.transcript == p.transcript || |q.transcript| < |p.transcript|)
    && (q.memories == p.memories || |q.memories| < |p.memories|)
    && (q.facts == p.facts || q.facts == FactShells(p.facts))
    && (q.event == p.event || q.event == BareEvent(p.event))
    && (q.observation == p.observation || q.observation == BareObservation(p.observation))
    && (q.gameDefinition == p.gameDefinition || q.gameDefinition == Minimal(p.gameDefinition))
    && (q.agentDefinition == p.agentDefinition || q.agentDefinition == Minimal(p.agentDefinition))
  }

  lemma ShellsTwice(facts: seq<Fact>)
    ensures FactShells(FactShells(facts)) == FactShells(facts)
  {
  }

  lemma FirstGroupIsSome(p: Projection)
    requires |Groups(p)| > 1
    ensures |p.transcript| == |Groups(p)[0]| + |Flatten(Groups(p)[1..])|
    ensures Groups(p)[0] != []
  {
  }

  lemma CutReduces(p: Projection, q: Projection, cut: Cut)
    requires Reduced(p, q) && Apply(q, cut) != q
    ensures Reduced(p, Apply(q, cut))
  {
    match cut
    case OldestGroup => FirstGroupIsSome(q);
    case FactDetails => ShellsTwice(p.facts);
    case GameDetails => MinimalTwice(p.gameDefinition);
    case AgentDetails => MinimalTwice(p.agentDefinition);
    case _ =>
  }

  lemma FactCutShows(p: Projection, q: Projection, s: Section)
    requires Reduced(p, q) && Apply(q, FactDetails) != q
    ensures Differs(p, Apply(q, FactDetails), s) <==> Differs(p, q, s) || s == SectionOf(FactDetails)
  {
    ShellsTwice(p.facts);
  }

  lemma EventCutShows(p: Projection, q: Projection, s: Section)
    requires Reduced(p, q) && Apply(q, EventPayload) != q
    ensures Differs(p, Apply(q, EventPayload), s) <==> Differs(p, q, s) || s == SectionOf(EventPayload)
  {
  }

  lemma ObservationCutShows(p: Projection, q: Projection, s: Section)
    requires Reduced(p, q) && Apply(q, ObservationDetails) != q
    ensures Differs(p, Apply(q, ObservationDetails), s) <==> Differs(p, q, s) || s == SectionOf(ObservationDetails)
  {
  }

  lemma GameCutShows(p: Projection, q: Projection, s: Section)
    requires Reduced(p, q) && Apply(q, GameDetails) != q
    ensures Differs(p, Apply(q, GameDetails), s) <==> Differs(p, q, s) || s == SectionOf(GameDetails)
  {
    MinimalTwice(p.gameDefinition);
  }

  lemma AgentCutShows(p: Projection, q: Projection, s: Section)
    requires Reduced(p, q) && Apply(q, AgentDetails) != q
    ensures Differs(p, Apply(q, AgentDetails), s) <==> Differs(p, q, s) || s == SectionOf(AgentDetails)
  {
    MinimalTwice(p.agentDefinition);
  }

  // A cut that does something shows in its own section and in no other, now and later.
  lemma CutShows(p: Projection, q: Projection, cut: Cut, s: Section)
    requires Reduced(p, q) && Apply(q, cut) != q
    ensures Differs(p, Apply(q, cut), s) <==> Differs(p, q, s) || s == SectionOf(cut)
  {
    match cut
    case OldestGroup => FirstGroupIsSome(q);
    case OldestMemory =>
    case FactDetails => FactCutShows(p, q, s);
    case EventPayload => EventCutShows(p, q, s);
    case ObservationDetails => ObservationCutShows(p, q, s);
    case GameDetails => GameCutShows(p, q, s);
    case AgentDetails => AgentCutShows(p, q, s);
  }

  /* ---- How long the loop can run ---- */

  function CanCut(p: Projection, cut: Cut): nat {
    if Apply(p, cut) == p then 0 else 1
  }

  // The cuts that are left.
  function Weight(p: Projection): nat {
    Older(Groups(p)) + |p.memories| + CanCut(p, FactDetails) + CanCut(p, EventPayload) + CanCut(p, ObservationDetails)
    + CanCut(p, GameDetails) + CanCut(p, AgentDetails)
  }

  // A cut leaves the other parts as they were and nothing of its own part.
  lemma CanCutAfter(p: Projection, d: Cut, c: Cut)
    requires c in PART_CUTS
    ensures CanCut(Apply(p, d), c) == if c == d then 0 else CanCut(p, c)
  {
    match c
    case FactDetails => ShellsTwice(p.facts);
    case EventPayload =>
    case ObservationDetails =>
    case GameDetails => MinimalTwice(p.gameDefinition);
    case AgentDetails => MinimalTwice(p.agentDefinition);
  }

  lemma CutLightens(p: Projection, cut: Cut)
    requires Apply(p, cut) != p
    ensures Weight(Apply(p, cut)) == Weight(p) - 1
  {
    CanCutAfter(p, cut, FactDetails);
    CanCutAfter(p, cut, EventPayload);
    CanCutAfter(p, cut, ObservationDetails);
    CanCutAfter(p, cut, GameDetails);
    CanCutAfter(p, cut, AgentDetails);
    WholesAfter(p, cut);
  }

  lemma WholesAfter(p: Projection, cut: Cut)
    requires Apply(p, cut) != p
    ensures Older(Groups(Apply(p, cut))) == Older(Groups(p)) - (if cut == OldestGroup then 1 else 0)
    ensures |Apply(p, cut).memories| == |p.memories| - (if cut == OldestMemory then 1 else 0)
  {
  }

  // The k-th cut is made when no earlier one does anything.
  lemma {:induction false} FirstChangeAt(p: Projection, cuts: seq<Cut>, k: nat)
    requires k <= |cuts| && forall i | 0 <= i < k :: Apply(p, cuts[i]) == p
    ensures k == |cuts| ==> FirstChange(p, cuts) == None
    ensures k < |cuts| && Apply(p, cuts[k]) != p ==> FirstChange(p, cuts) == Some(Apply(p, cuts[k]))
  {
    if k > 0 {
      FirstChangeAt(p, cuts[1..], k - 1);
    }
  }

  /* ---- The loop ---- */

  // p was reached from start along the chain without passing a projection that is good.
  ghost predicate Follows(start: Projection, p: Projection, good: Projection -> bool) {
    Required(p) == Required(start) && FirstOf(Candidates(p), good) == FirstOf(Candidates(start), good)
  }

  // The loop ends at p: at the first candidate at which it stops, else at what is required.
  ghost predicate EndsAt(start: Projection, p: Projection, error: Option<BudgetError>, measure: Measure,
                         limits: Limits) {
    var chosen := Chosen(start, measure, limits);
    if chosen.None? then p == Required(start) && error == Some(RequestOverBudget)
    else p == chosen.value && error == if measure(p).Err? then Some(RenderFailed) else None
  }

  lemma FollowsNext(start: Projection, p: Projection, measure: Measure, limits: Limits)
    requires Follows(start, p, StopTest(measure, limits))
    ensures measure(p).Err? ==> EndsAt(start, p, Some(RenderFailed), measure, limits)
    ensures measure(p).Ok? && !Exceeds(measure(p).value, limits) ==> EndsAt(start, p, None, measure, limits)
    ensures !Stops(p, measure, limits) && Degrade(p).None? ==>
      EndsAt(start, p, Some(RequestOverBudget), measure, limits)
    ensures !Stops(p, measure, limits) && Degrade(p).Some? ==>
      Follows(start, Degrade(p).value, StopTest(measure, limits))
  {
    DegradeFollowsChain(p, StopTest(measure, limits));
  }

  // The projection when the request is sized first.
  function Sections(p: Projection, c: Costs, limits: Limits): Projection {
    LimitedSections(LimitedDefinitions(p, limits.definitions), c, limits)
  }

  // What all budgets make of p: sections that cannot be held to their limits end the build, else the loop does.
  ghost predicate Settles(p: Projection, q: Projection, error: Option<BudgetError>, c: Costs, measure: Measure,
                          limits: Limits) {
    && Reduced(Sections(p, c, limits), q)
    && if EarlyError(p, c, limits).Some? then q == Sections(p, c, limits) && error == EarlyError(p, c, limits)
       else EndsAt(Sections(p, c, limits), q, error, measure, limits)
  }

  // What all budgets crop on the way from p to q.
  function CroppedBy(p: Projection, q: Projection, c: Costs, limits: Limits): set<Section> {
    EarlyCropped(p, c, limits) + Changed(Sections(p, c, limits), q)
  }

  // The sections that are cropped at p are those that were cropped at start and those that have changed.
  ghost predicate Marks(start: Projection, before: set<Section>, p: Projection, cropped: set<Section>) {
    Reduced(start, p) && cropped == before + Changed(start, p)
  }

  lemma MarksNext(start: Projection, before: set<Section>, p: Projection, cropped: set<Section>, cut: Cut)
    requires Marks(start, before, p, cropped) && Apply(p, cut) != p
    ensures Marks(start, before, Apply(p, cut), cropped + {SectionOf(cut)})
  {
    CutReduces(start, p, cut);
    forall s
      ensures s in Changed(start, Apply(p, cut)) <==> s in Changed(start, p) + {SectionOf(cut)}
    {
      CutShows(start, p, cut, s);
    }
    assert Changed(start, Apply(p, cut)) == Changed(start, p) + {SectionOf(cut)};
  }

  // The projection under construction together with the report about it.
  class Draft {
    const envelope: Envelope
    var gameDefinition: Option<Definition>
    var agentDefinition: Option<Definition>
    var event: Event
    var facts: seq<Fact>
    var observation: Observation
    var memories: seq<MemoryProjection>
    var transcript: seq<Message>

    var transcriptReport: Retention
    var memoryReport: Retention
    var reasons: seq<Reason>
    var cropped: set<Section>

    // The reasons that are known before the budgets.
    ghost const noted: set<Reason>

    constructor (p: Projection, transcriptDropped: nat, memoryDropped: nat, reasons: seq<Reason>)
      ensures View() == p && Valid() && cropped == {} && this.reasons == reasons
      ensures Accounts() && noted == set r | r in reasons
      ensures transcriptReport == Retention(|p.transcript|, transcriptDropped)
      ensures memoryReport == Retention(|p.memories|, memoryDropped)
    {
      envelope := p.envelope;
      gameDefinition, agentDefinition, event, facts := p.gameDefinition, p.agentDefinition, p.event, p.facts;
      observation, memories, transcript := p.observation, p.memories, p.transcript;
      transcriptReport := Retention(|p.transcript|, transcriptDropped);
      memoryReport := Retention(|p.memories|, memoryDropped);
      this.reasons, cropped := reasons, {};
      noted := set r | r in reasons;
    }

    function View(): Projection
      reads this`gameDefinition, this`agentDefinition, this`event, this`facts, this`observation, this`memories,
          this`transcript
    {
      Projection(envelope, gameDefinition, agentDefinition, event, facts, observation, memories, transcript)
    }

    // The report counts what is retained.
    ghost predicate Valid()
      reads this`transcript, this`memories, this`transcriptReport, this`memoryReport
    {
      transcriptReport.retained == |transcript| && memoryReport.retained == |memories|
    }

    // The reasons that are given are those that were known and those of the sections that were cropped.
    ghost predicate Accounts()
      reads this`reasons, this`cropped
    {
      Accounted(noted, reasons, cropped)
    }

    // Retained and dropped together.
    ghost function Counted(): (nat, nat)
      reads this`transcriptReport, this`memoryReport
    {
      (transcriptReport.retained + transcriptReport.dropped, memoryReport.retained + memoryReport.dropped)
    }

    method AddReason(reason: Reason)
      modifies this`reasons
      ensures reasons == if reason in old(reasons) then old(reasons) else old(reasons) + [reason]
      ensures reason == RequiredContextOverBudget || reason == RequiredSectionOverBudget ==>
        old(Accounts()) ==> Accounts()
    {
      if reason !in reasons {
        reasons := reasons + [reason];
      }
    }

    method Crop(section: Section)
      modifies this`reasons, this`cropped
      ensures cropped == old(cropped) + {section}
      ensures old(Accounts()) ==> Accounts()
      ensures RequiredContextOverBudget in reasons <==> RequiredContextOverBudget in old(reasons)
      ensures reasons == if CropReason(section) in old(reasons) then old(reasons)
          else old(reasons) + [CropReason(section)]
    {
      AddReason(CropReason(section));
      cropped := cropped + {section};
    }

    method DropOldestTranscriptGroup() returns (changed: bool)
      requires Valid()
      modifies this`transcript, this`transcriptReport
      ensures Valid() && Counted() == old(Counted())
      ensures View() == Apply(old(View()), OldestGroup) && (changed <==> View() != old(View()))
    {
      if transcript == [] {
        return false;
      }
      var groups := TranscriptCausalGroups(transcript);
      if groups.Err? || |groups.value| <= 1 {
        return false;
      }
      FirstGroupIsSome(View());
      var dropped := |groups.value[0]|;
      transcript := Flatten(groups.value[1..]);
      transcriptReport := Retention(|transcript|, transcriptReport.dropped + dropped);
      changed := true;
    }

    method DropOldestRecentMemory() returns (changed: bool)
      requires Valid()
      modifies this`memories, this`memoryReport
      ensures Valid() && Counted() == old(Counted())
      ensures View() == Apply(old(View()), OldestMemory) && (changed <==> View() != old(View()))
    {
      if memories == [] {
        return false;
      }
      assert |memories[1..]| != |memories|;
      memories := memories[1..];
      memoryReport := Retention(|memories|, memoryReport.dropped + 1);
      changed := true;
    }

    method DropContextFactOptionalFields() returns (changed: bool)
      modifies this`facts
      ensures View() == Apply(old(View()), FactDetails) && (changed <==> View() != old(View()))
    {
      changed := false;
      for i := 0 to |facts|
        invariant |facts| == |old(facts)|
        invariant forall k | 0 <= k < i :: facts[k] == FactShell(old(facts)[k])
        invariant forall k | i <= k < |facts| :: facts[k] == old(facts)[k]
        invariant changed <==> facts != old(facts)
      {
        ghost var before := facts;
        if facts[i].text != "" && facts[i].text != TRUNCATED_MARKER {
          facts := facts[i := facts[i].(text := TRUNCATED_MARKER)];
          changed := true;
        }
        if facts[i].attributes != map[] {
          facts := facts[i := facts[i].(attributes := map[])];
          changed := true;
        }
        assert facts[i] == FactShell(before[i]) && before[i] == old(facts)[i];
        assert facts[i] == before[i] ==> facts == before;
      }
      assert facts == FactShells(old(facts));
    }

    method DropEventPayload() returns (changed: bool)
      modifies this`event
      ensures View() == Apply(old(View()), EventPayload) && (changed <==> View() != old(View()))
    {
      if event.payload == map[] {
        return false;
      }
      event := event.(payload := map[]);
      changed := true;
    }

    method DropObservationOptionalFields() returns (changed: bool)
      modifies this`observation
      ensures View() == Apply(old(View()), ObservationDetails) && (changed <==> View() != old(View()))
    {
      changed := observation.nearbyEntities != [] || observation.extensions != map[] || observation.state != map[];
      observation := observation.(nearbyEntities := [], extensions := map[], state := map[]);
    }

    method DropGameDefinitionOptionalFields() returns (changed: bool)
      modifies this`gameDefinition
      ensures View() == Apply(old(View()), GameDetails) && (changed <==> View() != old(View()))
    {
      var minimal := Minimal(gameDefinition);
      changed := gameDefinition != minimal;
      if changed {
        gameDefinition := minimal;
      }
    }

    method DropAgentDefinitionOptionalFields() returns (changed: bool)
      modifies this`agentDefinition
      ensures View() == Apply(old(View()), AgentDetails) && (changed <==> View() != old(View()))
    {
      var minimal := Minimal(agentDefinition);
      changed := agentDefinition != minimal;
      if changed {
        agentDefinition := minimal;
      }
    }

    // Makes the first cut that changes the projection.
    method DropNext() returns (cut: Option<Cut>)
      requires Valid()
      modifies this
      ensures Valid() && Counted() == old(Counted()) && cropped == old(cropped) && reasons == old(reasons)
      ensures Degrade(old(View())) == if cut.Some? then Some(View()) else None
      ensures View() == old(View()) <==> cut.None?
      ensures cut.Some? ==> View() == Apply(old(View()), cut.value)
    {
      ghost var p := View();
      var k := 0;
      while k < |ALL_CUTS|
        invariant 0 <= k <= |ALL_CUTS|
        invariant View() == p && cropped == old(cropped) && reasons == old(reasons)
        invariant Valid() && Counted() == old(Counted())
        invariant forall i | 0 <= i < k :: Apply(p, ALL_CUTS[i]) == p
      {
        FirstChangeAt(p, ALL_CUTS, k);
        var changed := Drop(ALL_CUTS[k]);
        if changed {
          return Some(ALL_CUTS[k]);
        }
        k := k + 1;
      }
      FirstChangeAt(p, ALL_CUTS, k);
      cut := None;
    }

    method Drop(cut: Cut) returns (changed: bool)
      requires Valid()
      modifies this
      ensures Valid() && Counted() == old(Counted())
      ensures cropped == old(cropped) && reasons == old(reasons)
      ensures View() == Apply(old(View()), cut) && (changed <==> View() != old(View()))
    {
      match cut {
        case OldestGroup => changed := DropOldestTranscriptGroup();
        case OldestMemory => changed := DropOldestRecentMemory();
        case FactDetails => changed := DropContextFactOptionalFields();
        case EventPayload => changed := DropEventPayload();
        case ObservationDetails => changed := DropObservationOptionalFields();
        case GameDetails => changed := DropGameDefinitionOptionalFields();
        case AgentDetails => changed := DropAgentDefinitionOptionalFields();
      }
    }

    // Degrades the projection to the first candidate that fits, or down to what is required.
    method EnforceGlobalRequestBudget(measure: Measure, limits: Limits) returns (error: Option<BudgetError>)
      requires Valid()
      modifies this
      ensures Valid() && Counted() == old(Counted())
      ensures Marks(old(View()), old(cropped), View(), cropped)
      ensures EndsAt(old(View()), View(), error, measure, limits) && Required(View()) == Required(old(View()))
      ensures old(Accounts()) ==> Accounts()
      ensures RequiredContextOverBudget in reasons <==>
        RequiredContextOverBudget in old(reasons) || error == Some(RequestOverBudget)
    {
      ghost var start := View();
      while true
        invariant Valid() && Counted() == old(Counted())
        invariant Follows(start, View(), StopTest(measure, limits)) && Marks(start, old(cropped), View(), cropped)
        invariant old(Accounts()) ==> Accounts()
        invariant RequiredContextOverBudget in reasons <==> RequiredContextOverBudget in old(reasons)
        decreases Weight(View())
      {
        ghost var p := View();
        FollowsNext(start, p, measure, limits);
        var size := measure(View());
        if size.Err? {
          return Some(RenderFailed);
        }
        if !Exceeds(size.value, limits) {
          return None;
        }
        var degraded := DegradeOnce(start, old(cropped));
        if !degraded {
          GiveUp(size.value, limits);
          return Some(RequestOverBudget);
        }
      }
    }

    // One round of the loop: a cut and the mark for it.
    method DegradeOnce(ghost start: Projection, ghost before: set<Section>) returns (degraded: bool)
      requires Valid() && Marks(start, before, View(), cropped)
      modifies this
      ensures Valid() && Marks(start, before, View(), cropped) && Counted() == old(Counted())
      ensures Degrade(old(View())) == if degraded then Some(View()) else None
      ensures degraded ==> Weight(View()) < Weight(old(View()))
      ensures !degraded ==> View() == old(View())
      ensures old(Accounts()) ==> Accounts()
      ensures RequiredContextOverBudget in reasons <==> RequiredContextOverBudget in old(reasons)
    {
      ghost var p := View();
      var cut := DropNext();
      degraded := cut.Some?;
      if degraded {
        CutLightens(p, cut.value);
        MarksNext(start, before, p, cropped, cut.value);
        Crop(SectionOf(cut.value));
      }
    }

    method GiveUp(size: Size, limits: Limits)
      modifies this`reasons
      ensures old(Accounts()) ==> Accounts()
      ensures RequiredContextOverBudget in reasons
      ensures RequiredSectionExceeds(size, limits) ==> RequiredSectionOverBudget in reasons
    {
      AddReason(RequiredContextOverBudget);
      if RequiredSectionExceeds(size, limits) {
        AddReason(RequiredSectionOverBudget);
      }
    }

    /* ---- The section stage ---- */

    method CapEvent(c: Costs, limit: int)
      modifies this`event, this`reasons, this`cropped
      ensures event == if Over(c.event(old(event)), limit) then MarkedEvent(old(event)) else old(event)
      ensures cropped == if Over(c.event(old(event)), limit) then old(cropped) + {EventSection} else old(cropped)
      ensures old(Accounts()) ==> Accounts()
      ensures RequiredContextOverBudget in reasons <==> RequiredContextOverBudget in old(reasons)
    {
      if Over(c.event(event), limit) {
        event := event.(payload := MARKED_PAYLOAD);
        Crop(EventSection);
      }
    }

    method CapObservation(c: Costs, limit: int)
      modifies this`observation, this`reasons, this`cropped
      ensures observation == if Over(c.observation(old(observation)), limit)
          then MarkedObservation(old(observation)) else old(observation)
      ensures cropped == if Over(c.observation(old(observation)), limit) then old(cropped) + {ObservationSection}
          else old(cropped)
      ensures old(Accounts()) ==> Accounts()
      ensures RequiredContextOverBudget in reasons <==> RequiredContextOverBudget in old(reasons)
    {
      if Over(c.observation(observation), limit) {
        observation := observation.(nearbyEntities := [], extensions := map[]);
        if observation.state != map[] {
          observation := observation.(state := MARKED_STATE);
        }
        Crop(ObservationSection);
      }
    }

    method CapFacts(c: Costs, limit: int)
      modifies this`facts, this`reasons, this`cropped
      ensures facts == LimitedFacts(old(facts), c, limit)
      ensures cropped == if Over(c.facts(old(facts)), limit) then old(cropped) + {FactsSection} else old(cropped)
      ensures old(Accounts()) ==> Accounts()
      ensures RequiredContextOverBudget in reasons <==> RequiredContextOverBudget in old(reasons)
    {
      if Over(c.facts(facts), limit) {
        var _ := DropContextFactOptionalFields();
        Crop(FactsSection);
      }
    }

    // The required content of a section is over its limit.
    method ReportRequired(section: Section)
      modifies this`reasons, this`cropped
      ensures cropped == old(cropped) + {section}
      ensures old(Accounts()) ==> Accounts()
      ensures {RequiredContextOverBudget, RequiredSectionOverBudget} <= set r | r in reasons
    {
      Crop(section);
      AddReason(RequiredContextOverBudget);
      AddReason(RequiredSectionOverBudget);
    }

    method RequireEvent(c: Costs, limit: int) returns (over: bool)
      requires Over(c.event(event), limit) ==> EventSection in cropped
      modifies this`event, this`reasons, this`cropped
      ensures event == if Over(c.event(old(event)), limit) then BareEvent(old(event)) else old(event)
      ensures over <==> Over(c.event(event), limit)
      ensures cropped == old(cropped)
      ensures old(Accounts()) ==> Accounts()
      ensures RequiredContextOverBudget in reasons <==> over || RequiredContextOverBudget in old(reasons)
    {
      over := false;
      if Over(c.event(event), limit) {
        var changed := DropEventPayload();
        if changed {
          Crop(EventSection);
        }
        over := Over(c.event(event), limit);
        if over {
          ReportRequired(EventSection);
        }
      }
    }

    method RequireObservation(c: Costs, limit: int) returns (over: bool)
      requires Over(c.observation(observation), limit) ==> ObservationSection in cropped
      modifies this`observation, this`reasons, this`cropped
      ensures observation == if Over(c.observation(old(observation)), limit)
          then BareObservation(old(observation)) else old(observation)
      ensures over <==> Over(c.observation(observation), limit)
      ensures cropped == old(cropped)
      ensures old(Accounts()) ==> Accounts()
      ensures RequiredContextOverBudget in reasons <==> over || RequiredContextOverBudget in old(reasons)
    {
      over := false;
      if Over(c.observation(observation), limit) {
        var changed := DropObservationOptionalFields();
        if changed {
          Crop(ObservationSection);
        }
        over := Over(c.observation(observation), limit);
        if over {
          ReportRequired(ObservationSection);
        }
      }
    }

    method RequireFacts(c: Costs, limit: int) returns (over: bool)
      requires Over(c.facts(facts), limit) ==> FactsSection in cropped
      modifies this`facts, this`reasons, this`cropped
      ensures facts == LimitedFacts(old(facts), c, limit)
      ensures over <==> Over(c.facts(facts), limit)
      ensures cropped == old(cropped)
      ensures old(Accounts()) ==> Accounts()
      ensures RequiredContextOverBudget in reasons <==> over || RequiredContextOverBudget in old(reasons)
    {
      over := false;
      if Over(c.facts(facts), limit) {
        var changed := DropContextFactOptionalFields();
        if changed {
          Crop(FactsSection);
        }
        over := Over(c.facts(facts), limit);
        if over {
          ReportRequired(FactsSection);
        }
      }
    }

    method CapSections(c: Costs, limits: Limits)
      modifies this`event, this`observation, this`facts, this`reasons, this`cropped
      ensures View() == Capped(old(View()), c, limits)
      ensures cropped == old(cropped) + OverSections(old(View()), c, limits)
      ensures old(Accounts()) ==> Accounts()
      ensures RequiredContextOverBudget in reasons <==> RequiredContextOverBudget in old(reasons)
    {
      CapEvent(c, limits.event);
      CapObservation(c, limits.observation);
      CapFacts(c, limits.facts);
    }

    method EnforceRequiredSectionBudgets(c: Costs, limits: Limits, ghost p: Projection)
      returns (error: Option<BudgetError>)
      requires event == Capped(p, c, limits).event && observation == Capped(p, c, limits).observation
      requires facts == Capped(p, c, limits).facts
      requires OverSections(p, c, limits) <= cropped
      modifies this`event, this`observation, this`facts, this`reasons, this`cropped
      ensures event == LimitedEvent(p.event, c, limits.event)
      ensures observation == LimitedObservation(p.observation, c, limits.observation)
      ensures facts == LimitedFacts(p.facts, c, limits.facts)
      ensures error == SectionError(p, c, limits)
      ensures cropped == old(cropped)
      ensures old(Accounts()) ==> Accounts()
      ensures RequiredContextOverBudget in reasons <==> error.Some? || RequiredContextOverBudget in old(reasons)
    {
      CappedThenLimited(p, c, limits);
      var eventOver := RequireEvent(c, limits.event);
      var observationOver := RequireObservation(c, limits.observation);
      var factsOver := RequireFacts(c, limits.facts);
      error := if eventOver then Some(EventOverBudget)
               else if observationOver then Some(ObservationOverBudget)
               else if factsOver then Some(FactsOverBudget) else None;
    }

    static method BudgetDefinitions(p: Projection, maxTokens: int) returns (r: Budgeted)
      ensures p.(agentDefinition := r.agent, gameDefinition := r.game) == LimitedDefinitions(p, maxTokens)
      ensures r.crop == DefinitionCrop(r.agent != p.agentDefinition, r.game != p.gameDefinition)
      ensures r.exceeded <==> DefinitionsExceed(p, maxTokens)
    {
      r := ApplyDefinitionBudget(p.agentDefinition, p.gameDefinition, maxTokens);
    }

    method LimitDefinitions(limits: Limits) returns (exceeded: bool)
      modifies this`gameDefinition, this`agentDefinition, this`reasons, this`cropped
      ensures View() == LimitedDefinitions(old(View()), limits.definitions)
      ensures exceeded <==> DefinitionsExceed(old(View()), limits.definitions)
      ensures cropped == old(cropped) + Changed(old(View()), View())
      ensures old(Accounts()) ==> Accounts()
      ensures RequiredContextOverBudget in reasons <==> exceeded || RequiredContextOverBudget in old(reasons)
    {
      var budgeted := BudgetDefinitions(View(), limits.definitions);
      ChangedDefinitions(View(), budgeted.agent, budgeted.game);
      agentDefinition, gameDefinition := budgeted.agent, budgeted.game;
      exceeded := budgeted.exceeded;
      ReportDefinitions(budgeted.crop, exceeded);
    }

    method ReportDefinitions(crop: DefinitionCrop, exceeded: bool)
      modifies this`reasons, this`cropped
      ensures cropped == old(cropped) + ((if crop.agent then {AgentSection} else {}) + (if crop.game
          then {GameSection} else {}))
      ensures old(Accounts()) ==> Accounts()
      ensures RequiredContextOverBudget in reasons <==> exceeded || RequiredContextOverBudget in old(reasons)
    {
      if crop.agent {
        Crop(AgentSection);
      }
      if crop.game {
        Crop(GameSection);
      }
      if exceeded {
        AddReason(DefinitionBudgetExceeded);
        AddReason(RequiredContextOverBudget);
      }
    }

    // The stages before the request is sized.
    method ApplySectionBudgets(c: Costs, limits: Limits) returns (error: Option<BudgetError>)
      modifies this`gameDefinition, this`agentDefinition, this`event, this`observation, this`facts, this`reasons,
               this`cropped
      ensures View() == Sections(old(View()), c, limits)
      ensures error == EarlyError(old(View()), c, limits)
      ensures cropped == old(cropped) + EarlyCropped(old(View()), c, limits)
      ensures old(Accounts()) ==> Accounts()
      ensures RequiredContextOverBudget in reasons <==> error.Some? || RequiredContextOverBudget in old(reasons)
    {
      var exceeded := LimitDefinitions(limits);
      ghost var defined := View();
      CapSections(c, limits);
      var sectionError := EnforceRequiredSectionBudgets(c, limits, defined);
      error := if sectionError.Some? then sectionError else if exceeded then Some(DefinitionsOverBudget) else None;
    }

    // All stages: the sections within their own limits, then the whole request.
    method ApplyProjectionBudgets(c: Costs, measure: Measure, limits: Limits) returns (error: Option<BudgetError>)
      requires Valid()
      modifies this
      ensures Valid() && Counted() == old(Counted())
      ensures Required(View()) == Required(old(View()))
      ensures Settles(old(View()), View(), error, c, measure, limits)
      ensures cropped == old(cropped) + CroppedBy(old(View()), View(), c, limits)
      ensures old(Accounts()) ==> Accounts()
      ensures RequiredContextOverBudget in reasons <==>
        RequiredContextOverBudget in old(reasons) || (error.Some? && error.value != RenderFailed)
    {
      StagesKeepRequired(View(), c, limits);
      error := ApplySectionBudgets(c, limits);
      if error.None? {
        error := EnforceGlobalRequestBudget(measure, limits);
      }
    }
  }

  /* ---- What the stages guarantee ---- */

  // The size is within every limit that is set.
  ghost predicate WithinLimits(size: Size, limits: Limits) {
    && (limits.system > 0 ==> size.system <= limits.system)
    && (limits.user > 0 ==> size.user <= limits.user)
    && (limits.request > 0 ==> size.total <= limits.request)
  }

  lemma {:induction false} FirstOfIsFirst(ps: seq<Projection>, good: Projection -> bool) returns (i: nat)
    ensures i <= |ps| && forall j | 0 <= j < i :: !good(ps[j])
    ensures if i == |ps| then FirstOf(ps, good) == None else good(ps[i]) && FirstOf(ps, good) == Some(ps[i])
  {
    if ps == [] || good(ps[0]) {
      i := 0;
    } else {
      var k := FirstOfIsFirst(ps[1..], good);
      i := k + 1;
    }
  }

  // The loop settles on a candidate that fits after finding every fuller one too large, and it reports the
  // budget as exceeded only when every candidate, down to the required content, is too large.
  lemma FirstFit(p: Projection, q: Projection, error: Option<BudgetError>, measure: Measure, limits: Limits)
    returns (i: nat)
    requires EndsAt(p, q, error, measure, limits)
    ensures i < |Candidates(p)| && Candidates(p)[i] == q
    ensures forall j | 0 <= j < i ::
      measure(Candidates(p)[j]).Ok? && !WithinLimits(measure(Candidates(p)[j]).value, limits)
    ensures error.None? <==> measure(q).Ok? && WithinLimits(measure(q).value, limits)
    ensures error == Some(RenderFailed) <==> measure(q).Err?
    ensures error == Some(RequestOverBudget) ==> i == |Candidates(p)| - 1 && q == Required(p)
  {
    var ps, good := Candidates(p), StopTest(measure, limits);
    i := FirstOfIsFirst(ps, good);
    assert forall j | 0 <= j < i :: !good(ps[j]);
    if i == |ps| {
      i := |ps| - 1;
      assert !good(ps[i]);
    }
  }

  // No projection that the loop settles on has cut anything out of order, and the newest of memories and groups stay.
  lemma SettledIsInOrder(p: Projection, q: Projection, error: Option<BudgetError>, measure: Measure, limits: Limits)
    requires EndsAt(p, q, error, measure, limits)
    ensures CutInOrder(p, q) && KeepsNewest(p, q)
  {
    var i := FirstFit(p, q, error, measure, limits);
    CandidatesAreInOrder(p, i);
    CandidatesKeepNewest(p, q);
  }

  // An event over its limit has its payload replaced by a mark or, where even that is too much, dropped.
  lemma LimitedEventTells(e: Event, c: Costs, limit: int)
    ensures var l := LimitedEvent(e, c, limit);
      var marked := Event(e.shell, map["_truncated" := Text("current event payload exceeded token limit")]);
      if limit <= 0 || c.event(e) <= limit then l == e
      else if c.event(marked) <= limit then l == marked
      else l == Event(e.shell, map[])
  {
  }

  // An observation over its limit loses entities and extensions, and its state is replaced by a mark or dropped.
  lemma LimitedObservationTells(o: Observation, c: Costs, limit: int)
    ensures var l := LimitedObservation(o, c, limit);
      var mark := map["_truncated" := Text("current observation state exceeded token limit")];
      var marked := Observation(o.shell, [], map[], if o.state == map[] then map[] else mark);
      if limit <= 0 || c.observation(o) <= limit then l == o
      else if c.observation(marked) <= limit then l == marked
      else l == Observation(o.shell, [], map[], map[])
  {
  }

  // Facts over their limit keep who and what they are about, a mark for their text, and nothing of their attributes.
  ghost predicate IsShellOf(f: Fact, shell: Fact) {
    && shell.kind == f.kind && shell.actorEntityId == f.actorEntityId && shell.targetEntityId == f.targetEntityId
    && shell.scopeId == f.scopeId && shell.labelText == f.labelText && shell.attributes == map[]
    && shell.text == if f.text == "" then "" else "_truncated"
  }

  lemma LimitedFactsTell(facts: seq<Fact>, c: Costs, limit: int)
    ensures var l := LimitedFacts(facts, c, limit);
      if limit <= 0 || c.facts(facts) <= limit then l == facts
      else |l| == |facts| && forall i | 0 <= i < |facts| :: IsShellOf(facts[i], l[i])
  {
  }

  // What a cut part looks like.
  lemma CutPartsAre(p: Projection)
    ensures BareEvent(p.event) == Event(p.event.shell, map[])
    ensures BareObservation(p.observation) == Observation(p.observation.shell, [], map[], map[])
    ensures |FactShells(p.facts)| == |p.facts|
    ensures forall i | 0 <= i < |p.facts| :: IsShellOf(p.facts[i], FactShells(p.facts)[i])
  {
  }

  // The first section that is over its limit even when it is cut is the error, the definitions last.
  lemma EarlyErrorTells(p: Projection, c: Costs, limits: Limits)
    ensures var q := Sections(p, c, limits);
      var event := limits.event > 0 && c.event(q.event) > limits.event;
      var observation := limits.observation > 0 && c.observation(q.observation) > limits.observation;
      var facts := limits.facts > 0 && c.facts(q.facts) > limits.facts;
      var least := DefinitionTokens(Minimal(p.agentDefinition), Minimal(p.gameDefinition));
      EarlyError(p, c, limits) ==
        if event then Some(EventOverBudget) else if observation then Some(ObservationOverBudget)
        else if facts then Some(FactsOverBudget)
        else if limits.definitions > 0 && least > limits.definitions then Some(DefinitionsOverBudget) else None
  {
  }

  lemma SameRequired(p: Projection, q: Projection)
    requires p.envelope == q.envelope && p.transcript == q.transcript
    requires Minimal(p.agentDefinition) == Minimal(q.agentDefinition)
    requires Minimal(p.gameDefinition) == Minimal(q.gameDefinition)
    requires p.event.shell == q.event.shell && p.observation.shell == q.observation.shell
    requires FactShells(p.facts) == FactShells(q.facts)
    ensures Required(p) == Required(q)
  {
    RequiredIs(p);
    RequiredIs(q);
  }

  // No stage changes what is required: identities, labels, the newest group, tools, policy and instruction.
  lemma StagesKeepRequired(p: Projection, c: Costs, limits: Limits)
    ensures Required(Sections(p, c, limits)) == Required(p)
  {
    var defined := LimitedDefinitions(p, limits.definitions);
    DefinitionsKeepRequired(p, limits.definitions);
    SameRequired(p, defined);
    SectionsKeepRequired(defined, c, limits);
  }

  lemma SectionsKeepRequired(p: Projection, c: Costs, limits: Limits)
    ensures Required(LimitedSections(p, c, limits)) == Required(p)
  {
    ShellsTwice(p.facts);
    SameRequired(p, LimitedSections(p, c, limits));
  }

  lemma DefinitionsKeepRequired(p: Projection, maxTokens: int)
    ensures var q := LimitedDefinitions(p, maxTokens);
      Minimal(q.agentDefinition) == Minimal(p.agentDefinition) && Minimal(q.gameDefinition) == Minimal(p.gameDefinition)
  {
    MinimalTwice(p.agentDefinition);
    MinimalTwice(p.gameDefinition);
    var agent := Refilled(p.agentDefinition, Minimal(p.gameDefinition), maxTokens);
    RefilledKeepsRequired(p.agentDefinition, Minimal(p.gameDefinition), maxTokens);
    RefilledKeepsRequired(p.gameDefinition, agent, maxTokens);
  }

  // A section is in error exactly when its required content alone is over its limit.
  lemma SectionErrorIs(p: Projection, t: Texts, limits: Limits)
    ensures SectionError(p, TextCosts(t), limits) ==
      if Over(Tokens(EventText(BareEvent(p.event), t)), limits.event) then Some(EventOverBudget)
      else if Over(Tokens(ObservationText(BareObservation(p.observation), t)), limits.observation)
          then Some(ObservationOverBudget)
      else if Over(Tokens(FactsText(p.facts, t)), limits.facts) &&
          Over(Tokens(FactsText(FactShells(p.facts), t)), limits.facts)
      then Some(FactsOverBudget)
      else None
  {
    BareTextsCostLeast(p.event, p.observation, t);
    BareTextsCostLeast(MarkedEvent(p.event), MarkedObservation(p.observation), t);
  }

  lemma MinimalCostsLeast(d: Option<Definition>)
    ensures TokensOf(Minimal(d)) <= TokensOf(d)
  {
    if d.Some? {
      PrefixesGrow(d.value, 0, Items(d.value));
      TakeAll(d.value.sections, Items(d.value));
    }
  }

  lemma DefinitionsFit(p: Projection, maxTokens: int)
    requires !DefinitionsExceed(p, maxTokens)
    ensures var q := LimitedDefinitions(p, maxTokens);
      !Over(DefinitionTokens(q.agentDefinition, q.gameDefinition), maxTokens)
  {
    if maxTokens > 0 {
      var agent := Refilled(p.agentDefinition, Minimal(p.gameDefinition), maxTokens);
      RefilledFits(p.agentDefinition, Minimal(p.gameDefinition), maxTokens);
      RefilledFits(p.gameDefinition, agent, maxTokens);
    }
  }

  lemma RefilledFits(source: Option<Definition>, other: Option<Definition>, limit: int)
    requires DefinitionTokens(Minimal(source), other) <= limit
    ensures DefinitionTokens(Refilled(source, other, limit), other) <= limit
  {
    if source.Some? {
      RefilledIsLongest(source.value, other, limit, LongestFit(source.value, CostBeside(other), limit));
    }
  }

  // A request that is built is within the limits of the request, the event, the observation and the definitions.
  lemma BuiltFits(p: Projection, q: Projection, t: Texts, measure: Measure, limits: Limits)
    requires Settles(p, q, None, TextCosts(t), measure, limits)
    ensures measure(q).Ok? && WithinLimits(measure(q).value, limits)
    ensures limits.event > 0 ==> Tokens(EventText(q.event, t)) <= limits.event
    ensures limits.observation > 0 ==> Tokens(ObservationText(q.observation, t)) <= limits.observation
    ensures limits.definitions > 0 ==> DefinitionTokens(q.agentDefinition, q.gameDefinition) <= limits.definitions
  {
    var defined := LimitedDefinitions(p, limits.definitions);
    var s := LimitedSections(defined, TextCosts(t), limits);
    var _ := FirstFit(s, q, None, measure, limits);
    BareTextsCostLeast(s.event, s.observation, t);
    DefinitionsFit(p, limits.definitions);
    MinimalCostsLeast(defined.agentDefinition);
    MinimalCostsLeast(defined.gameDefinition);
  }

  // Facts within their limit stay within it whatever the request looks like if and only if they would with
  // every detail dropped: the mark that replaces a text may cost more than the text.
  lemma FactsStayWithinLimit(p: Projection, c: Costs, limit: int)
    requires !Over(c.facts(p.facts), limit)
    ensures (forall q, error, measure, limits ::
             EndsAt(p, q, error, measure, limits) && Reduced(p, q) ==> !Over(c.facts(q.facts), limit))
       <==> !Over(c.facts(FactShells(p.facts)), limit)
  {
    if Over(c.facts(FactShells(p.facts)), limit) {
      var measure, limits := OnlyShells(p.facts), Limits(0, 0, 1, 0, 0, 0, 0);
      var i := FirstOfIsFirst(Candidates(p), StopTest(measure, limits));
      RequiredIs(p);
      assert Candidates(p)[|Candidates(p)| - 1].facts == FactShells(p.facts);
      assert StopTest(measure, limits)(Required(p));
      var q := Candidates(p)[i];
      assert q.facts == FactShells(p.facts);
      assert EndsAt(p, q, None, measure, limits);
      CandidatesAreReduced(p, i);
    }
  }

  // A renderer whose requests are small only without the details of the facts.
  function OnlyShells(facts: seq<Fact>): Measure {
    (p: Projection) => Ok(Size(0, 0, if p.facts == FactShells(facts) then 1 else 2))
  }

  /* ---- Facts that outgrow their limit ---- */

  // A request that grows with the payload of the event.
  function PayloadSize(): Measure {
    (p: Projection) => Ok(Size(0, 1 + |p.event.payload|, 1 + |p.event.payload|))
  }

  // While the facts have details, a cut leaves the payload alone.
  ghost predicate FactsGoFirst(p: Projection) {
    p.event.payload == map[] ==> p.facts == FactShells(p.facts)
  }

  lemma CutKeepsFactsFirst(p: Projection)
    requires FactsGoFirst(p) && Degrade(p).Some?
    ensures FactsGoFirst(Degrade(p).value)
  {
    if Apply(p, OldestGroup) != p {
      FirstChangeAt(p, ALL_CUTS, 0);
    } else if Apply(p, OldestMemory) != p {
      FirstChangeAt(p, ALL_CUTS, 1);
    } else if Apply(p, FactDetails) != p {
      FirstChangeAt(p, ALL_CUTS, 2);
      ShellsTwice(p.facts);
    } else {
      var cut := FirstChangeIsCut(p, ALL_CUTS);
      ShellsStay(p, cut);
    }
  }

  lemma ShellsStay(p: Projection, cut: Cut)
    requires p.facts == FactShells(p.facts)
    ensures Apply(p, cut).facts == FactShells(Apply(p, cut).facts)
  {
  }

  lemma {:induction false} SettledKeepsFactsFirst(p: Projection, good: Projection -> bool)
    requires FactsGoFirst(p) && FirstOf(Candidates(p), good).Some?
    ensures FactsGoFirst(FirstOf(Candidates(p), good).value)
    decreases Weight(p)
  {
    DegradeFollowsChain(p, good);
    if !good(p) {
      CutKeepsFactsFirst(p);
      var cut := FirstChangeIsCut(p, ALL_CUTS);
      CutLightens(p, cut);
      SettledKeepsFactsFirst(Degrade(p).value, good);
    }
  }

  // Where the request fits only without the payload, the facts lose their details before that.
  lemma PayloadSettles(p: Projection, limits: Limits) returns (q: Projection)
    requires p.event.payload != map[] && limits.request == 1 && limits.system <= 0 && limits.user <= 0
    ensures EndsAt(p, q, None, PayloadSize(), limits) && Reduced(p, q) && q.facts == FactShells(p.facts)
  {
    var good := StopTest(PayloadSize(), limits);
    var i := FirstOfIsFirst(Candidates(p), good);
    RequiredIs(p);
    assert good(Required(p)) && Required(p) == Candidates(p)[|Candidates(p)| - 1];
    q := Candidates(p)[i];
    assert good(q);
    SettledKeepsFactsFirst(p, good);
    CandidatesAreReduced(p, i);
    ShellsTwice(p.facts);
  }

  // An event with a payload and facts that are short texts, within their limit: if the request fits only without
  // the payload, the facts end over their limit, with no error.
  lemma FactsCanOutgrowLimit(p: Projection, t: Texts) returns (q: Projection, limits: Limits)
    requires p.event.payload != map[] && p.facts != [] && forall f | f in p.facts :: IsShort(f)
    ensures EarlyError(p, TextCosts(t), limits).None? && Sections(p, TextCosts(t), limits) == p
    ensures !Over(Tokens(FactsText(p.facts, t)), limits.facts)
    ensures EndsAt(p, q, None, PayloadSize(), limits) && Reduced(p, q)
    ensures Over(Tokens(FactsText(q.facts, t)), limits.facts)
  {
    limits := Limits(0, 0, 1, 0, 0, Tokens(FactsText(p.facts, t)), 0);
    q := PayloadSettles(p, limits);
    ShellsCostMore(p.facts, t);
    FactsTokensArePositive(p.facts, t);
  }

  lemma FactsTokensArePositive(facts: seq<Fact>, t: Texts)
    ensures Tokens(FactsText(facts, t)) > 0
  {
    LengthBounds(FactsText(facts, t));
  }

  lemma CandidatesAreReduced(p: Projection, i: nat)
    requires i < |Candidates(p)|
    ensures Reduced(p, Candidates(p)[i])
  {
    ScanIsReduced(p, p, Plan(p), i);
  }

  lemma {:induction false} ScanIsReduced(start: Projection, p: Projection, cuts: seq<Cut>, i: nat)
    requires Reduced(start, p) && i <= |cuts|
    ensures Reduced(start, Scan(p, cuts)[i])
    decreases i
  {
    if i > 0 {
      if Apply(p, cuts[0]) != p {
        CutReduces(start, p, cuts[0]);
      }
      ScanIsReduced(start, Apply(p, cuts[0]), cuts[1..], i - 1);
    }
  }
}

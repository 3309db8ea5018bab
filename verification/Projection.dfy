/**
 The context projection (runtime/internal/context/context.go:176-234) and the ways in which the
 request budget may degrade it (context.go:511-584).
 */
module Projection {
  import opened Common
  import opened Entities
  import opened Json
  import opened Messages
  import opened Transcript
  import Memory
  import opened DefinitionBudget

  datatype EventShell = EventShell(eventId: string, eventType: string, worldId: string, targetEntityId: string,
                                   sequence: nat, gameTime: Option<Memory.GameTime>)

  datatype Event = Event(shell: EventShell, payload: JsonMap)

  datatype Fact = Fact(kind: string, actorEntityId: string, targetEntityId: string, scopeId: string,
                       text: string, labelText: string, attributes: JsonMap)

  datatype ObservationShell = ObservationShell(worldId: string, entityId: string, revision: nat,
                                               gameTime: Option<Memory.GameTime>)

  datatype Observation = Observation(shell: ObservationShell, nearbyEntities: seq<EntityRef>, extensions: JsonMap,
                                     state: JsonMap)

  datatype ToolDefinition = ToolDefinition(name: string, description: string, inputSchema: string)

  // The parts that no budget touches.
  datatype Envelope = Envelope(target: EntityRef, runtimePolicy: string, instruction: string,
                               tools: seq<ToolDefinition>)

  datatype Projection = Projection(
    envelope: Envelope,
    gameDefinition: Option<Definition>,
    agentDefinition: Option<Definition>,
    event: Event,
    facts: seq<Fact>,
    observation: Observation,
    memories: seq<Memory.MemoryProjection>,
    transcript: seq<Message>)

  const TRUNCATED_MARKER := "_truncated"

  /* ---- Degraded parts ---- */

  function FactShell(f: Fact): Fact {
    f.(text := if f.text == "" then "" else TRUNCATED_MARKER, attributes := map[])
  }

  function FactShells(facts: seq<Fact>): (shells: seq<Fact>)
    ensures |shells| == |facts|
  {
    seq(|facts|, i requires 0 <= i < |facts| => FactShell(facts[i]))
  }

  function BareEvent(e: Event): Event {
    e.(payload := map[])
  }

  function BareObservation(o: Observation): Observation {
    Observation(o.shell, [], map[], map[])
  }

  /* ---- Degradation ---- */

  // What the request budget can drop, in the order in which it tries to.
  datatype Cut = OldestGroup | OldestMemory | FactDetails | EventPayload | ObservationDetails | GameDetails
               | AgentDetails

  const PART_CUTS := [FactDetails, EventPayload, ObservationDetails, GameDetails, AgentDetails]
  const ALL_CUTS := [OldestGroup, OldestMemory] + PART_CUTS

  function Groups(p: Projection): seq<Group> {
    var r := Grouping(p.transcript);
    if r.Ok? then r.value else []
  }

  // A cut that finds nothing to drop changes nothing.
  function Apply(p: Projection, cut: Cut): Projection {
    match cut
    case OldestGroup => if |Groups(p)| <= 1 then p else p.(transcript := Flatten(Groups(p)[1..]))
    case OldestMemory => if p.memories == [] then p else p.(memories := p.memories[1..])
    case FactDetails => p.(facts := FactShells(p.facts))
    case EventPayload => p.(event := BareEvent(p.event))
    case ObservationDetails => p.(observation := BareObservation(p.observation))
    case GameDetails => p.(gameDefinition := Minimal(p.gameDefinition))
    case AgentDetails => p.(agentDefinition := Minimal(p.agentDefinition))
  }

  // The first of the cuts that changes p.
  function FirstChange(p: Projection, cuts: seq<Cut>): Option<Projection> {
    if cuts == [] then None
    else if Apply(p, cuts[0]) != p then Some(Apply(p, cuts[0]))
    else FirstChange(p, cuts[1..])
  }

  // One step of the budget loop.
  function Degrade(p: Projection): Option<Projection> {
    FirstChange(p, ALL_CUTS)
  }

  /* ---- The chain of candidates ---- */

  function Repeat(cut: Cut, n: nat): seq<Cut> {
    if n == 0 then [] else [cut] + Repeat(cut, n - 1)
  }

  function Older<T>(s: seq<T>): nat {
    if s == [] then 0 else |s| - 1
  }

  // Every cut there is to make: all groups but the newest, all memories, then each part once.
  function Plan(p: Projection): seq<Cut> {
    Repeat(OldestGroup, Older(Groups(p))) + (Repeat(OldestMemory, |p.memories|) + PART_CUTS)
  }

  function Scan(p: Projection, cuts: seq<Cut>): (ps: seq<Projection>)
    ensures |ps| == |cuts| + 1 && ps[0] == p
    decreases |cuts|
  {
    if cuts == [] then [p] else [p] + Scan(Apply(p, cuts[0]), cuts[1..])
  }

  // Every projection the budget may settle on, most complete first; neighbours may be equal.
  function Candidates(p: Projection): (ps: seq<Projection>)
    ensures ps != [] && ps[0] == p
  {
    Scan(p, Plan(p))
  }

  // What is left when nothing more can be dropped.
  function Required(p: Projection): Projection {
    var ps := Candidates(p);
    ps[|ps| - 1]
  }

  function FirstOf(ps: seq<Projection>, good: Projection -> bool): Option<Projection> {
    if ps == [] then None else if good(ps[0]) then Some(ps[0]) else FirstOf(ps[1..], good)
  }

  lemma MinimalTwice(d: Option<Definition>)
    ensures Minimal(Minimal(d)) == Minimal(d)
  {
    if d.Some? {
      TakeTwice(d.value.sections, 0, 0);
    }
  }

  // A part cut has nothing left to do after it, or any other part cut, was made.
  lemma CutsAreIndependent(p: Projection, c: Cut, d: Cut)
    requires d in PART_CUTS && (c == d || Apply(p, c) == p)
    ensures Apply(Apply(p, d), c) == Apply(p, d)
  {
    MinimalTwice(p.gameDefinition);
    MinimalTwice(p.agentDefinition);
  }

  lemma {:induction false} FirstChangeIsCut(p: Projection, cuts: seq<Cut>) returns (d: Cut)
    requires FirstChange(p, cuts).Some?
    ensures d in cuts && FirstChange(p, cuts).value == Apply(p, d) != p
  {
    if Apply(p, cuts[0]) != p {
      d := cuts[0];
    } else {
      d := FirstChangeIsCut(p, cuts[1..]);
    }
  }

  lemma {:induction false} ScanStep(p: Projection, cuts: seq<Cut>, good: Projection -> bool)
    requires forall c | c in cuts :: c in PART_CUTS
    ensures FirstOf(Scan(p, cuts), good) ==
      if good(p) then Some(p)
      else if FirstChange(p, cuts).Some? then FirstOf(Scan(FirstChange(p, cuts).value, cuts), good)
      else None
    ensures var q := FirstChange(p, cuts); q.Some? ==> Scan(q.value, cuts)[|cuts|] == Scan(p, cuts)[|cuts|]
    ensures FirstChange(p, cuts).None? ==> Scan(p, cuts)[|cuts|] == p
  {
    if cuts != [] {
      var c, next := cuts[0], Apply(p, cuts[0]);
      if next != p {
        CutsAreIndependent(p, c, c);
      } else {
        ScanStep(p, cuts[1..], good);
        if FirstChange(p, cuts).Some? {
          var d := FirstChangeIsCut(p, cuts[1..]);
          CutsAreIndependent(p, c, d);
        }
      }
    }
  }

  lemma GroupsAfterCut(p: Projection)
    requires |Groups(p)| > 1
    ensures Groups(Apply(p, OldestGroup)) == Groups(p)[1..] && Apply(p, OldestGroup) != p
  {
  }

  lemma CandidatesAfterGroup(p: Projection, q: Projection)
    requires |Groups(p)| > 1 && q == Apply(p, OldestGroup)
    ensures Degrade(p) == Some(q) && Candidates(p) == [p] + Candidates(q)
  {
    GroupsAfterCut(p);
    assert Plan(p)[0] == OldestGroup && Plan(p)[1..] == Plan(q);
  }

  lemma CandidatesAfterMemory(p: Projection, q: Projection)
    requires |Groups(p)| <= 1 && p.memories != [] && q == Apply(p, OldestMemory)
    ensures Degrade(p) == Some(q) && Candidates(p) == [p] + Candidates(q)
  {
    assert Plan(p)[0] == OldestMemory && Plan(p)[1..] == Plan(q);
    assert |q.memories| != |p.memories|;
    assert ALL_CUTS[1..][0] == OldestMemory;
    assert Degrade(p) == FirstChange(p, ALL_CUTS[1..]);
  }

  lemma PlanOfParts(p: Projection)
    requires |Groups(p)| <= 1 && p.memories == []
    ensures Plan(p) == PART_CUTS && Degrade(p) == FirstChange(p, PART_CUTS)
  {
    assert ALL_CUTS[1..][0] == OldestMemory && ALL_CUTS[1..][1..] == PART_CUTS;
    assert Degrade(p) == FirstChange(p, ALL_CUTS[1..]) == FirstChange(p, PART_CUTS);
  }

  lemma PartCutKeeps(p: Projection, d: Cut)
    requires d in PART_CUTS
    ensures Apply(p, d).transcript == p.transcript && Apply(p, d).memories == p.memories
  {
  }

  lemma DegradedPart(p: Projection)
    requires |Groups(p)| <= 1 && p.memories == []
    ensures var q := FirstChange(p, PART_CUTS); q.Some? ==> Plan(q.value) == PART_CUTS
  {
    if FirstChange(p, PART_CUTS).Some? {
      var d := FirstChangeIsCut(p, PART_CUTS);
      PartCutKeeps(p, d);
      assert Groups(Apply(p, d)) == Groups(p);
      PlanOfParts(Apply(p, d));
    }
  }

  // What is good first, from p on, is p itself or what is good first from the next projection on.
  ghost predicate FollowsChain(p: Projection, next: Option<Projection>, good: Projection -> bool) {
    && FirstOf(Candidates(p), good) ==
         (if good(p) then Some(p) else if next.Some? then FirstOf(Candidates(next.value), good) else None)
    && Required(p) == if next.Some? then Required(next.value) else p
  }

  lemma NextFollowsChain(p: Projection, q: Projection, good: Projection -> bool)
    requires Candidates(p) == [p] + Candidates(q)
    ensures FollowsChain(p, Some(q), good)
  {
    FirstOfJoin(p, Candidates(q), good);
    assert Required(p) == Required(q);
  }

  lemma FirstOfJoin(p: Projection, rest: seq<Projection>, good: Projection -> bool)
    ensures FirstOf([p] + rest, good) == if good(p) then Some(p) else FirstOf(rest, good)
  {
  }

  // One step of the loop moves along the chain and skips nothing.
  lemma DegradeFollowsChain(p: Projection, good: Projection -> bool)
    ensures FollowsChain(p, Degrade(p), good)
  {
    if |Groups(p)| > 1 {
      CandidatesAfterGroup(p, Apply(p, OldestGroup));
      NextFollowsChain(p, Apply(p, OldestGroup), good);
    } else if p.memories != [] {
      CandidatesAfterMemory(p, Apply(p, OldestMemory));
      NextFollowsChain(p, Apply(p, OldestMemory), good);
    } else {
      PlanOfParts(p);
      DegradedPart(p);
      ScanStep(p, PART_CUTS, good);
    }
  }

  // What survives every cut: the envelope, the newest group, and each part without its details.
  lemma RequiredIs(p: Projection)
    ensures Required(p) == Projection(
      p.envelope, Minimal(p.gameDefinition), Minimal(p.agentDefinition), BareEvent(p.event), FactShells(p.facts),
      BareObservation(p.observation), [], if |Groups(p)| <= 1 then p.transcript else Groups(p)[|Groups(p)| - 1])
  {
    var groups := Older(Groups(p));
    var q := p.(transcript := if groups == 0 then p.transcript else Flatten(Groups(p)[groups..]));
    ScanGroups(p, groups, Repeat(OldestMemory, |p.memories|) + PART_CUTS);
    ScanMemories(q, |p.memories|, PART_CUTS);
    LastOfParts(q.(memories := []));
    if groups > 0 {
      assert Groups(p)[groups..] == [Groups(p)[groups]];
      assert Flatten([Groups(p)[groups]]) == Groups(p)[groups] + Flatten([]);
    } else {
      assert [] + (Repeat(OldestMemory, |p.memories|) + PART_CUTS) == Plan(p);
    }
  }

  function Last(p: Projection, cuts: seq<Cut>): Projection {
    Scan(p, cuts)[|cuts|]
  }

  // The projection with all but the first n groups.
  function WithoutGroups(p: Projection, n: nat): Projection
    requires n <= Older(Groups(p))
  {
    p.(transcript := if n == 0 then p.transcript else Flatten(Groups(p)[n..]))
  }

  lemma WithoutNextGroup(p: Projection, n: nat)
    requires 0 < n <= Older(Groups(p))
    ensures n - 1 <= Older(Groups(Apply(p, OldestGroup)))
    ensures WithoutGroups(Apply(p, OldestGroup), n - 1) == WithoutGroups(p, n)
  {
    GroupsAfterCut(p);
    SliceOfSlice(Groups(p), 1, n - 1);
  }

  lemma {:induction false} ScanGroups(p: Projection, n: nat, rest: seq<Cut>)
    requires n <= Older(Groups(p))
    ensures Last(p, Repeat(OldestGroup, n) + rest) == Last(WithoutGroups(p, n), rest)
    decreases n
  {
    LastOfRepeat(p, OldestGroup, n, rest);
    if n > 0 {
      WithoutNextGroup(p, n);
      ScanGroups(Apply(p, OldestGroup), n - 1, rest);
    }
  }

  lemma RepeatJoin(cut: Cut, n: nat, rest: seq<Cut>)
    requires n > 0
    ensures Repeat(cut, n) + rest == [cut] + (Repeat(cut, n - 1) + rest)
  {
    JoinIsAssociative([cut], Repeat(cut, n - 1), rest);
  }

  lemma LastOfCut(p: Projection, cut: Cut, rest: seq<Cut>)
    ensures Last(p, [cut] + rest) == Last(Apply(p, cut), rest)
  {
    assert ([cut] + rest)[1..] == rest;
  }

  lemma LastOfRepeat(p: Projection, cut: Cut, n: nat, rest: seq<Cut>)
    ensures Last(p, Repeat(cut, n) + rest) ==
      if n == 0 then Last(p, rest) else Last(Apply(p, cut), Repeat(cut, n - 1) + rest)
  {
    if n == 0 {
      assert Repeat(cut, n) + rest == rest;
    } else {
      RepeatJoin(cut, n, rest);
      LastOfCut(p, cut, Repeat(cut, n - 1) + rest);
    }
  }

  lemma {:induction false} ScanMemories(p: Projection, n: nat, rest: seq<Cut>)
    requires n <= |p.memories|
    ensures Last(p, Repeat(OldestMemory, n) + rest) == Last(p.(memories := p.memories[n..]), rest)
    decreases n
  {
    var cuts := Repeat(OldestMemory, n) + rest;
    if n == 0 {
      assert cuts == rest;
    } else {
      assert cuts[1..] == Repeat(OldestMemory, n - 1) + rest;
      ScanMemories(Apply(p, OldestMemory), n - 1, rest);
    }
  }

  lemma LastOfParts(p: Projection)
    ensures Last(p, PART_CUTS) == p.(
      facts := FactShells(p.facts), event := BareEvent(p.event), observation := BareObservation(p.observation),
      gameDefinition := Minimal(p.gameDefinition), agentDefinition := Minimal(p.agentDefinition))
  {
  }

  lemma {:induction false} ScanAt(p: Projection, cuts: seq<Cut>, n: nat)
    requires n <= |cuts|
    ensures Scan(p, cuts)[n] == Last(p, cuts[..n])
    decreases n
  {
    if n > 0 {
      ScanAt(Apply(p, cuts[0]), cuts[1..], n - 1);
      assert cuts[..n][1..] == cuts[1..][..n - 1];
    }
  }

  lemma {:induction false} RepeatPrefix(cut: Cut, n: nat, k: nat)
    requires k <= n
    ensures |Repeat(cut, n)| == n && Repeat(cut, n)[..k] == Repeat(cut, k)
  {
    if k > 0 {
      RepeatPrefix(cut, n - 1, k - 1);
    } else if n > 0 {
      RepeatPrefix(cut, n - 1, 0);
    }
  }

  // The first candidates keep every memory and the newest groups, all of them first.
  lemma GroupCandidates(p: Projection, k: nat)
    requires 0 < k <= Older(Groups(p))
    ensures k < |Candidates(p)| && Candidates(p)[k] == p.(transcript := Flatten(Groups(p)[k..]))
  {
    RepeatPrefix(OldestGroup, Older(Groups(p)), k);
    assert Plan(p)[..k] == Repeat(OldestGroup, k) == Repeat(OldestGroup, k) + [];
    ScanAt(p, Plan(p), k);
    ScanGroups(p, k, []);
  }

  lemma MemoryPlan(p: Projection, k: nat)
    requires k <= |p.memories|
    ensures var n := Older(Groups(p));
      n + k <= |Plan(p)| && Plan(p)[..n + k] == Repeat(OldestGroup, n) + (Repeat(OldestMemory, k) + [])
  {
    var n := Older(Groups(p));
    RepeatPrefix(OldestGroup, n, n);
    RepeatPrefix(OldestMemory, |p.memories|, k);
    assert (Repeat(OldestMemory, |p.memories|) + PART_CUTS)[..k] == Repeat(OldestMemory, k) ==
        Repeat(OldestMemory, k) + [];
  }

  // The next candidates keep the newest group and the newest memories, all of them first.
  lemma MemoryCandidates(p: Projection, k: nat)
    requires 0 < k <= |p.memories|
    ensures var n := Older(Groups(p));
      && n + k < |Candidates(p)|
      && Candidates(p)[n + k] == WithoutGroups(p, n).(memories := p.memories[k..])
  {
    var n := Older(Groups(p));
    MemoryPlan(p, k);
    ScanAt(p, Plan(p), n + k);
    ScanGroups(p, n, Repeat(OldestMemory, k) + []);
    ScanMemories(WithoutGroups(p, n), k, []);
  }

  /* ---- What is left of groups and memories ---- */

  // The groups of q are the newest ones of p, and so are its memories.
  ghost predicate KeepsNewest(p: Projection, q: Projection) {
    && IsSuffix(q.memories, p.memories) && IsSuffix(Groups(q), Groups(p))
    && (q.transcript == p.transcript || Grouping(q.transcript).Ok?)
  }

  lemma CutKeepsNewest(p: Projection, q: Projection, cut: Cut)
    requires KeepsNewest(p, q)
    ensures KeepsNewest(p, Apply(q, cut))
  {
    match cut
    case OldestGroup =>
      if |Groups(q)| > 1 {
        GroupsAfterCut(q);
        GroupingOfSuffix(q.transcript, 1);
        SuffixNext(Groups(q), Groups(p));
      }
    case OldestMemory =>
      if q.memories != [] {
        SuffixNext(q.memories, p.memories);
      }
    case _ => PartCutKeeps(q, cut);
  }

  lemma {:induction false} ScanKeepsNewest(start: Projection, p: Projection, cuts: seq<Cut>, i: nat)
    requires KeepsNewest(start, p) && i <= |cuts|
    ensures KeepsNewest(start, Scan(p, cuts)[i])
    decreases i
  {
    if i > 0 {
      CutKeepsNewest(start, p, cuts[0]);
      ScanKeepsNewest(start, Apply(p, cuts[0]), cuts[1..], i - 1);
    }
  }

  // Every candidate keeps the newest groups and memories.
  lemma CandidatesKeepNewest(p: Projection, q: Projection)
    requires q in Candidates(p)
    ensures KeepsNewest(p, q)
  {
    var i :| 0 <= i < |Candidates(p)| && Candidates(p)[i] == q;
    ScanKeepsNewest(p, p, Plan(p), i);
  }

  /* ---- The order of the cuts ---- */

  // What is cut and what is not cut before it: the oldest groups first, then memories, facts, the payload of the
  // event, the observation, the game definition, and the agent definition last.
  ghost predicate CutInOrder(p: Projection, q: Projection) {
    && (q.agentDefinition != p.agentDefinition ==> q.gameDefinition == Minimal(p.gameDefinition))
    && (q.gameDefinition != p.gameDefinition ==> q.observation == BareObservation(p.observation))
    && (q.observation != p.observation ==> q.event == BareEvent(p.event))
    && (q.event != p.event ==> q.facts == FactShells(p.facts))
    && (q.facts != p.facts ==> q.memories == [])
    && (q.memories != p.memories ==> |Groups(q)| <= 1)
  }

  // The projection with the first parts cut.
  function WithoutParts(p: Projection, n: nat): Projection {
    p.(facts := if n > 0 then FactShells(p.facts) else p.facts,
       event := if n > 1 then BareEvent(p.event) else p.event,
       observation := if n > 2 then BareObservation(p.observation) else p.observation,
       gameDefinition := if n > 3 then Minimal(p.gameDefinition) else p.gameDefinition,
       agentDefinition := if n > 4 then Minimal(p.agentDefinition) else p.agentDefinition)
  }

  lemma {:induction false} ScanNext(p: Projection, cuts: seq<Cut>, i: nat)
    requires i < |cuts|
    ensures Scan(p, cuts)[i + 1] == Apply(Scan(p, cuts)[i], cuts[i])
    decreases i
  {
    if i > 0 {
      ScanNext(Apply(p, cuts[0]), cuts[1..], i - 1);
    }
  }

  lemma {:induction false} PartCandidates(p: Projection, n: nat)
    requires n <= 5
    ensures var k := Older(Groups(p));
      && |Candidates(p)| == k + |p.memories| + 6
      && Candidates(p)[k + |p.memories| + n] == WithoutParts(WithoutGroups(p, k).(memories := []), n)
  {
    var k := Older(Groups(p));
    PlanLength(p);
    if n > 0 {
      PartCandidates(p, n - 1);
      ScanNext(p, Plan(p), k + |p.memories| + n - 1);
    } else if |p.memories| > 0 {
      MemoryCandidates(p, |p.memories|);
    } else if k > 0 {
      GroupCandidates(p, k);
    }
  }

  lemma PlanLength(p: Projection)
    ensures var k := Older(Groups(p)) + |p.memories|;
      |Plan(p)| == k + 5 && forall n | 0 <= n < 5 :: Plan(p)[k + n] == PART_CUTS[n]
  {
    RepeatPrefix(OldestGroup, Older(Groups(p)), 0);
    RepeatPrefix(OldestMemory, |p.memories|, 0);
  }

  lemma GroupsLeft(p: Projection, n: nat)
    requires n <= Older(Groups(p))
    ensures |Groups(WithoutGroups(p, n))| == |Groups(p)| - n
  {
    if n > 0 {
      GroupingOfSuffix(p.transcript, n);
    }
  }

  // No candidate, and so no projection that the budget settles on, cuts anything out of this order.
  lemma CandidatesAreInOrder(p: Projection, i: nat)
    requires i < |Candidates(p)|
    ensures CutInOrder(p, Candidates(p)[i])
  {
    var k := Older(Groups(p));
    PartCandidates(p, 0);
    if 0 < i < k {
      GroupCandidates(p, i);
    } else if i > 0 {
      GroupsLeft(p, k);
      if i < k + |p.memories| {
        LastGroupCandidates(p, i - k);
      } else {
        PartCandidates(p, i - k - |p.memories|);
      }
    }
  }

  lemma LastGroupCandidates(p: Projection, n: nat)
    requires n < |p.memories|
    ensures var k := Older(Groups(p));
      k + n < |Candidates(p)| && Candidates(p)[k + n] == WithoutGroups(p, k).(memories := p.memories[n..])
  {
    var k := Older(Groups(p));
    if n > 0 {
      MemoryCandidates(p, n);
    } else if k > 0 {
      GroupCandidates(p, k);
    }
  }
}

/**
 The definition budget (runtime/internal/context/context.go:598-798): a game definition and an agent
 definition are cut down to their required fields and then refilled item by item, agent first, while
 the size of both together stays within the limit.

 Both kinds of definition are a list of required fields followed by optional sections, each a plain
 text or a list of texts.  The sections are rendered and refilled in the same order.
 */
module DefinitionBudget {
  import opened Common
  import opened TokenEstimate
  import opened JsonText

  datatype Field = Field(name: string, text: string)

  // The texts of an optional section; a plain text that is empty has none, any other has one.
  datatype Section = Section(name: string, isList: bool, texts: seq<string>)

  datatype Definition = Definition(required: seq<Field>, sections: seq<Section>)

  function PlainText(name: string, text: string): Section {
    Section(name, false, if text == "" then [] else [text])
  }

  function AgentDefinition(schemaVersion: string, gameId: string, definitionId: string, identity: string,
                           personality: seq<string>, speechStyle: seq<string>, preferences: seq<string>,
                           behaviorGuidelines: seq<string>, sourceVersion: string): Definition
  {
    Definition(
      [Field("schema_version", schemaVersion), Field("game_id", gameId), Field("definition_id", definitionId)],
      [PlainText("identity", identity),
       Section("personality", true, personality),
       Section("speech_style", true, speechStyle),
       Section("preferences", true, preferences),
       Section("behavior_guidelines", true, behaviorGuidelines),
       PlainText("source_version", sourceVersion)])
  }

  function GameDefinition(schemaVersion: string, gameId: string, title: string, summary: string,
                          worldRules: seq<string>, lore: seq<string>, narrativeConstraints: seq<string>,
                          sourceVersion: string): Definition
  {
    Definition(
      [Field("schema_version", schemaVersion), Field("game_id", gameId)],
      [PlainText("title", title),
       PlainText("summary", summary),
       Section("world_rules", true, worldRules),
       Section("lore", true, lore),
       Section("narrative_constraints", true, narrativeConstraints),
       PlainText("source_version", sourceVersion)])
  }

  /* ---- What a definition costs ---- */

  function SectionMembers(s: Section): (members: seq<string>)
    ensures AllDelimited(members)
  {
    if s.isList then OptionalList(s.name, s.texts)
    else if s.texts == [] then []
    else [Member(s.name, Quote(s.texts[0]))]
  }

  function FieldMembers(fields: seq<Field>): (members: seq<string>)
    ensures AllDelimited(members)
  {
    if fields == [] then [] else [Member(fields[0].name, Quote(fields[0].text))] + FieldMembers(fields[1..])
  }

  function AllSectionMembers(sections: seq<Section>): (members: seq<string>)
    ensures AllDelimited(members)
  {
    if sections == [] then [] else SectionMembers(sections[0]) + AllSectionMembers(sections[1..])
  }

  function Render(d: Definition): string {
    Object(FieldMembers(d.required) + AllSectionMembers(d.sections))
  }

  function TokensOf(d: Option<Definition>): nat {
    if d.None? then 0 else Tokens(Render(d.value))
  }

  function DefinitionTokens(agent: Option<Definition>, game: Option<Definition>): nat {
    TokensOf(agent) + TokensOf(game)
  }

  /* ---- The first items of a definition ---- */

  function Count(sections: seq<Section>): nat {
    if sections == [] then 0 else |sections[0].texts| + Count(sections[1..])
  }

  // The sections with only their first k texts, counted through the sections in order.
  function Take(sections: seq<Section>, k: nat): (taken: seq<Section>)
    ensures |taken| == |sections|
  {
    if sections == [] then [] else
    var texts := sections[0].texts;
    if k < |texts| then [sections[0].(texts := texts[..k])] + Take(sections[1..], 0)
    else [sections[0]] + Take(sections[1..], k - |texts|)
  }

  function Items(d: Definition): nat {
    Count(d.sections)
  }

  function Prefix(d: Definition, k: nat): Definition {
    d.(sections := Take(d.sections, k))
  }

  function Minimal(d: Option<Definition>): Option<Definition> {
    if d.None? then None else Some(Prefix(d.value, 0))
  }

  lemma {:induction false} TakeAll(sections: seq<Section>, k: nat)
    requires k >= Count(sections)
    ensures Take(sections, k) == sections
  {
    if sections != [] {
      TakeAll(sections[1..], k - |sections[0].texts|);
    }
  }

  lemma {:induction false} TakeTwice(sections: seq<Section>, k: nat, j: nat)
    requires j <= k
    ensures Take(Take(sections, k), j) == Take(sections, j)
  {
    if sections != [] {
      var n := |sections[0].texts|;
      assert Take(sections, k)[1..] == Take(sections[1..], if k < n then 0 else k - n);
      assert k < n ==> sections[0].texts[..k][..j] == sections[0].texts[..j];
      TakeTwice(sections[1..], if k < n then 0 else k - n, if j < n then 0 else j - n);
    }
  }

  // The first section of what is taken, and how many texts that leaves for the others.
  function TakeHead(s: Section, k: nat): Section {
    if k < |s.texts| then s.(texts := s.texts[..k]) else s
  }

  function TakeRest(s: Section, k: nat): nat {
    if k < |s.texts| then 0 else k - |s.texts|
  }

  lemma TakeIs(sections: seq<Section>, k: nat)
    requires sections != []
    ensures Take(sections, k) == [TakeHead(sections[0], k)] + Take(sections[1..], TakeRest(sections[0], k))
  {
  }

  lemma HeadNext(s: Section, k: nat)
    requires k < |s.texts|
    ensures TakeHead(s, k + 1) == s.(texts := TakeHead(s, k).texts + [s.texts[k]])
    ensures TakeRest(s, k + 1) == TakeRest(s, k) == 0
  {
    assert s.texts[..k + 1] == s.texts[..k] + [s.texts[k]];
    assert k + 1 == |s.texts| ==> s.texts[..k + 1] == s.texts;
  }

  lemma TakeSum(sections: seq<Section>, k: nat)
    requires sections != []
    ensures CommaSum(AllSectionMembers(Take(sections, k))) ==
      CommaSum(SectionMembers(TakeHead(sections[0], k)))
      + CommaSum(AllSectionMembers(Take(sections[1..], TakeRest(sections[0], k))))
  {
    var head, rest := TakeHead(sections[0], k), Take(sections[1..], TakeRest(sections[0], k));
    TakeIs(sections, k);
    assert ([head] + rest)[1..] == rest;
    CommaSumOfJoin(SectionMembers(head), AllSectionMembers(rest));
  }

  lemma {:induction false} TakeGrows(sections: seq<Section>, k: nat)
    ensures CommaSum(AllSectionMembers(Take(sections, k))) <= CommaSum(AllSectionMembers(Take(sections, k + 1)))
  {
    if sections != [] {
      var s := sections[0];
      TakeSum(sections, k);
      TakeSum(sections, k + 1);
      if k < |s.texts| {
        HeadNext(s, k);
        SectionGrows(TakeHead(s, k), s.texts[k]);
      } else {
        TakeGrows(sections[1..], k - |s.texts|);
      }
    }
  }

  lemma SectionGrows(s: Section, text: string)
    ensures CommaSum(SectionMembers(s)) <= CommaSum(SectionMembers(s.(texts := s.texts + [text])))
  {
    if s.texts != [] && s.isList {
      ListMemberGrows(s.name, s.texts, text);
    }
  }

  // Keeping one more item never makes a definition cheaper.
  lemma PrefixGrows(d: Definition, k: nat)
    ensures TokensOf(Some(Prefix(d, k))) <= TokensOf(Some(Prefix(d, k + 1)))
  {
    TakeGrows(d.sections, k);
    var fields := FieldMembers(d.required);
    var a, b := AllSectionMembers(Take(d.sections, k)), AllSectionMembers(Take(d.sections, k + 1));
    CommaSumOfJoin(fields, a);
    CommaSumOfJoin(fields, b);
    ObjectTokens(fields + a);
    ObjectTokens(fields + b);
  }

  /* ---- Refilling within the budget ---- */

  type Cost = Definition -> nat

  // What a definition costs together with the other one.
  function CostBeside(other: Option<Definition>): Cost {
    (d: Definition) => DefinitionTokens(Some(d), other)
  }

  // Keeping one more item of d never lowers the cost.
  ghost predicate Grows(d: Definition, cost: Cost) {
    forall k: nat :: cost(Prefix(d, k)) <= cost(Prefix(d, k + 1))
  }

  lemma CostBesideGrows(d: Definition, other: Option<Definition>)
    ensures Grows(d, CostBeside(other))
  {
    forall k: nat
      ensures CostBeside(other)(Prefix(d, k)) <= CostBeside(other)(Prefix(d, k + 1))
    {
      PrefixGrows(d, k);
    }
  }

  // Whether the first k items of source fit.
  function FitTest(source: Definition, cost: Cost, limit: int): nat -> bool {
    (k: nat) => cost(Prefix(source, k)) <= limit
  }

  // The most items of source that fit.
  function LongestFit(source: Definition, cost: Cost, limit: int): (k: nat)
    ensures k <= Items(source)
  {
    LargestFit(FitTest(source, cost, limit), Items(source))
  }

  lemma LongestFitIs(source: Definition, cost: Cost, limit: int, k: nat)
    requires Grows(source, cost) && k <= Items(source)
    requires cost(Prefix(source, k)) <= limit
    requires k < Items(source) ==> cost(Prefix(source, k + 1)) > limit
    ensures LongestFit(source, cost, limit) == k
  {
    LargestFitIs(FitTest(source, cost, limit), Items(source), k);
  }

  method TryUpdate(current: Definition, candidate: Definition, cost: Cost, limit: int)
    returns (result: Definition, updated: bool)
    ensures updated <==> cost(candidate) <= limit
    ensures result == if updated then candidate else current
  {
    if cost(candidate) > limit {
      return current, false;
    }
    result, updated := candidate, true;
  }

  function AppendText(d: Definition, section: nat, text: string): Definition
    requires section < |d.sections|
  {
    var s := d.sections[section];
    d.(sections := d.sections[section := s.(texts := s.texts + [text])])
  }

  function WithText(s: Section, text: string): Section {
    s.(texts := s.texts + [text])
  }

  lemma {:induction false} TakeNext(sections: seq<Section>, j: nat, i: nat, k: nat)
    requires j < |sections| && i < |sections[j].texts| && k == Count(sections[..j]) + i
    ensures var taken := Take(sections, k);
      Take(sections, k + 1) == taken[j := WithText(taken[j], sections[j].texts[i])]
    decreases j
  {
    if j == 0 {
      TakeNextOfHead(sections, i);
    } else {
      CountIs(sections, j);
      TakeNext(sections[1..], j - 1, i, k - |sections[0].texts|);
      TakeNextOfTail(sections, j, k, sections[j].texts[i]);
    }
  }

  lemma TakeNextOfHead(sections: seq<Section>, i: nat)
    requires sections != [] && i < |sections[0].texts|
    ensures var taken := Take(sections, i);
      Take(sections, i + 1) == taken[0 := WithText(taken[0], sections[0].texts[i])]
  {
    TakeIs(sections, i);
    TakeIs(sections, i + 1);
    HeadNext(sections[0], i);
  }

  lemma TakeNextOfTail(sections: seq<Section>, j: nat, k: nat, text: string)
    requires 0 < j < |sections| && k >= |sections[0].texts|
    requires var tail := Take(sections[1..], k - |sections[0].texts|);
      Take(sections[1..], k - |sections[0].texts| + 1) == tail[j - 1 := WithText(tail[j - 1], text)]
    ensures var taken := Take(sections, k); Take(sections, k + 1) == taken[j := WithText(taken[j], text)]
  {
    var tail := Take(sections[1..], k - |sections[0].texts|);
    TakeIs(sections, k);
    TakeIs(sections, k + 1);
    UpdateOfCons(sections[0], tail, j, WithText(tail[j - 1], text));
  }

  lemma CountIs(sections: seq<Section>, j: nat)
    requires 0 < j <= |sections|
    ensures Count(sections[..j]) == |sections[0].texts| + Count(sections[1..][..j - 1])
  {
    assert sections[..j][1..] == sections[1..][..j - 1];
  }

  // Appending the next text of a section keeps one more item of the source.
  lemma AppendNext(d: Definition, j: nat, i: nat, k: nat)
    requires j < |d.sections| && i < |d.sections[j].texts| && k == Count(d.sections[..j]) + i
    ensures AppendText(Prefix(d, k), j, d.sections[j].texts[i]) == Prefix(d, k + 1)
  {
    TakeNext(d.sections, j, i, k);
  }

  lemma {:induction false} CountOfPrefix(sections: seq<Section>, j: nat)
    requires j < |sections|
    ensures Count(sections[..j + 1]) == Count(sections[..j]) + |sections[j].texts| <= Count(sections)
  {
    if j > 0 {
      assert sections[..j + 1][1..] == sections[1..][..j];
      assert sections[..j][1..] == sections[1..][..j - 1];
      CountOfPrefix(sections[1..], j - 1);
    }
  }

  // Appends the texts of one section, in order, until one does not fit.
  method AppendItems(source: Definition, j: nat, start: Definition, cost: Cost, limit: int, ghost base: nat)
    returns (filled: Definition, cropped: bool)
    requires j < |source.sections| && base == Count(source.sections[..j])
    requires Grows(source, cost) && start == Prefix(source, base) && cost(start) <= limit
    ensures !cropped ==> filled == Prefix(source, base + |source.sections[j].texts|)
    ensures cropped ==>
      LongestFit(source, cost, limit) < Items(source) && filled == Prefix(source, LongestFit(source, cost, limit))
    ensures cost(filled) <= limit
  {
    filled, cropped := start, false;
    var texts := source.sections[j].texts;
    for i := 0 to |texts|
      invariant filled == Prefix(source, base + i) && cost(filled) <= limit
    {
      AppendNext(source, j, i, base + i);
      var updated;
      filled, updated := TryUpdate(filled, AppendText(filled, j, texts[i]), cost, limit);
      if !updated {
        CountOfPrefix(source.sections, j);
        LongestFitIs(source, cost, limit, base + i);
        cropped := true;
        return;
      }
    }
  }

  // Refills a definition from source, in order, until an item does not fit.
  method FillWithinBudget(source: Definition, cost: Cost, limit: int) returns (filled: Definition, cropped: bool)
    requires Grows(source, cost) && cost(Prefix(source, 0)) <= limit
    ensures filled == Prefix(source, LongestFit(source, cost, limit)) && cost(filled) <= limit
    ensures cropped <==> LongestFit(source, cost, limit) < Items(source)
  {
    filled, cropped := Prefix(source, 0), false;
    ghost var base := 0;
    for j := 0 to |source.sections|
      invariant base == Count(source.sections[..j]) && filled == Prefix(source, base)
      invariant cost(filled) <= limit
    {
      filled, cropped := AppendItems(source, j, filled, cost, limit, base);
      if cropped {
        return;
      }
      CountOfPrefix(source.sections, j);
      base := base + |source.sections[j].texts|;
    }
    assert source.sections[..|source.sections|] == source.sections;
    LongestFitIs(source, cost, limit, Items(source));
  }

  datatype DefinitionCrop = DefinitionCrop(agent: bool, game: bool)

  datatype Budgeted = Budgeted(agent: Option<Definition>, game: Option<Definition>, crop: DefinitionCrop,
                               exceeded: bool)

  // What the budget keeps of one definition beside another.
  function Refilled(source: Option<Definition>, other: Option<Definition>, limit: int): Option<Definition> {
    if source.None? then None else Some(Prefix(source.value, LongestFit(source.value, CostBeside(other), limit)))
  }

  method ApplyDefinitionBudget(sourceAgent: Option<Definition>, sourceGame: Option<Definition>, maxTokens: int)
    returns (r: Budgeted)
    ensures r.crop == DefinitionCrop(r.agent != sourceAgent, r.game != sourceGame)
    ensures r.exceeded <==> 0 < maxTokens < DefinitionTokens(Minimal(sourceAgent), Minimal(sourceGame))
    ensures maxTokens <= 0 ==> r.agent == sourceAgent && r.game == sourceGame
    ensures r.exceeded ==> r.agent == Minimal(sourceAgent) && r.game == Minimal(sourceGame)
    ensures maxTokens > 0 && !r.exceeded ==>
      && r.agent == Refilled(sourceAgent, Minimal(sourceGame), maxTokens)
      && r.game == Refilled(sourceGame, r.agent, maxTokens)
      && DefinitionTokens(r.agent, r.game) <= maxTokens
  {
    if maxTokens <= 0 || (sourceAgent.None? && sourceGame.None?) {
      return Budgeted(sourceAgent, sourceGame, DefinitionCrop(false, false), false);
    }
    var agent, game := Minimal(sourceAgent), Minimal(sourceGame);
    if DefinitionTokens(agent, game) > maxTokens {
      return Budgeted(agent, game, CropOf(sourceAgent, sourceGame, agent, game), true);
    }
    agent := RefillBeside(sourceAgent, game, maxTokens);
    game := RefillBeside(sourceGame, agent, maxTokens);
    r := Budgeted(agent, game, CropOf(sourceAgent, sourceGame, agent, game), false);
  }

  function CropOf(sourceAgent: Option<Definition>, sourceGame: Option<Definition>,
                  agent: Option<Definition>, game: Option<Definition>): DefinitionCrop
  {
    DefinitionCrop(sourceAgent.Some? && sourceAgent != agent, sourceGame.Some? && sourceGame != game)
  }

  method RefillBeside(source: Option<Definition>, other: Option<Definition>, limit: int)
    returns (filled: Option<Definition>)
    requires DefinitionTokens(Minimal(source), other) <= limit
    ensures filled == Refilled(source, other, limit) && DefinitionTokens(filled, other) <= limit
  {
    if source.None? {
      return None;
    }
    CostBesideGrows(source.value, other);
    var d, _ := FillWithinBudget(source.value, CostBeside(other), limit);
    filled := Some(d);
  }

  // A definition that fits in full beside the other one is kept in full.
  lemma FullFitIsUnchanged(source: Definition, other: Option<Definition>, limit: int)
    requires DefinitionTokens(Some(source), other) <= limit
    ensures Refilled(Some(source), other, limit) == Some(source)
  {
    TakeAll(source.sections, Items(source));
    CostBesideGrows(source, other);
    LongestFitIs(source, CostBeside(other), limit, Items(source));
  }

  lemma {:induction false} PrefixesGrow(d: Definition, j: nat, k: nat)
    requires j <= k
    ensures TokensOf(Some(Prefix(d, j))) <= TokensOf(Some(Prefix(d, k)))
  {
    if j < k {
      PrefixesGrow(d, j, k - 1);
      PrefixGrows(d, k - 1);
    }
  }

  // The prefixes of the items that fit are exactly those no longer than the one that is kept.
  lemma RefilledIsLongest(source: Definition, other: Option<Definition>, limit: int, k: nat)
    requires DefinitionTokens(Minimal(Some(source)), other) <= limit && k <= Items(source)
    ensures DefinitionTokens(Some(Prefix(source, k)), other) <= limit <==>
      k <= LongestFit(source, CostBeside(other), limit)
  {
    var fits := FitTest(source, CostBeside(other), limit);
    var longest := LongestFit(source, CostBeside(other), limit);
    assert fits(0);
    LargestFitIsLargest(fits, Items(source));
    assert fits(longest);
    if k <= longest {
      PrefixesGrow(source, k, longest);
    } else {
      assert !fits(k);
    }
  }

  // Refilling keeps what is required.
  lemma RefilledKeepsRequired(source: Option<Definition>, other: Option<Definition>, limit: int)
    ensures Minimal(Refilled(source, other, limit)) == Minimal(source)
  {
    if source.Some? {
      TakeTwice(source.value.sections, LongestFit(source.value, CostBeside(other), limit), 0);
    }
  }
}

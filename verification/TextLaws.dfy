/**
 What the sections look like as JSON text (the field tags of runtime/internal/context/context.go:199-234 and of
 runtime/internal/definition/definition.go) and what that makes them cost at least.
 */
module TextLaws {
  import opened Common
  import Json
  import opened TokenEstimate
  import opened JsonText
  import opened Memory
  import opened DefinitionBudget
  import Projection
  import opened SectionText

  /* ---- Memories ---- */

  // How parts are joined, and how members, lists and objects are written.
  lemma PunctuationIs(first: string, rest: seq<string>, name: string, value: string)
    requires Delimited(value) && Delimited(first) && AllDelimited(rest)
    ensures JoinComma([]) == "" && JoinComma([first]) == first
    ensures rest != [] ==> JoinComma([first] + rest) == first + "," + JoinComma(rest)
    ensures Array(rest) == "[" + JoinComma(rest) + "]" && Object(rest) == "{" + JoinComma(rest) + "}"
    ensures Member(name, value) == "\"" + name + "\":" + value
  {
    assert ([first] + rest)[1..] == rest;
    JoinIsAssociative(first, ",", JoinComma(rest));
    JoinIsAssociative("[", JoinComma(rest), "]");
    JoinIsAssociative("{", JoinComma(rest), "}");
    JoinIsAssociative("\"", name, "\":" + value);
    JoinIsAssociative("\"" + name, "\":", value);
  }

  function TextField(name: string, text: string): (s: string)
    ensures Delimited(s)
  {
    "\"" + name + "\":" + Quote(text)
  }

  // A member that is a text, or a list of texts; what is empty is left out.
  function TextMember(name: string, text: string): (members: seq<string>)
    ensures AllDelimited(members)
  {
    if text == "" then [] else [TextField(name, text)]
  }

  function ListMember(name: string, items: seq<string>): (members: seq<string>)
    ensures AllDelimited(members)
  {
    if items == [] then [] else ["\"" + name + "\":[" + JoinComma(QuoteAll(items)) + "]"]
  }

  lemma MembersAre(name: string, text: string, items: seq<string>)
    ensures OptionalText(name, text) == TextMember(name, text) && OptionalList(name, items) == ListMember(name, items)
  {
    var quote, list := Quote(text), Array(QuoteAll(items));
    PunctuationIs(quote, [], name, quote);
    PunctuationIs(quote, QuoteAll(items), name, list);
    JoinIsAssociative("\"" + name + "\":", "[" + JoinComma(QuoteAll(items)), "]");
    JoinIsAssociative("\"" + name + "\":", "[", JoinComma(QuoteAll(items)));
    ColonBracket(name);
  }

  lemma ColonBracket(name: string)
    ensures "\"" + name + "\":" + "[" == "\"" + name + "\":["
  {
  }

  lemma MemoryTextIs(m: MemoryProjection)
    ensures MemoryObject(m) == Object(TextMember("memory_id", m.memoryId)
                                      + TextMember("time_relation", m.timeRelation)
                                      + ListMember("summaries", m.summaries))
  {
    MembersAre("memory_id", m.memoryId, []);
    MembersAre("time_relation", m.timeRelation, []);
    MembersAre("summaries", "", m.summaries);
  }

  function MemoryLength(m: MemoryProjection): nat {
    |m.memoryId| + |m.timeRelation| + SumOfLengths(m.summaries)
  }

  function MemoriesLength(ms: seq<MemoryProjection>): nat {
    if ms == [] then 0 else MemoryLength(ms[0]) + MemoriesLength(ms[1..])
  }

  lemma MemoryTextIsLonger(m: MemoryProjection)
    ensures |MemoryObject(m)| >= MemoryLength(m)
  {
    var a, b, c := OptionalText("memory_id", m.memoryId), OptionalText("time_relation", m.timeRelation),
                   OptionalList("summaries", m.summaries);
    OptionalTextIsLonger("memory_id", m.memoryId);
    OptionalTextIsLonger("time_relation", m.timeRelation);
    OptionalListIsLonger("summaries", m.summaries);
    LengthsOfJoin(a, b);
    LengthsOfJoin(a + b, c);
    JoinIsLonger(a + b + c);
  }

  lemma OptionalTextIsLonger(name: string, text: string)
    ensures SumOfLengths(OptionalText(name, text)) >= |text|
  {
    EscapeIsLonger(text);
  }

  lemma OptionalListIsLonger(name: string, items: seq<string>)
    ensures SumOfLengths(OptionalList(name, items)) >= SumOfLengths(items)
  {
    QuotesAreLonger(items);
    JoinIsLonger(QuoteAll(items));
  }

  lemma {:induction false} LengthsOfJoin(a: seq<string>, b: seq<string>)
    ensures SumOfLengths(a + b) == SumOfLengths(a) + SumOfLengths(b)
  {
    if a == [] {
      assert a + b == b;
    } else {
      assert (a + b)[1..] == a[1..] + b;
      LengthsOfJoin(a[1..], b);
    }
  }

  lemma {:induction false} ObjectsAreLonger(ms: seq<MemoryProjection>)
    ensures SumOfLengths(MemoryObjects(ms)) >= MemoriesLength(ms)
  {
    if ms != [] {
      MemoryTextIsLonger(ms[0]);
      ObjectsAreLonger(ms[1..]);
    }
  }

  // Four runes of a memory cost a token at least: no id, relation or summary is left out of the section.
  lemma MemoriesCost(ms: seq<MemoryProjection>)
    ensures 4 * MemoryTokens(ms) >= MemoriesLength(ms)
  {
    ObjectsAreLonger(ms);
    JoinIsLonger(MemoryObjects(ms));
    TokensTell(Array(MemoryObjects(ms)));
  }

  /* ---- Definitions ---- */

  // The texts of all sections in order.
  function AllTexts(sections: seq<Section>): seq<string> {
    if sections == [] then [] else sections[0].texts + AllTexts(sections[1..])
  }

  // A prefix of a definition has its required fields, its sections, and the first of their texts.
  lemma {:induction false} TakeTells(sections: seq<Section>, k: nat)
    ensures k <= |AllTexts(sections)| ==> AllTexts(Take(sections, k)) == AllTexts(sections)[..k]
    ensures k >= |AllTexts(sections)| ==> AllTexts(Take(sections, k)) == AllTexts(sections)
    ensures forall i | 0 <= i < |sections| ::
      Take(sections, k)[i].name == sections[i].name && Take(sections, k)[i].isList == sections[i].isList
  {
    if sections != [] {
      var n := |sections[0].texts|;
      TakeIs(sections, k);
      TakeTells(sections[1..], if k < n then 0 else k - n);
      var taken := Take(sections, k);
      assert taken[1..] == Take(sections[1..], if k < n then 0 else k - n);
    }
  }

  lemma {:induction false} CountTells(sections: seq<Section>)
    ensures Count(sections) == |AllTexts(sections)|
  {
    if sections != [] {
      CountTells(sections[1..]);
    }
  }

  lemma PrefixTells(d: Definition, k: nat)
    requires k <= Items(d)
    ensures Items(d) == |AllTexts(d.sections)| && Prefix(d, k).required == d.required
    ensures AllTexts(Prefix(d, k).sections) == AllTexts(d.sections)[..k]
    ensures AllTexts(Minimal(Some(d)).value.sections) == [] && Minimal(Some(d)).value.required == d.required
  {
    CountTells(d.sections);
    TakeTells(d.sections, k);
    TakeTells(d.sections, 0);
  }

  // The texts of an agent in the order in which they are refilled, and of a game.
  lemma AgentTexts(v: string, g: string, id: string, identity: string, personality: seq<string>,
                   speechStyle: seq<string>, preferences: seq<string>, guidelines: seq<string>, source: string)
    requires identity != "" && source != ""
    ensures var d := AgentDefinition(v, g, id, identity, personality, speechStyle, preferences, guidelines, source);
      AllTexts(d.sections) == [identity] + personality + speechStyle + preferences + guidelines + [source]
  {
    var d := AgentDefinition(v, g, id, identity, personality, speechStyle, preferences, guidelines, source);
    SixTexts(d.sections);
  }

  lemma GameTexts(v: string, g: string, title: string, summary: string, rules: seq<string>, lore: seq<string>,
                  constraints: seq<string>, source: string)
    requires title != "" && summary != "" && source != ""
    ensures var d := GameDefinition(v, g, title, summary, rules, lore, constraints, source);
      AllTexts(d.sections) == [title] + [summary] + rules + lore + constraints + [source]
  {
    var d := GameDefinition(v, g, title, summary, rules, lore, constraints, source);
    SixTexts(d.sections);
  }

  lemma SixTexts(s: seq<Section>)
    requires |s| == 6
    ensures AllTexts(s) == s[0].texts + s[1].texts + s[2].texts + s[3].texts + s[4].texts + s[5].texts
  {
    TextsFrom(s, 0);
    TextsFrom(s, 1);
    TextsFrom(s, 2);
    TextsFrom(s, 3);
    TextsFrom(s, 4);
    TextsFrom(s, 5);
    assert s[6..] == [] && s[0..] == s;
    JoinsAreOne(s[0].texts, s[1].texts, s[2].texts, s[3].texts, s[4].texts, s[5].texts);
  }

  lemma TextsFrom(s: seq<Section>, i: nat)
    requires i < |s|
    ensures AllTexts(s[i..]) == s[i].texts + AllTexts(s[i + 1..])
  {
    assert s[i..][1..] == s[i + 1..];
  }

  function FieldLengths(fields: seq<Field>): nat {
    if fields == [] then 0 else |fields[0].name| + |fields[0].text| + FieldLengths(fields[1..])
  }

  lemma {:induction false} FieldsAreLonger(fields: seq<Field>)
    ensures SumOfLengths(FieldMembers(fields)) >= FieldLengths(fields)
  {
    if fields != [] {
      EscapeIsLonger(fields[0].text);
      FieldsAreLonger(fields[1..]);
      LengthsOfJoin([Member(fields[0].name, Quote(fields[0].text))], FieldMembers(fields[1..]));
    }
  }

  lemma {:induction false} SectionsAreLonger(sections: seq<Section>)
    requires forall s | s in sections :: s.isList || |s.texts| <= 1
    ensures SumOfLengths(AllSectionMembers(sections)) >= SumOfLengths(AllTexts(sections))
  {
    if sections != [] {
      var s := sections[0];
      SectionIsLonger(s);
      SectionsAreLonger(sections[1..]);
      LengthsOfJoin(SectionMembers(s), AllSectionMembers(sections[1..]));
      LengthsOfJoin(s.texts, AllTexts(sections[1..]));
    }
  }

  lemma SectionIsLonger(s: Section)
    requires s.isList || |s.texts| <= 1
    ensures SumOfLengths(SectionMembers(s)) >= SumOfLengths(s.texts)
  {
    if s.isList {
      OptionalListIsLonger(s.name, s.texts);
    } else if s.texts != [] {
      EscapeIsLonger(s.texts[0]);
      assert s.texts[1..] == [];
    }
  }

  // Four runes of a definition cost a token at least: neither required fields nor texts are left out.
  lemma DefinitionCosts(d: Definition, other: Option<Definition>)
    requires forall s | s in d.sections :: s.isList || |s.texts| <= 1
    ensures 4 * DefinitionTokens(Some(d), other) >= FieldLengths(d.required) + SumOfLengths(AllTexts(d.sections))
    ensures 4 * DefinitionTokens(other, Some(d)) >= FieldLengths(d.required) + SumOfLengths(AllTexts(d.sections))
    ensures DefinitionTokens(Some(d), other) ==
      Tokens(Render(d)) + if other.None? then 0 else Tokens(Render(other.value))
  {
    var fields, sections := FieldMembers(d.required), AllSectionMembers(d.sections);
    FieldsAreLonger(d.required);
    SectionsAreLonger(d.sections);
    LengthsOfJoin(fields, sections);
    JoinIsLonger(fields + sections);
    TokensTell(Render(d));
  }

  // The text of an agent definition and of a game definition: every required field, and what is not empty.
  lemma AgentTextIs(v: string, g: string, id: string, identity: string, personality: seq<string>,
                    speechStyle: seq<string>, preferences: seq<string>, guidelines: seq<string>, source: string)
    ensures var d := AgentDefinition(v, g, id, identity, personality, speechStyle, preferences, guidelines, source);
      Render(d) == Object(
          [TextField("schema_version", v), TextField("game_id", g), TextField("definition_id", id)]
          + (TextMember("identity", identity) + ListMember("personality", personality)
             + ListMember("speech_style", speechStyle) + ListMember("preferences", preferences)
             + ListMember("behavior_guidelines", guidelines) + TextMember("source_version", source)))
  {
    var d := AgentDefinition(v, g, id, identity, personality, speechStyle, preferences, guidelines, source);
    SixMembers(d.sections);
    MembersAre("identity", identity, []);
    MembersAre("personality", "", personality);
    MembersAre("speech_style", "", speechStyle);
    MembersAre("preferences", "", preferences);
    MembersAre("behavior_guidelines", "", guidelines);
    MembersAre("source_version", source, []);
    ThreeFields(v, g, id);
  }

  lemma GameTextIs(v: string, g: string, title: string, summary: string, rules: seq<string>, lore: seq<string>,
                   constraints: seq<string>, source: string)
    ensures Render(GameDefinition(v, g, title, summary, rules, lore, constraints, source)) == Object(
        [TextField("schema_version", v), TextField("game_id", g)]
        + (TextMember("title", title) + TextMember("summary", summary) + ListMember("world_rules", rules)
           + ListMember("lore", lore) + ListMember("narrative_constraints", constraints)
           + TextMember("source_version", source)))
  {
    var d := GameDefinition(v, g, title, summary, rules, lore, constraints, source);
    SixMembers(d.sections);
    MembersAre("title", title, []);
    MembersAre("summary", summary, []);
    MembersAre("world_rules", "", rules);
    MembersAre("lore", "", lore);
    MembersAre("narrative_constraints", "", constraints);
    MembersAre("source_version", source, []);
    ThreeFields(v, g, "");
  }

  lemma ThreeFields(v: string, g: string, id: string)
    ensures FieldMembers([Field("schema_version", v), Field("game_id", g), Field("definition_id", id)]) ==
      [TextField("schema_version", v), TextField("game_id", g), TextField("definition_id", id)]
    ensures FieldMembers([Field("schema_version", v), Field("game_id", g)]) ==
      [TextField("schema_version", v), TextField("game_id", g)]
  {
    FieldIs("schema_version", v, [Field("game_id", g), Field("definition_id", id)]);
    FieldIs("game_id", g, [Field("definition_id", id)]);
    FieldIs("definition_id", id, []);
    FieldIs("schema_version", v, [Field("game_id", g)]);
    FieldIs("game_id", g, []);
    var a, b, c := Field("schema_version", v), Field("game_id", g), Field("definition_id", id);
    assert [a] + [b, c] == [a, b, c] && [b] + [c] == [b, c] && [c] + [] == [c];
    assert [a] + [b] == [a, b] && [b] + [] == [b];
  }

  lemma FieldIs(name: string, text: string, rest: seq<Field>)
    ensures FieldMembers([Field(name, text)] + rest) == [TextField(name, text)] + FieldMembers(rest)
  {
    assert ([Field(name, text)] + rest)[1..] == rest;
    PunctuationIs(Quote(text), [], name, Quote(text));
  }

  lemma SixMembers(s: seq<Section>)
    requires |s| == 6
    ensures AllSectionMembers(s) == SectionMembers(s[0]) + SectionMembers(s[1]) + SectionMembers(s[2])
                                    + SectionMembers(s[3]) + SectionMembers(s[4]) + SectionMembers(s[5])
  {
    MembersFrom(s, 0);
    MembersFrom(s, 1);
    MembersFrom(s, 2);
    MembersFrom(s, 3);
    MembersFrom(s, 4);
    MembersFrom(s, 5);
    assert s[6..] == [] && s[0..] == s;
    JoinsAreOne(SectionMembers(s[0]), SectionMembers(s[1]), SectionMembers(s[2]), SectionMembers(s[3]),
                SectionMembers(s[4]), SectionMembers(s[5]));
  }

  lemma JoinsAreOne<T>(a: seq<T>, b: seq<T>, c: seq<T>, d: seq<T>, e: seq<T>, f: seq<T>)
    ensures a + (b + (c + (d + (e + (f + []))))) == a + b + c + d + e + f
  {
  }

  lemma MembersFrom(s: seq<Section>, i: nat)
    requires i < |s|
    ensures AllSectionMembers(s[i..]) == SectionMembers(s[i]) + AllSectionMembers(s[i + 1..])
  {
    assert s[i..][1..] == s[i + 1..];
  }

  /* ---- Facts, events and observations ---- */

  // A member that is an object; its fields are rendered elsewhere.
  function MapMember(name: string, m: Json.JsonMap, t: Texts): (members: seq<string>)
    ensures AllDelimited(members)
  {
    if m == map[] then [] else ["\"" + name + "\":" + ("{" + t.fields(m))]
  }

  lemma MapMemberIs(name: string, m: Json.JsonMap, t: Texts)
    ensures OptionalMap(name, m, t) == MapMember(name, m, t)
  {
    PunctuationIs("{", [], name, "{" + t.fields(m));
  }

  lemma FactTextIs(f: Projection.Fact, t: Texts)
    ensures FactText(f, t) == Object(
        TextMember("kind", f.kind) + TextMember("actor_entity_id", f.actorEntityId)
        + TextMember("target_entity_id", f.targetEntityId) + TextMember("scope_id", f.scopeId)
        + TextMember("text", f.text) + (TextMember("label", f.labelText) + MapMember("attributes", f.attributes, t)))
  {
    MembersAre("kind", f.kind, []);
    MembersAre("actor_entity_id", f.actorEntityId, []);
    MembersAre("target_entity_id", f.targetEntityId, []);
    MembersAre("scope_id", f.scopeId, []);
    MembersAre("text", f.text, []);
    MembersAre("label", f.labelText, []);
    MapMemberIs("attributes", f.attributes, t);
  }

  lemma FactsTextIs(facts: seq<Projection.Fact>, t: Texts)
    ensures facts == [] ==> FactsText(facts, t) == "null"
    ensures facts != [] ==>
      exists parts :: |parts| == |facts| && FactsText(facts, t) == Array(parts)
        && forall i | 0 <= i < |facts| :: parts[i] == FactText(facts[i], t)
  {
    assert forall i | 0 <= i < |facts| :: FactTexts(facts, t)[i] == FactText(facts[i], t);
  }

  lemma EventTextIs(e: Projection.Event, o: Projection.Observation, t: Texts)
    ensures EventText(e, t) == Object(Members(t.eventShell(e.shell)) + MapMember("payload", e.payload, t))
    ensures ObservationText(o, t) == Object(
        Members(t.observationShell(o.shell))
        + ((if o.nearbyEntities == [] then []
            else ["\"" + "nearby_entities" + "\":" + Array(EntityTexts(o.nearbyEntities, t))])
           + MapMember("extensions", o.extensions, t) + MapMember("state", o.state, t)))
  {
    MapMemberIs("payload", e.payload, t);
    MapMemberIs("extensions", o.extensions, t);
    MapMemberIs("state", o.state, t);
    PunctuationIs("{", [], "nearby_entities", Array(EntityTexts(o.nearbyEntities, t)));
  }
}

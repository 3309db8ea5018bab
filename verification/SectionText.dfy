/**
 The JSON text of the event, the observation and the facts of a projection (the field tags of
 runtime/internal/context/context.go:199-228), which is what their section limits are about.

 Texts of parts that the model does not look into are arbitrary: a member of an object starts with its quoted
 name, an object with its brace.
 */
module SectionText {
  import opened Entities
  import Json
  import opened JsonText
  import opened TokenEstimate
  import opened Projection

  // The rest of the text of a member, or of an object, after its first rune.
  datatype Texts = Texts(
    eventShell: EventShell -> seq<string>,
    observationShell: ObservationShell -> seq<string>,
    entity: EntityRef -> string,
    fields: Json.JsonMap -> string)

  function Members(rests: seq<string>): (members: seq<string>)
    ensures AllDelimited(members)
  {
    seq(|rests|, i requires 0 <= i < |rests| => "\"" + rests[i])
  }

  function OptionalMap(name: string, m: Json.JsonMap, t: Texts): (members: seq<string>)
    ensures AllDelimited(members)
  {
    if m == map[] then [] else [Member(name, "{" + t.fields(m))]
  }

  function EntityTexts(entities: seq<EntityRef>, t: Texts): seq<string> {
    seq(|entities|, i requires 0 <= i < |entities| => "{" + t.entity(entities[i]))
  }

  function OptionalEntities(entities: seq<EntityRef>, t: Texts): (members: seq<string>)
    ensures AllDelimited(members)
  {
    if entities == [] then [] else [Member("nearby_entities", Array(EntityTexts(entities, t)))]
  }

  function EventText(e: Event, t: Texts): string {
    Object(Members(t.eventShell(e.shell)) + OptionalMap("payload", e.payload, t))
  }

  function DetailMembers(o: Observation, t: Texts): (members: seq<string>)
    ensures AllDelimited(members)
  {
    OptionalEntities(o.nearbyEntities, t) + OptionalMap("extensions", o.extensions, t)
    + OptionalMap("state", o.state, t)
  }

  function ObservationText(o: Observation, t: Texts): string {
    Object(Members(t.observationShell(o.shell)) + DetailMembers(o, t))
  }

  function FactIdentity(f: Fact): (members: seq<string>)
    ensures AllDelimited(members)
  {
    OptionalText("kind", f.kind) + OptionalText("actor_entity_id", f.actorEntityId)
    + OptionalText("target_entity_id", f.targetEntityId) + OptionalText("scope_id", f.scopeId)
  }

  function FactMembers(f: Fact, t: Texts): (members: seq<string>)
    ensures AllDelimited(members)
  {
    FactIdentity(f) + OptionalText("text", f.text)
    + (OptionalText("label", f.labelText) + OptionalMap("attributes", f.attributes, t))
  }

  function FactText(f: Fact, t: Texts): (s: string)
    ensures Delimited(s)
  {
    Object(FactMembers(f, t))
  }

  function FactTexts(facts: seq<Fact>, t: Texts): (parts: seq<string>)
    ensures |parts| == |facts| && AllDelimited(parts)
  {
    seq(|facts|, i requires 0 <= i < |facts| => FactText(facts[i], t))
  }

  // No facts are rendered as null.
  function FactsText(facts: seq<Fact>, t: Texts): string {
    if facts == [] then "null" else Array(FactTexts(facts, t))
  }

  // Members that are left out never make an object dearer.
  lemma FewerMembersCostLess(a: seq<string>, b: seq<string>)
    requires AllDelimited(a) && AllDelimited(b)
    ensures Tokens(Object(a)) <= Tokens(Object(a + b))
  {
    CommaSumOfJoin(a, b);
    ObjectTokens(a);
    ObjectTokens(a + b);
  }

  // What is left of an event or an observation without its details costs no more than any form with details.
  lemma BareTextsCostLeast(e: Event, o: Observation, t: Texts)
    ensures Tokens(EventText(BareEvent(e), t)) <= Tokens(EventText(e, t))
    ensures Tokens(ObservationText(BareObservation(o), t)) <= Tokens(ObservationText(o, t))
  {
    FewerMembersCostLess(Members(t.eventShell(e.shell)), OptionalMap("payload", e.payload, t));
    FewerMembersCostLess(Members(t.observationShell(o.shell)), DetailMembers(o, t));
    assert Members(t.eventShell(e.shell)) + [] == Members(t.eventShell(e.shell));
    assert Members(t.observationShell(o.shell)) + ([] + [] + []) == Members(t.observationShell(o.shell));
  }

  /* ---- The mark of a dropped text ---- */

  lemma QuoteTokens(s: string)
    ensures Tokens(Quote(s)) == 2 + Tokens(Escape(s))
  {
    JoinAtBoundary("\"" + Escape(s), "\"");
    JoinAtBoundary("\"", Escape(s));
    assert Tokens("\"") == 1;
  }

  lemma {:induction false} EscapePlain(s: string)
    requires forall i | 0 <= i < |s| :: EscapeRune(s[i]) == [s[i]]
    ensures Escape(s) == s
  {
    if s != [] {
      EscapePlain(s[1..]);
    }
  }

  predicate IsPlainLetter(r: char) {
    r == '_' || 'a' <= r <= 'z'
  }

  lemma PlainLetter(r: char)
    requires IsPlainLetter(r)
    ensures EscapeRune(r) == [r]
  {
  }

  lemma PlainLetters(s: string)
    requires forall i | 0 <= i < |s| :: IsPlainLetter(s[i])
    ensures Escape(s) == s
  {
    forall i | 0 <= i < |s|
      ensures EscapeRune(s[i]) == [s[i]]
    {
      PlainLetter(s[i]);
    }
    EscapePlain(s);
  }

  lemma MarkTokens()
    ensures Tokens(Quote(TRUNCATED_MARKER)) >= 5
  {
    var mark := TRUNCATED_MARKER;
    assert |mark| == 10;
    PlainLetters(mark);
    QuoteTokens(mark);
    LengthBounds(mark);
  }

  // A text that is escaped to one or two runes is cheaper than its mark.
  lemma MarkMayCostMore(text: string)
    requires |Escape(text)| <= 2
    ensures Tokens(Quote(text)) < Tokens(Quote(TRUNCATED_MARKER))
  {
    MarkTokens();
    QuoteTokens(text);
    LengthBounds(Escape(text));
  }

  lemma MembersCost(f: Fact, t: Texts)
    ensures CommaSum(FactMembers(f, t)) ==
      CommaSum(FactIdentity(f)) + CommaSum(OptionalText("text", f.text)) + CommaSum(OptionalText("label", f.labelText))
      + CommaSum(OptionalMap("attributes", f.attributes, t))
  {
    CommaSumOfJoin(FactIdentity(f), OptionalText("text", f.text));
    CommaSumOfJoin(OptionalText("label", f.labelText), OptionalMap("attributes", f.attributes, t));
    CommaSumOfJoin(FactIdentity(f) + OptionalText("text", f.text),
                   OptionalText("label", f.labelText) + OptionalMap("attributes", f.attributes, t));
  }

  // A fact with nothing to drop but a short text.
  predicate IsShort(f: Fact) {
    f.text != "" && |Escape(f.text)| <= 2 && f.attributes == map[]
  }

  lemma OneLetterIsShort()
    ensures IsShort(Fact("note", "", "", "", "a", "", map[]))
  {
    PlainLetters("a");
  }

  lemma ShellCostsMore(f: Fact, t: Texts)
    requires IsShort(f)
    ensures Tokens(FactText(f, t)) < Tokens(FactText(FactShell(f), t))
  {
    MembersCost(f, t);
    MembersCost(FactShell(f), t);
    MarkMayCostMore(f.text);
    MemberTokens("text", Quote(f.text));
    MemberTokens("text", Quote(TRUNCATED_MARKER));
    ObjectTokens(FactMembers(f, t));
    ObjectTokens(FactMembers(FactShell(f), t));
  }

  // Dropping the details of such facts makes their section dearer.
  lemma ShellsCostMore(facts: seq<Fact>, t: Texts)
    requires facts != [] && forall f | f in facts :: IsShort(f)
    ensures Tokens(FactsText(facts, t)) < Tokens(FactsText(FactShells(facts), t))
  {
    var before, after := FactTexts(facts, t), FactTexts(FactShells(facts), t);
    forall i | 0 <= i < |facts|
      ensures Tokens(before[i]) < Tokens(after[i])
    {
      assert facts[i] in facts;
      ShellCostsMore(facts[i], t);
    }
    DearerPartsSumMore(before, after);
    ArrayTokens(before);
    ArrayTokens(after);
  }

  lemma {:induction false} DearerPartsSumMore(a: seq<string>, b: seq<string>)
    requires |a| == |b| && forall i | 0 <= i < |a| :: Tokens(a[i]) < Tokens(b[i])
    ensures CommaSum(b) >= CommaSum(a) + |a|
  {
    if a != [] {
      DearerPartsSumMore(a[1..], b[1..]);
    }
  }
}

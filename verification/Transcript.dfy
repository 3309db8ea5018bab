/**
 Causal groups of a transcript (runtime/internal/context/transcript_projection.go): a plain message
 stands alone, a message with tool calls stands with the message that answers exactly those calls.
 */
module Transcript {
  import opened Common
  import opened Messages
  import opened Text

  type Group = seq<Message>

  datatype TranscriptError = ResultWithoutCall | CallWithoutResult | LatestGroupOverBudget

  function IdSet(ids: seq<string>): set<string> {
    set id | id in ids
  }

  // The results answer the calls: ids are present and distinct on both sides and the same.
  predicate Answers(calls: seq<ToolCall>, results: seq<ToolResult>) {
    && calls != []
    && DistinctIds(CallIds(calls))
    && DistinctIds(ResultIds(results))
    && IdSet(CallIds(calls)) == IdSet(ResultIds(results))
  }

  predicate IsGroup(g: Group) {
    || (|g| == 1 && g[0].toolCalls == [] && g[0].toolResults == [])
    || (|g| == 2 && g[1].toolCalls == [] && Answers(g[0].toolCalls, g[1].toolResults))
  }

  predicate AreGroups(gs: seq<Group>) {
    forall g | g in gs :: IsGroup(g)
  }

  function Flatten(gs: seq<Group>): seq<Message> {
    if gs == [] then [] else gs[0] + Flatten(gs[1..])
  }

  method ToolResultsMatchCalls(calls: seq<ToolCall>, results: seq<ToolResult>) returns (matched: bool)
    ensures matched <==> Answers(calls, results)
  {
    DistinctCount(CallIds(calls));
    DistinctCount(ResultIds(results));
    if |calls| == 0 || |calls| != |results| {
      return false;
    }
    var seen, callsOk := CollectIds(CallIds(calls));
    if !callsOk {
      return false;
    }
    var found, resultsOk := CollectIds(ResultIds(results));
    if !resultsOk || !(found <= seen) {
      return false;
    }
    SubsetOfSameSize(found, seen);
    matched := |found| == |seen|;
  }

  // The set of the ids, unless one is missing or repeated.
  method CollectIds(ids: seq<string>) returns (seen: set<string>, ok: bool)
    ensures ok <==> DistinctIds(ids)
    ensures ok ==> seen == IdSet(ids)
  {
    seen := {};
    for i := 0 to |ids|
      invariant seen == set k | 0 <= k < i :: ids[k]
      invariant DistinctIds(ids[..i])
    {
      if ids[i] == "" || ids[i] in seen {
        return seen, false;
      }
      seen := seen + {ids[i]};
    }
    assert ids[..|ids|] == ids;
    ok := true;
  }

  lemma {:induction false} DistinctCount(ids: seq<string>)
    ensures DistinctIds(ids) ==> |IdSet(ids)| == |ids|
  {
    if ids != [] && DistinctIds(ids) {
      var init := ids[..|ids| - 1];
      DistinctCount(init);
      assert IdSet(ids) == IdSet(init) + {ids[|ids| - 1]};
    }
  }

  lemma SubsetOfSameSize<T>(a: set<T>, b: set<T>)
    requires a <= b
    ensures |a| == |b| <==> a == b
  {
    assert b == a + (b - a);
  }

  // The ids of the results are those of the calls, each call has an id of its own, and none is missing.
  ghost predicate Matches(a: seq<string>, b: seq<string>) {
    && |a| > 0 && |b| == |a|
    && (forall i | 0 <= i < |a| :: a[i] != "" && a[i] in b)
    && (forall i, j | 0 <= i < j < |a| :: a[i] != a[j])
    && (forall k | 0 <= k < |b| :: b[k] in a)
  }

  lemma MatchIs(a: seq<string>, b: seq<string>)
    ensures Matches(a, b) <==> a != [] && DistinctIds(a) && DistinctIds(b) && IdSet(a) == IdSet(b)
  {
    if a != [] && DistinctIds(a) && DistinctIds(b) && IdSet(a) == IdSet(b) {
      DistinctCount(a);
      DistinctCount(b);
      assert forall i | 0 <= i < |a| :: a[i] in IdSet(a);
      assert forall k | 0 <= k < |b| :: b[k] in IdSet(b);
    }
    if Matches(a, b) {
      MatchHasSameIds(a, b);
    }
  }

  lemma MatchHasSameIds(a: seq<string>, b: seq<string>)
    requires Matches(a, b)
    ensures DistinctIds(a) && DistinctIds(b) && IdSet(a) == IdSet(b)
  {
    assert IdSet(a) == IdSet(b) by {
      assert forall id | id in b :: id in a;
    }
    DistinctCount(a);
    ManyAreDistinct(b);
  }

  // The ids in order, without white space around them.
  ghost predicate AreIdsOf(calls: seq<ToolCall>, ids: seq<string>) {
    |ids| == |calls| && forall i | 0 <= i < |ids| :: ids[i] == TrimSpace(calls[i].id)
  }

  ghost predicate AreIdsFor(results: seq<ToolResult>, ids: seq<string>) {
    |ids| == |results| && forall k | 0 <= k < |ids| :: ids[k] == TrimSpace(results[k].toolCallId)
  }

  // A message with calls and the one that answers them.
  ghost predicate IsRound(calls: seq<ToolCall>, results: seq<ToolResult>) {
    exists a, b :: AreIdsOf(calls, a) && AreIdsFor(results, b) && Matches(a, b)
  }

  lemma AnswersTell(calls: seq<ToolCall>, results: seq<ToolResult>)
    ensures Answers(calls, results) <==> IsRound(calls, results)
  {
    var a, b := CallIds(calls), ResultIds(results);
    MatchIs(a, b);
    assert AreIdsOf(calls, a) && AreIdsFor(results, b);
    if IsRound(calls, results) {
      var x, y :| AreIdsOf(calls, x) && AreIdsFor(results, y) && Matches(x, y);
      assert x == a && y == b;
    }
  }

  // Texts of which there are as many as places are distinct.
  lemma {:induction false} ManyAreDistinct(ids: seq<string>)
    ensures |IdSet(ids)| <= |ids|
    ensures |IdSet(ids)| == |ids| && "" !in ids ==> DistinctIds(ids)
  {
    if ids != [] {
      var init, last := ids[..|ids| - 1], ids[|ids| - 1];
      ManyAreDistinct(init);
      assert IdSet(ids) == IdSet(init) + {last};
      assert last in init ==> IdSet(ids) == IdSet(init);
    }
  }

  lemma GroupTells(g: Group)
    ensures IsGroup(g) <==>
      || (|g| == 1 && |g[0].toolCalls| == 0 && |g[0].toolResults| == 0)
      || (|g| == 2 && |g[1].toolCalls| == 0 && IsRound(g[0].toolCalls, g[1].toolResults))
  {
    if |g| == 2 {
      AnswersTell(g[0].toolCalls, g[1].toolResults);
    }
  }

  /* ---- Grouping and flattening ---- */

  // The groups of a transcript, read from the front.
  function Grouping(messages: seq<Message>): (r: Result<seq<Group>, TranscriptError>)
    ensures r.Ok? ==> AreGroups(r.value) && Flatten(r.value) == messages
  {
    if messages == [] then Ok([])
    else if messages[0].toolCalls == [] then
      if messages[0].toolResults != [] then Err(ResultWithoutCall)
      else Prepend(messages[..1], Grouping(messages[1..]))
    else if |messages| == 1 || messages[1].toolCalls != [] ||
        !Answers(messages[0].toolCalls, messages[1].toolResults) then
      Err(CallWithoutResult)
    else Prepend(messages[..2], Grouping(messages[2..]))
  }

  function Prepend(g: Group, r: Result<seq<Group>, TranscriptError>): (p: Result<seq<Group>, TranscriptError>)
    ensures p.Ok? <==> r.Ok?
    ensures r.Ok? ==> Flatten(p.value) == g + Flatten(r.value)
  {
    match r
    case Ok(gs) => assert ([g] + gs)[1..] == gs; Ok([g] + gs)
    case Err(e) => Err(e)
  }

  method TranscriptCausalGroups(messages: seq<Message>) returns (r: Result<seq<Group>, TranscriptError>)
    ensures r == Grouping(messages)
  {
    var groups: seq<Group> := [];
    var i := 0;
    assert messages[0..] == messages;
    PrependNone(Grouping(messages));
    while i < |messages|
      invariant i <= |messages|
      invariant Grouping(messages) == PrependAll(groups, Grouping(messages[i..]))
    {
      var message := messages[i];
      ghost var rest := messages[i..];
      if |message.toolCalls| == 0 {
        if |message.toolResults| > 0 {
          return Err(ResultWithoutCall);
        }
        assert rest[..1] == [message] && rest[1..] == messages[i + 1..];
        PrependAllNext(groups, [message], Grouping(messages[i + 1..]));
        groups := groups + [[message]];
        i := i + 1;
      } else {
        if i + 1 >= |messages| {
          return Err(CallWithoutResult);
        }
        var resultMessage := messages[i + 1];
        assert rest[0] == message && rest[1] == resultMessage;
        AnswersAreSome(message.toolCalls, resultMessage.toolResults);
        if |resultMessage.toolResults| == 0 || |resultMessage.toolCalls| > 0 {
          return Err(CallWithoutResult);
        }
        var matched := ToolResultsMatchCalls(message.toolCalls, resultMessage.toolResults);
        if !matched {
          return Err(CallWithoutResult);
        }
        assert rest[..2] == [message, resultMessage] && rest[2..] == messages[i + 2..];
        PrependAllNext(groups, [message, resultMessage], Grouping(messages[i + 2..]));
        groups := groups + [[message, resultMessage]];
        i := i + 2;
      }
    }
    r := Ok(groups);
    assert messages[i..] == [] && groups + [] == groups;
  }

  function PrependAll(gs: seq<Group>, r: Result<seq<Group>, TranscriptError>): Result<seq<Group>, TranscriptError> {
    match r
    case Ok(hs) => Ok(gs + hs)
    case Err(e) => Err(e)
  }

  lemma PrependNone(r: Result<seq<Group>, TranscriptError>)
    ensures PrependAll([], r) == r
  {
    if r.Ok? {
      assert [] + r.value == r.value;
    }
  }

  lemma AnswersAreSome(calls: seq<ToolCall>, results: seq<ToolResult>)
    ensures Answers(calls, results) ==> results != []
  {
    if Answers(calls, results) {
      assert CallIds(calls)[0] in IdSet(CallIds(calls));
      assert CallIds(calls)[0] in IdSet(ResultIds(results));
    }
  }

  lemma PrependAllNext(gs: seq<Group>, g: Group, r: Result<seq<Group>, TranscriptError>)
    ensures PrependAll(gs, Prepend(g, r)) == PrependAll(gs + [g], r)
  {
    if r.Ok? {
      assert gs + ([g] + r.value) == gs + [g] + r.value;
    }
  }

  // Grouping undoes flattening: a transcript has at most one reading as groups, and Grouping finds it.
  lemma {:induction false} GroupingOfFlatten(gs: seq<Group>)
    requires AreGroups(gs)
    ensures Grouping(Flatten(gs)) == Ok(gs)
  {
    if gs != [] {
      var g, ms := gs[0], Flatten(gs);
      assert IsGroup(g);
      GroupingOfFlatten(gs[1..]);
      assert ms[..|g|] == g && ms[|g|..] == Flatten(gs[1..]);
      assert gs == [g] + gs[1..];
    }
  }

  // A transcript is accepted exactly when it can be cut into groups at all.
  lemma AcceptedIffGroups(messages: seq<Message>)
    ensures Grouping(messages).Ok? <==> exists gs :: AreGroups(gs) && Flatten(gs) == messages
  {
    if gs :| AreGroups(gs) && Flatten(gs) == messages {
      GroupingOfFlatten(gs);
    }
  }

  lemma {:induction false} FlattenOfJoin(gs: seq<Group>, hs: seq<Group>)
    ensures Flatten(gs + hs) == Flatten(gs) + Flatten(hs)
  {
    if gs == [] {
      assert gs + hs == hs;
    } else {
      assert (gs + hs)[1..] == gs[1..] + hs;
      FlattenOfJoin(gs[1..], hs);
    }
  }

  // Cutting a grouped transcript at a group boundary leaves transcripts that are read as the same groups.
  lemma GroupingOfSuffix(messages: seq<Message>, k: nat)
    requires Grouping(messages).Ok? && k <= |Grouping(messages).value|
    ensures var gs := Grouping(messages).value;
      && Grouping(Flatten(gs[k..])) == Ok(gs[k..])
      && messages == Flatten(gs[..k]) + Flatten(gs[k..])
  {
    var gs := Grouping(messages).value;
    GroupingOfFlatten(gs[k..]);
    FlattenOfCut(gs, k);
  }

  lemma FlattenOfCut(gs: seq<Group>, k: nat)
    requires k <= |gs|
    ensures Flatten(gs) == Flatten(gs[..k]) + Flatten(gs[k..])
  {
    FlattenOfJoin(gs[..k], gs[k..]);
    assert gs == gs[..k] + gs[k..];
  }

  /* ---- Trimming to a budget ---- */

  function CostOf(gs: seq<Group>, tokens: Group -> nat): nat {
    if gs == [] then 0 else tokens(gs[0]) + CostOf(gs[1..], tokens)
  }

  datatype Trimmed = Trimmed(kept: seq<Message>, dropped: nat, overBudget: bool)

  // Keeps the longest run of newest groups whose cost fits the limit; fails when the newest alone does not.
  method TrimTranscriptGroups(groups: seq<Group>, limit: int, tokens: Group -> nat)
    returns (r: Trimmed, ghost start: nat)
    ensures start <= |groups|
    ensures r.kept == Flatten(groups[start..]) && r.dropped == |Flatten(groups[..start])|
    ensures |r.kept| + r.dropped == |Flatten(groups)|
    ensures r.overBudget <==> groups != [] && 0 < limit < tokens(groups[|groups| - 1])
    ensures limit <= 0 ==> start == 0
    ensures limit > 0 ==> CostOf(groups[start..], tokens) <= limit
    ensures limit > 0 ==> forall j | 0 <= j < start :: CostOf(groups[j..], tokens) > limit
  {
    start := 0;
    FlattenOfJoin([], groups);
    assert groups[0..] == groups && groups[..0] == [];
    if |groups| == 0 || limit <= 0 {
      return Trimmed(Flatten(groups), 0, false), 0;
    }
    var selectedStart := |groups|;
    var totalTokens := 0;
    var i := |groups|;
    while i > 0
      invariant 0 <= i == selectedStart <= |groups|
      invariant i < |groups| ==> tokens(groups[|groups| - 1]) <= limit
      invariant totalTokens == CostOf(groups[i..], tokens) <= limit
    {
      i := i - 1;
      var groupTokens := tokens(groups[i]);
      assert i == |groups| - 1 ==> groups[i + 1..] == [];
      assert groups[i..][1..] == groups[i + 1..];
      if totalTokens + groupTokens > limit {
        OlderCostsMore(groups, i, tokens, limit);
        if selectedStart == |groups| {
          assert groups[..|groups|] == groups;
          return Trimmed([], |Flatten(groups)|, true), |groups|;
        }
        break;
      }
      selectedStart := i;
      totalTokens := totalTokens + groupTokens;
    }
    start := selectedStart;
    assert groups == groups[..start] + groups[start..];
    FlattenOfJoin(groups[..start], groups[start..]);
    r := Trimmed(Flatten(groups[selectedStart..]), |Flatten(groups[..selectedStart])|, false);
  }

  lemma {:induction false} OlderCostsMore(groups: seq<Group>, i: nat, tokens: Group -> nat, limit: int)
    requires i < |groups| && CostOf(groups[i..], tokens) > limit
    ensures forall j | 0 <= j <= i :: CostOf(groups[j..], tokens) > limit
  {
    if i > 0 {
      assert groups[i - 1..][1..] == groups[i..];
      OlderCostsMore(groups, i - 1, tokens, limit);
    }
  }
}

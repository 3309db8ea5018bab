/**
 The provider-neutral token estimator (runtime/internal/tokenestimate/tokenestimate.go).

 A text is a sequence of runes.  A maximal run of n word-like runes costs ceil(n / 4) tokens and
 every other rune costs one.  The estimator reads the text once and carries the length of the open
 run; `Tokens` cuts the text into its maximal runs instead.
 */
module TokenEstimate {

  predicate IsASCIIWordLike(r: char) {
    || r == ' ' || r == '\n' || r == '\r' || r == '\t'
    || 'a' <= r <= 'z' || 'A' <= r <= 'Z' || '0' <= r <= '9'
  }

  function RunCost(n: nat): nat {
    (n + 3) / 4
  }

  // The length of the longest prefix of s that is word-like throughout.
  function HeadRun(s: string): (k: nat)
    ensures k <= |s|
  {
    if s == [] || !IsASCIIWordLike(s[0]) then 0 else 1 + HeadRun(s[1..])
  }

  // The length of the longest suffix of s that is word-like throughout.
  function TailRun(s: string): (k: nat)
    ensures k <= |s|
  {
    if s == [] || !IsASCIIWordLike(s[|s| - 1]) then 0 else 1 + TailRun(s[..|s| - 1])
  }

  // The sum, over the maximal runs of s and its other runes, of what each one costs.
  function Tokens(s: string): nat
    decreases |s|
  {
    if s == [] then 0
    else if IsASCIIWordLike(s[0]) then RunCost(HeadRun(s)) + Tokens(s[HeadRun(s)..])
    else 1 + Tokens(s[1..])
  }

  method EstimateText(value: string) returns (total: nat)
    ensures total == Tokens(value)
  {
    total := 0;
    var asciiRunes := 0;
    for i := 0 to |value|
      invariant asciiRunes == TailRun(value[..i])
      invariant total + RunCost(asciiRunes) == Tokens(value[..i])
    {
      AppendRune(value[..i], value[i]);
      assert value[..i] + [value[i]] == value[..i + 1];
      if IsASCIIWordLike(value[i]) {
        asciiRunes := asciiRunes + 1;
      } else {
        if asciiRunes != 0 {
          total := total + (asciiRunes + 3) / 4;
          asciiRunes := 0;
        }
        total := total + 1;
      }
    }
    assert value[..|value|] == value;
    if asciiRunes != 0 {
      total := total + (asciiRunes + 3) / 4;
    }
  }

  lemma AppendRune(s: string, r: char)
    ensures TailRun(s + [r]) == if IsASCIIWordLike(r) then TailRun(s) + 1 else 0
    ensures Tokens(s + [r]) - Tokens(s) == if IsASCIIWordLike(r)
        then RunCost(TailRun(s) + 1) - RunCost(TailRun(s)) else 1
  {
    assert (s + [r])[..|s|] == s;
    JoinExactly(s, [r]);
    assert HeadRun([r]) == if IsASCIIWordLike(r) then 1 else 0;
    assert Tokens([r]) == 1;
  }

  lemma {:induction false} HeadRunOfJoin(a: string, b: string)
    ensures HeadRun(a + b) == if HeadRun(a) == |a| then |a| + HeadRun(b) else HeadRun(a)
  {
    if a == [] {
      assert a + b == b;
    } else if IsASCIIWordLike(a[0]) {
      HeadRunOfJoin(a[1..], b);
      assert (a + b)[1..] == a[1..] + b;
    }
  }

  lemma {:induction false} TailRunOfJoin(a: string, b: string)
    ensures TailRun(a + b) == if TailRun(b) == |b| then TailRun(a) + |b| else TailRun(b)
  {
    if b == [] {
      assert a + b == a;
    } else if IsASCIIWordLike(b[|b| - 1]) {
      TailRunOfJoin(a, b[..|b| - 1]);
      assert (a + b)[..|a + b| - 1] == a + b[..|b| - 1];
    }
  }

  // A text is one run when it is read from either end.
  lemma {:induction false} WholeRun(s: string)
    ensures HeadRun(s) == |s| <==> TailRun(s) == |s|
  {
    if s != [] {
      WholeRun(s[1..]);
      assert s == [s[0]] + s[1..];
      TailRunOfJoin([s[0]], s[1..]);
    }
  }

  // The tokens two runs save when they are charged as one.
  function JoinSaving(x: nat, y: nat): int {
    RunCost(x) + RunCost(y) - RunCost(x + y)
  }

  // How the estimate of a concatenation differs from the sum of the estimates: only the two runs
  // that meet at the join are charged as one.
  lemma {:induction false} JoinExactly(a: string, b: string)
    ensures Tokens(a + b) == Tokens(a) + Tokens(b) - JoinSaving(TailRun(a), HeadRun(b))
    decreases |a|
  {
    var k := HeadRun(a);
    HeadRunOfJoin(a, b);
    if a == [] {
      assert a + b == b;
    } else if k == |a| {
      WholeRun(a);
      assert (a + b)[|a| + HeadRun(b)..] == b[HeadRun(b)..];
    } else {
      var first := if k > 0 then k else 1;
      JoinExactly(a[first..], b);
      DropOfJoin(a, b, first);
      LaterTail(a);
    }
  }

  lemma DropOfJoin(a: string, b: string, k: nat)
    requires k <= |a|
    ensures (a + b)[k..] == a[k..] + b
  {
  }

  // The run that closes a text is not the one that opens it, unless the text is one run.
  lemma LaterTail(a: string)
    requires HeadRun(a) < |a|
    ensures TailRun(a) == TailRun(a[if HeadRun(a) > 0 then HeadRun(a) else 1..])
  {
    var first := if HeadRun(a) > 0 then HeadRun(a) else 1;
    assert a == a[..first] + a[first..];
    TailRunOfJoin(a[..first], a[first..]);
    WholeRun(a[first..]);
    if HeadRun(a) > 0 {
      AfterHead(a);
    } else {
      assert a[..first] == [a[0]];
    }
  }

  lemma {:induction false} AfterHead(s: string)
    requires HeadRun(s) < |s|
    ensures !IsASCIIWordLike(s[HeadRun(s)])
  {
    if IsASCIIWordLike(s[0]) {
      AfterHead(s[1..]);
    }
  }

  // Concatenation saves at most one token and never costs one.
  lemma JoinBounds(a: string, b: string)
    ensures Tokens(a) + Tokens(b) - 1 <= Tokens(a + b) <= Tokens(a) + Tokens(b)
  {
    JoinExactly(a, b);
  }

  // A rune that is not word-like on either side of the join makes the estimate additive.
  lemma JoinAtBoundary(a: string, b: string)
    requires a == [] || b == [] || !IsASCIIWordLike(a[|a| - 1]) || !IsASCIIWordLike(b[0])
    ensures Tokens(a + b) == Tokens(a) + Tokens(b)
  {
    JoinExactly(a, b);
  }

  // A text of n runes costs between ceil(n / 4) and n tokens.
  lemma {:induction false} LengthBounds(s: string)
    ensures RunCost(|s|) <= Tokens(s) <= |s|
    decreases |s|
  {
    if s != [] {
      LengthBounds(s[if IsASCIIWordLike(s[0]) then HeadRun(s) else 1..]);
    }
  }

  // The runes of which up to four make a token, by their codes: white space, digits and letters.
  lemma WordLikeIs(r: char)
    ensures IsASCIIWordLike(r) <==>
      var code := r as int;
      code in {9, 10, 13, 32} || 48 <= code <= 57 || 65 <= code <= 90 || 97 <= code <= 122
  {
  }

  ghost predicate AllWordLike(s: string) {
    forall i | 0 <= i < |s| :: IsASCIIWordLike(s[i])
  }

  ghost predicate NoneWordLike(s: string) {
    forall i | 0 <= i < |s| :: !IsASCIIWordLike(s[i])
  }

  lemma {:induction false} HeadRunIs(s: string)
    ensures AllWordLike(s[..HeadRun(s)]) && (AllWordLike(s) ==> HeadRun(s) == |s|)
  {
    if s != [] && IsASCIIWordLike(s[0]) {
      HeadRunIs(s[1..]);
      assert s[..HeadRun(s)] == [s[0]] + s[1..][..HeadRun(s[1..])];
    }
  }

  // A token is at most four runes; a text of word-like runes costs as few tokens as that allows, and one without
  // any costs a token for every rune.
  lemma {:induction false} TokensTell(s: string)
    ensures Tokens(s) <= |s| <= 4 * Tokens(s)
    ensures AllWordLike(s) ==> 4 * Tokens(s) < |s| + 4
    ensures NoneWordLike(s) ==> Tokens(s) == |s|
    decreases |s|
  {
    if s != [] {
      HeadRunIs(s);
      TokensTell(s[if IsASCIIWordLike(s[0]) then HeadRun(s) else 1..]);
    }
  }
}

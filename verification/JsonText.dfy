/**
 Compact JSON text as the runtime renders it before sizing it (encoding/json's escaping rules), and
 what such a text costs.  Every element of an array and every member of an object starts with a rune
 that is not word-like, so the cost of the whole is the sum of the costs of the parts and of the
 punctuation between them.
 */
module JsonText {
  import opened Common
  import opened TokenEstimate

  function HexDigit(n: nat): char
    requires n < 16
  {
    "0123456789abcdef"[n]
  }

  // One rune inside a JSON string literal.
  function EscapeRune(r: char): (s: string)
    ensures s != []
  {
    if r == '"' then "\\\""
    else if r == '\\' then "\\\\"
    else if r == '\n' then "\\n"
    else if r == '\r' then "\\r"
    else if r == '\t' then "\\t"
    else if r == '\U{8}' then "\\b"
    else if r == '\U{c}' then "\\f"
    else if r < ' ' || r == '<' || r == '>' || r == '&' then
      "\\u00" + [HexDigit(r as int / 16), HexDigit(r as int % 16)]
    else if r == '\U{2028}' then "\\u2028"
    else if r == '\U{2029}' then "\\u2029"
    else [r]
  }

  function Escape(s: string): string {
    if s == [] then "" else EscapeRune(s[0]) + Escape(s[1..])
  }

  function Quote(s: string): (q: string)
    ensures Delimited(q)
  {
    "\"" + Escape(s) + "\""
  }

  function QuoteAll(items: seq<string>): (parts: seq<string>)
    ensures |parts| == |items| && AllDelimited(parts)
  {
    seq(|items|, i requires 0 <= i < |items| => Quote(items[i]))
  }

  // Text whose first rune is not word-like.
  predicate Delimited(part: string) {
    part != [] && !IsASCIIWordLike(part[0])
  }

  predicate AllDelimited(parts: seq<string>) {
    forall i | 0 <= i < |parts| :: Delimited(parts[i])
  }

  function JoinComma(parts: seq<string>): string {
    if parts == [] then ""
    else if |parts| == 1 then parts[0]
    else parts[0] + ("," + JoinComma(parts[1..]))
  }

  function Array(parts: seq<string>): (s: string)
    ensures Delimited(s)
  {
    "[" + (JoinComma(parts) + "]")
  }

  function Object(members: seq<string>): (s: string)
    ensures Delimited(s)
  {
    "{" + (JoinComma(members) + "}")
  }

  // A member whose value is a text that is not word-like at its start.
  function Member(name: string, value: string): (s: string)
    requires Delimited(value)
    ensures Delimited(s)
  {
    "\"" + (name + ("\":" + value))
  }

  // A string member that is left out when it is empty.
  function OptionalText(name: string, text: string): (members: seq<string>)
    ensures AllDelimited(members)
  {
    if text == "" then [] else [Member(name, Quote(text))]
  }

  // A list member that is left out when it is empty.
  function OptionalList(name: string, items: seq<string>): (members: seq<string>)
    ensures AllDelimited(members)
  {
    if items == [] then [] else [Member(name, Array(QuoteAll(items)))]
  }

  // The cost of parts that are each followed by one punctuation rune.
  function CommaSum(parts: seq<string>): nat {
    if parts == [] then 0 else Tokens(parts[0]) + 1 + CommaSum(parts[1..])
  }

  lemma {:induction false} CommaSumOfJoin(a: seq<string>, b: seq<string>)
    ensures CommaSum(a + b) == CommaSum(a) + CommaSum(b)
  {
    if a == [] {
      assert a + b == b;
    } else {
      assert (a + b)[1..] == a[1..] + b;
      CommaSumOfJoin(a[1..], b);
    }
  }

  lemma {:induction false} JoinCommaTokens(parts: seq<string>, close: string)
    requires AllDelimited(parts) && |close| == 1 && Delimited(close)
    ensures Tokens(JoinComma(parts) + close) == if parts == [] then 1 else CommaSum(parts)
  {
    assert Tokens(close) == 1;
    if parts == [] {
      assert JoinComma(parts) + close == close;
    } else if |parts| == 1 {
      JoinAtBoundary(parts[0], close);
    } else {
      var rest := JoinComma(parts[1..]) + close;
      assert JoinComma(parts) + close == parts[0] + ("," + rest);
      JoinAtBoundary(parts[0], "," + rest);
      JoinAtBoundary(",", rest);
      JoinCommaTokens(parts[1..], close);
    }
  }

  // The cost of a JSON array is the cost of its elements, one rune after each, and its open bracket.
  lemma ArrayTokens(parts: seq<string>)
    requires AllDelimited(parts)
    ensures Tokens(Array(parts)) == 1 + if parts == [] then 1 else CommaSum(parts)
  {
    JoinAtBoundary("[", JoinComma(parts) + "]");
    JoinCommaTokens(parts, "]");
  }

  lemma ObjectTokens(members: seq<string>)
    requires AllDelimited(members)
    ensures Tokens(Object(members)) == 1 + if members == [] then 1 else CommaSum(members)
  {
    JoinAtBoundary("{", JoinComma(members) + "}");
    JoinCommaTokens(members, "}");
  }

  lemma MemberTokens(name: string, value: string)
    requires Delimited(value)
    ensures Tokens(Member(name, value)) == Tokens("\"" + (name + "\":")) + Tokens(value)
  {
    JoinAtBoundary("\"" + (name + "\":"), value);
    assert Member(name, value) == "\"" + (name + "\":") + value;
  }

  // A list member never gets cheaper when an item is appended.
  lemma ListMemberGrows(name: string, items: seq<string>, item: string)
    requires items != []
    ensures Tokens(Member(name, Array(QuoteAll(items)))) <= Tokens(Member(name, Array(QuoteAll(items + [item]))))
  {
    var before, after := QuoteAll(items), QuoteAll(items + [item]);
    assert after == before + [Quote(item)];
    CommaSumOfJoin(before, [Quote(item)]);
    ArrayTokens(before);
    ArrayTokens(after);
    MemberTokens(name, Array(before));
    MemberTokens(name, Array(after));
  }

  /* ---- Reading a text back ---- */

  ghost function HexValue(c: char): int {
    if '0' <= c <= '9' then c as int - '0' as int
    else if 'a' <= c <= 'f' then c as int - 'a' as int + 10
    else -1
  }

  // The first rune of the inside of a JSON string, and how many runes stand for it.
  ghost function ReadRune(s: string): Option<(int, nat)> {
    if s == "" || s[0] == '"' || s[0] < ' ' then None
    else if s[0] != '\\' then Some((s[0] as int, 1))
    else if |s| > 1 && s[1] in "\"\\" then Some((s[1] as int, 2))
    else if |s| > 1 && s[1] in "bfnrt" then
      Some((if s[1] == 'b' then 8 else if s[1] == 'f' then 12 else if s[1] == 'n' then 10
            else if s[1] == 'r' then 13 else 9, 2))
    else if |s| > 5 && s[1] == 'u' && forall i | 2 <= i < 6 :: HexValue(s[i]) >= 0 then
      Some((4096 * HexValue(s[2]) + 256 * HexValue(s[3]) + 16 * HexValue(s[4]) + HexValue(s[5]), 6))
    else None
  }

  lemma ReadRuneOfJoin(e: string, rest: string)
    requires ReadRune(e).Some? && ReadRune(e).value.1 == |e|
    ensures ReadRune(e + rest) == ReadRune(e)
  {
    assert forall i | 0 <= i < |e| :: (e + rest)[i] == e[i];
  }

  lemma HexIsRead(n: nat)
    requires n < 16
    ensures HexValue(HexDigit(n)) == n
  {
  }

  lemma ControlIsRead(r: char)
    requires r as int < 256
    ensures ReadRune("\\u00" + [HexDigit(r as int / 16), HexDigit(r as int % 16)]) == Some((r as int, 6))
  {
    HexIsRead(r as int / 16);
    HexIsRead(r as int % 16);
  }

  lemma EscapedRuneIsRead(r: char, rest: string)
    ensures ReadRune(EscapeRune(r) + rest) == Some((r as int, |EscapeRune(r)|))
  {
    if r as int < 256 {
      ControlIsRead(r);
    }
    ReadRuneOfJoin(EscapeRune(r), rest);
  }

  // The codes of the runes of a JSON string, up to its closing quote.
  ghost function ReadString(s: string): Option<seq<int>> {
    if s == "\"" then Some([])
    else
      var first := ReadRune(s);
      if first.None? || first.value.1 == 0 || first.value.1 > |s| then None
      else
        var rest := ReadString(s[first.value.1..]);
        if rest.None? then None else Some([first.value.0] + rest.value)
  }

  function Codes(s: string): (codes: seq<int>)
    ensures |codes| == |s|
  {
    seq(|s|, i requires 0 <= i < |s| => s[i] as int)
  }

  // A quoted text is read back as the text, rune for rune; so no two texts have the same quotation.
  lemma {:induction false} QuoteIsRead(s: string)
    ensures Quote(s)[0] == '"' && ReadString(Quote(s)[1..]) == Some(Codes(s))
  {
    assert Quote(s)[1..] == Escape(s) + "\"";
    EscapeIsRead(s);
  }

  lemma NextIsRead(r: char, rest: string)
    requires rest != "" && ReadString(rest).Some?
    ensures ReadString(EscapeRune(r) + rest) == Some([r as int] + ReadString(rest).value)
  {
    var e := EscapeRune(r);
    EscapedRuneIsRead(r, rest);
    assert (e + rest)[|e|..] == rest;
  }

  lemma EscapeStarts(s: string)
    requires s != ""
    ensures Escape(s) + "\"" == EscapeRune(s[0]) + (Escape(s[1..]) + "\"")
    ensures Codes(s) == [s[0] as int] + Codes(s[1..])
  {
    JoinIsAssociative(EscapeRune(s[0]), Escape(s[1..]), "\"");
  }

  lemma {:induction false} EscapeIsRead(s: string)
    ensures ReadString(Escape(s) + "\"") == Some(Codes(s))
  {
    if s == "" {
      assert Escape(s) + "\"" == "\"";
    } else {
      var rest := Escape(s[1..]) + "\"";
      EscapeIsRead(s[1..]);
      NextIsRead(s[0], rest);
      EscapeStarts(s);
    }
  }

  // Runes that are written as they are, as two, or as six; none of those below a space, and none of < > & and the
  // line separators, is written as it is.
  lemma EscapeRuneTells(r: char)
    ensures r in "\"\\\n\r\t\U{8}\U{c}" ==> |EscapeRune(r)| == 2
    ensures r !in "\"\\\n\r\t\U{8}\U{c}" && (r < ' ' || r in "<>&\U{2028}\U{2029}") ==> |EscapeRune(r)| == 6
    ensures r >= ' ' && r !in "\"\\<>&\U{2028}\U{2029}" ==> EscapeRune(r) == [r]
  {
  }

  /* ---- How long a text is ---- */

  function SumOfLengths(parts: seq<string>): nat {
    if parts == [] then 0 else |parts[0]| + SumOfLengths(parts[1..])
  }

  lemma {:induction false} EscapeIsLonger(s: string)
    ensures |Escape(s)| >= |s|
  {
    if s != "" {
      EscapeIsLonger(s[1..]);
    }
  }

  lemma {:induction false} QuotesAreLonger(items: seq<string>)
    ensures SumOfLengths(QuoteAll(items)) >= SumOfLengths(items) + 2 * |items|
  {
    if items != [] {
      assert QuoteAll(items)[1..] == QuoteAll(items[1..]);
      EscapeIsLonger(items[0]);
      QuotesAreLonger(items[1..]);
    }
  }

  lemma {:induction false} JoinIsLonger(parts: seq<string>)
    ensures |JoinComma(parts)| == SumOfLengths(parts) + if parts == [] then 0 else |parts| - 1
  {
    if |parts| > 1 {
      JoinIsLonger(parts[1..]);
    }
  }
}

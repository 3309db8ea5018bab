/**
 Bounded projection of tool arguments and outputs
 (runtime/internal/context/projection_bounds.go): nesting, map width, array length and total size of
 what reaches the prompt are limited, and every cut leaves a marker.
 */
module ProjectionBounds {
  import opened Common
  import opened Json

  datatype Bounds = Bounds(maxTokens: int, maxDepth: int, maxFields: int, maxArrayItems: int)

  /* ---- Key order ---- */

  predicate KeyLess(a: string, b: string) {
    b != [] && (a == [] || a[0] < b[0] || (a[0] == b[0] && KeyLess(a[1..], b[1..])))
  }

  lemma {:induction false} KeyLessIsTotal(a: string, b: string)
    ensures a == b || KeyLess(a, b) || KeyLess(b, a)
  {
    if a != [] && b != [] && a[0] == b[0] {
      KeyLessIsTotal(a[1..], b[1..]);
      assert a == [a[0]] + a[1..] && b == [b[0]] + b[1..];
    }
  }

  lemma {:induction false} KeyLessIsStrict(a: string, b: string, c: string)
    ensures !KeyLess(a, a)
    ensures KeyLess(a, b) && KeyLess(b, c) ==> KeyLess(a, c)
  {
    if a != [] {
      KeyLessIsStrict(a[1..], if b == [] then [] else b[1..], if c == [] then [] else c[1..]);
    }
  }

  predicate Ascending(keys: seq<string>) {
    forall i, j | 0 <= i < j < |keys| :: KeyLess(keys[i], keys[j])
  }

  function KeysOf(keys: seq<string>): set<string> {
    set k | k in keys
  }

  // How many of the keys come before key.
  function Rank(key: string, keys: set<string>): nat {
    |set k | k in keys && KeyLess(k, key)|
  }

  method SortKeys(keys: set<string>) returns (sorted: seq<string>)
    ensures Ascending(sorted) && |sorted| == |keys| && KeysOf(sorted) == keys
  {
    sorted := [];
    var rest := keys;
    while rest != {}
      invariant rest <= keys && Ascending(sorted) && |sorted| + |rest| == |keys|
      invariant KeysOf(sorted) == keys - rest
      decreases rest
    {
      var key :| key in rest;
      sorted := InsertKey(sorted, key);
      rest := rest - {key};
    }
  }

  method InsertKey(sorted: seq<string>, key: string) returns (r: seq<string>)
    requires Ascending(sorted) && key !in KeysOf(sorted)
    ensures Ascending(r) && |r| == |sorted| + 1 && KeysOf(r) == KeysOf(sorted) + {key}
  {
    var i := 0;
    while i < |sorted| && KeyLess(sorted[i], key)
      invariant i <= |sorted|
      invariant forall j | 0 <= j < i :: KeyLess(sorted[j], key)
    {
      i := i + 1;
    }
    forall j | i <= j < |sorted|
      ensures KeyLess(key, sorted[j])
    {
      KeyLessIsTotal(sorted[i], key);
      KeyLessIsStrict(key, sorted[i], sorted[j]);
    }
    r := sorted[..i] + [key] + sorted[i..];
  }

  lemma RankIsPosition(sorted: seq<string>, keys: set<string>, i: nat)
    requires Ascending(sorted) && i < |sorted| && KeysOf(sorted) == keys
    ensures Rank(sorted[i], keys) == i
  {
    var before := set k | k in keys && KeyLess(k, sorted[i]);
    forall k
      ensures k in before <==> k in KeysOf(sorted[..i])
    {
      if k in before {
        assert k in KeysOf(sorted);
        var j :| 0 <= j < |sorted| && sorted[j] == k;
        if j >= i {
          KeyLessIsStrict(sorted[i], sorted[j], sorted[i]);
        }
      }
    }
    DistinctSize(sorted[..i]);
    assert before == KeysOf(sorted[..i]);
  }

  lemma {:induction false} DistinctSize(s: seq<string>)
    requires Ascending(s)
    ensures |KeysOf(s)| == |s|
  {
    if s != [] {
      var last := s[|s| - 1];
      KeyLessIsStrict(last, last, last);
      DistinctSize(s[..|s| - 1]);
      assert KeysOf(s) == KeysOf(s[..|s| - 1]) + {last};
    }
  }

  /* ---- Projection ---- */

  // The keys that are kept: the first maxFields in key order.
  function KeptKeys(fields: JsonMap, b: Bounds): set<string> {
    if 0 < b.maxFields < |fields| then set k | k in fields.Keys && Rank(k, fields.Keys) < b.maxFields else fields.Keys
  }

  function FieldLimit(n: nat, b: Bounds): (limit: nat)
    ensures limit <= n
  {
    if 0 < b.maxFields < n then b.maxFields else n
  }

  function MarkDropped(kept: JsonMap, dropped: nat): JsonMap {
    if dropped > 0 then kept["_truncated_fields" := Number(dropped as real)] else kept
  }

  function KeptItems(items: seq<Value>, b: Bounds): nat {
    if 0 < b.maxArrayItems < |items| then b.maxArrayItems else |items|
  }

  function Digits(n: nat): string {
    if n < 10 then ["0123456789"[n]] else Digits(n / 10) + ["0123456789"[n % 10]]
  }

  function ProjectValue(v: Value, depth: nat, b: Bounds): Value
    decreases v, 1
  {
    match v
    case Object(fields) =>
      if 0 < b.maxDepth < depth then Text("_truncated: max depth exceeded") else
      Object(MarkDropped(ProjectFields(v, depth, b), |fields| - FieldLimit(|fields|, b)))
    case Array(items) =>
      if 0 < b.maxDepth < depth then Text("_truncated: max depth exceeded") else
      var kept := ProjectItems(v, depth, b);
      Array(if |kept| < |items| then kept + [Text("_truncated_items:" + Digits(|items| - |kept|))] else kept)
    case Other(rendered) => Text(rendered)
    case _ => v
  }

  function ProjectFields(v: Value, depth: nat, b: Bounds): (kept: JsonMap)
    requires v.Object?
    ensures kept.Keys == KeptKeys(v.fields, b)
    decreases v, 0
  {
    map k | k in KeptKeys(v.fields, b) :: ProjectValue(v.fields[k], depth + 1, b)
  }

  function ProjectItems(v: Value, depth: nat, b: Bounds): (kept: seq<Value>)
    requires v.Array?
    ensures |kept| == KeptItems(v.items, b)
    decreases v, 0
  {
    seq(KeptItems(v.items, b), i requires 0 <= i < KeptItems(v.items, b) => ProjectValue(v.items[i], depth + 1, b))
  }

  method ProjectOutputValue(v: Value, depth: nat, b: Bounds) returns (r: Value)
    ensures r == ProjectValue(v, depth, b)
    decreases v, 2
  {
    match v
    case Object(fields) =>
      if b.maxDepth > 0 && depth > b.maxDepth {
        return Text("_truncated: max depth exceeded");
      }
      r := ProjectOutputMap(v, depth, b);
    case Array(items) =>
      if b.maxDepth > 0 && depth > b.maxDepth {
        return Text("_truncated: max depth exceeded");
      }
      r := ProjectOutputArray(v, depth, b);
    case Other(rendered) =>
      r := Text(rendered);
    case _ =>
      r := v;
  }

  method ProjectOutputMap(v: Value, depth: nat, b: Bounds) returns (r: Value)
    requires v.Object? && !(0 < b.maxDepth < depth)
    ensures r == ProjectValue(v, depth, b)
    decreases v, 1
  {
    var keys, dropped := FirstKeys(v.fields, b);
    var out := ProjectKeys(v, keys, depth, b);
    MapIs(v, depth, b, dropped);
    r := Object(MarkDropped(out, dropped));
  }

  // The keys that are kept, in order, and how many are not.
  method FirstKeys(fields: JsonMap, b: Bounds) returns (first: seq<string>, dropped: nat)
    ensures KeysOf(first) == KeptKeys(fields, b) && Ascending(first)
    ensures dropped == |fields| - if 0 < b.maxFields < |fields| then b.maxFields else |fields|
  {
    var keys := SortKeys(fields.Keys);
    var limit := |keys|;
    if b.maxFields > 0 && limit > b.maxFields {
      limit := b.maxFields;
    }
    FirstKeysAreKept(keys, fields, b, limit);
    first, dropped := keys[..limit], |keys| - limit;
  }

  lemma MapIs(v: Value, depth: nat, b: Bounds, dropped: nat)
    requires v.Object? && !(0 < b.maxDepth < depth)
    requires dropped == |v.fields| - if 0 < b.maxFields < |v.fields| then b.maxFields else |v.fields|
    ensures ProjectValue(v, depth, b) == Object(MarkDropped(ProjectFields(v, depth, b), dropped))
  {
  }

  method ProjectKeys(v: Value, keys: seq<string>, depth: nat, b: Bounds) returns (out: JsonMap)
    requires v.Object? && KeysOf(keys) == KeptKeys(v.fields, b)
    ensures out == ProjectFields(v, depth, b)
    decreases v, 0
  {
    out := map[];
    for i := 0 to |keys|
      invariant out.Keys == KeysOf(keys[..i])
      invariant forall k | k in out :: k in v.fields && out[k] == ProjectValue(v.fields[k], depth + 1, b)
    {
      assert keys[i] in KeysOf(keys);
      var projected := ProjectOutputValue(v.fields[keys[i]], depth + 1, b);
      out := out[keys[i] := projected];
      assert keys[..i + 1] == keys[..i] + [keys[i]];
    }
    assert keys[..|keys|] == keys;
    FieldsAre(v, depth, b, out);
  }

  lemma FieldsAre(v: Value, depth: nat, b: Bounds, out: JsonMap)
    requires v.Object? && out.Keys == KeptKeys(v.fields, b)
    requires forall k | k in out :: out[k] == ProjectValue(v.fields[k], depth + 1, b)
    ensures out == ProjectFields(v, depth, b)
  {
  }

  lemma FirstKeysAreKept(keys: seq<string>, fields: JsonMap, b: Bounds, limit: nat)
    requires Ascending(keys) && |keys| == |fields| && KeysOf(keys) == fields.Keys
    requires limit == if 0 < b.maxFields < |fields| then b.maxFields else |fields|
    ensures KeysOf(keys[..limit]) == KeptKeys(fields, b)
  {
    forall k
      ensures k in KeysOf(keys[..limit]) <==> k in KeptKeys(fields, b)
    {
      if k in KeysOf(keys) {
        var i :| 0 <= i < |keys| && keys[i] == k;
        RankIsPosition(keys, fields.Keys, i);
        assert i < limit ==> keys[..limit][i] == k;
        forall j | 0 <= j < limit && keys[j] == k
          ensures i == j
        {
          KeyLessIsStrict(k, k, k);
        }
      }
    }
  }

  method ProjectOutputArray(v: Value, depth: nat, b: Bounds) returns (r: Value)
    requires v.Array? && !(0 < b.maxDepth < depth)
    ensures r == ProjectValue(v, depth, b)
    decreases v, 0
  {
    var items := v.items;
    var limit := |items|;
    if b.maxArrayItems > 0 && limit > b.maxArrayItems {
      limit := b.maxArrayItems;
    }
    var out: seq<Value> := [];
    for i := 0 to limit
      invariant |out| == i
      invariant forall j | 0 <= j < i :: out[j] == ProjectValue(items[j], depth + 1, b)
    {
      var projected := ProjectOutputValue(items[i], depth + 1, b);
      out := out + [projected];
    }
    assert out == ProjectItems(v, depth, b);
    if limit < |items| {
      out := out + [Text("_truncated_items:" + Digits(|items| - limit))];
    }
    r := Array(out);
  }

  /* ---- What the projection guarantees ---- */

  // Objects and arrays are nested at most n deep.
  ghost predicate NestedAtMost(v: Value, n: int)
    decreases v
  {
    match v
    case Object(fields) => n > 0 && forall k | k in fields :: NestedAtMost(fields[k], n - 1)
    case Array(items) => n > 0 && forall i | 0 <= i < |items| :: NestedAtMost(items[i], n - 1)
    case _ => true
  }

  // No object has more than maxFields fields and no array more than maxItems items.
  ghost predicate AsNarrowAs(v: Value, maxFields: int, maxItems: int)
    decreases v
  {
    match v
    case Object(fields) => |fields| <= maxFields && forall k | k in fields :: AsNarrowAs(fields[k], maxFields, maxItems)
    case Array(items) => |items| <= maxItems && forall i | 0 <= i < |items| :: AsNarrowAs(items[i], maxFields, maxItems)
    case _ => true
  }

  // Every value has a JSON form of its own.
  ghost predicate Plain(v: Value)
    decreases v
  {
    match v
    case Object(fields) => forall k | k in fields :: Plain(fields[k])
    case Array(items) => forall i | 0 <= i < |items| :: Plain(items[i])
    case Other(_) => false
    case _ => true
  }

  lemma {:induction false} NestingIsBounded(v: Value, depth: nat, b: Bounds)
    requires 0 < depth <= b.maxDepth + 1 && b.maxDepth > 0
    ensures NestedAtMost(ProjectValue(v, depth, b), b.maxDepth - depth + 1)
    decreases v
  {
    if v.Object? && depth <= b.maxDepth {
      forall k | k in KeptKeys(v.fields, b) {
        NestingIsBounded(v.fields[k], depth + 1, b);
      }
    } else if v.Array? && depth <= b.maxDepth {
      forall i | 0 <= i < KeptItems(v.items, b) {
        NestingIsBounded(v.items[i], depth + 1, b);
      }
    }
  }

  lemma KeptKeysCount(fields: JsonMap, b: Bounds)
    ensures |KeptKeys(fields, b)| == if 0 < b.maxFields < |fields| then b.maxFields else |fields|
  {
    var keys := SortedOf(fields.Keys);
    var limit := if 0 < b.maxFields < |fields| then b.maxFields else |fields|;
    FirstKeysAreKept(keys, fields, b, limit);
    DistinctSize(keys[..limit]);
  }

  // The keys in order exist.
  lemma {:induction false} SortedOf(keys: set<string>) returns (sorted: seq<string>)
    ensures Ascending(sorted) && |sorted| == |keys| && KeysOf(sorted) == keys
    decreases |keys|
  {
    if keys == {} {
      sorted := [];
    } else {
      var first := FirstKey(keys);
      var rest := SortedOf(keys - {first});
      assert forall j | 0 <= j < |rest| :: rest[j] in KeysOf(rest);
      sorted := [first] + rest;
      assert KeysOf(sorted) == {first} + KeysOf(rest);
    }
  }

  lemma {:induction false} FirstKey(keys: set<string>) returns (first: string)
    requires keys != {}
    ensures first in keys && forall k | k in keys && k != first :: KeyLess(first, k)
    decreases |keys|
  {
    first :| first in keys;
    if keys != {first} {
      var other := FirstKey(keys - {first});
      forall k | k in keys && k != other && !KeyLess(first, other)
        ensures KeyLess(other, k)
      {
        KeyLessIsTotal(first, other);
      }
      forall k | k in keys && k != first && KeyLess(first, other)
        ensures KeyLess(first, k)
      {
        KeyLessIsStrict(first, other, k);
      }
      if !KeyLess(first, other) {
        first := other;
      }
    }
  }

  // A cut object or array carries one marker more than its limit.
  lemma {:induction false} WidthIsBounded(v: Value, depth: nat, b: Bounds)
    requires b.maxFields > 0 && b.maxArrayItems > 0
    ensures AsNarrowAs(ProjectValue(v, depth, b), b.maxFields + 1, b.maxArrayItems + 1)
    decreases v
  {
    match v
    case Object(fields) =>
      KeptKeysCount(fields, b);
      forall k | k in KeptKeys(fields, b) {
        WidthIsBounded(fields[k], depth + 1, b);
      }
      var kept := ProjectFields(v, depth, b);
      assert |kept| == |kept.Keys|;
      var marked := kept["_truncated_fields" := Number((|fields| - b.maxFields) as real)];
      assert marked.Keys == kept.Keys + {"_truncated_fields"};
      assert |marked| == |marked.Keys|;
    case Array(items) =>
      forall i | 0 <= i < KeptItems(items, b) {
        WidthIsBounded(items[i], depth + 1, b);
      }
    case _ =>
  }

  lemma {:induction false} InsideBoundsIsUnchanged(v: Value, depth: nat, b: Bounds)
    requires Plain(v)
    requires b.maxDepth > 0 ==> NestedAtMost(v, b.maxDepth - depth + 1)
    requires AsNarrowAs(v, b.maxFields, b.maxArrayItems)
    ensures ProjectValue(v, depth, b) == v
    decreases v
  {
    match v
    case Object(fields) =>
      forall k | k in fields {
        InsideBoundsIsUnchanged(fields[k], depth + 1, b);
      }
      assert ProjectFields(v, depth, b) == fields;
    case Array(items) =>
      forall i | 0 <= i < |items| {
        InsideBoundsIsUnchanged(items[i], depth + 1, b);
      }
      assert ProjectItems(v, depth, b) == items;
    case _ =>
  }

  /* ---- What the projection shows ---- */

  // Key a comes before key b: it is a proper prefix, or smaller where they first differ.
  lemma {:induction false} KeyLessIs(a: string, b: string)
    ensures KeyLess(a, b) <==> exists n: nat :: n <= |a| && n < |b| && a[..n] == b[..n] && (n == |a| || a[n] < b[n])
    decreases |a|
  {
    if a != [] && b != [] && a[0] == b[0] {
      KeyLessIs(a[1..], b[1..]);
      if KeyLess(a[1..], b[1..]) {
        var n: nat :| n < |a| && n < |b| - 1 && a[1..][..n] == b[1..][..n] && (n == |a| - 1 || a[1..][n] < b[1..][n]);
        assert a[..n + 1] == [a[0]] + a[1..][..n] && b[..n + 1] == [b[0]] + b[1..][..n];
      }
      if n: nat :| n <= |a| && n < |b| && a[..n] == b[..n] && (n == |a| || a[n] < b[n]) {
        assert n > 0;
        assert a[1..][..n - 1] == a[..n][1..] && b[1..][..n - 1] == b[..n][1..];
      }
    } else if b != [] {
      assert a[..0] == b[..0];
      assert forall n: nat | 0 < n <= |a| && n < |b| && a[..n] == b[..n] :: a[..n][0] == b[..n][0];
    }
  }

  // The number that a text of digits stands for.
  ghost function NumberOf(digits: string): int {
    if digits == "" then 0 else 10 * NumberOf(digits[..|digits| - 1]) + (digits[|digits| - 1] as int - '0' as int)
  }

  lemma {:induction false} DigitsTell(n: nat)
    ensures NumberOf(Digits(n)) == n && Digits(n) != "" && (n > 0 ==> Digits(n)[0] != '0')
    ensures forall i | 0 <= i < |Digits(n)| :: '0' <= Digits(n)[i] <= '9'
  {
    if n < 10 {
      assert Digits(n)[..0] == "";
    } else {
      DigitsTell(n / 10);
      assert Digits(n)[..|Digits(n)| - 1] == Digits(n / 10);
    }
  }

  // r shows the fields of an object: those with the first keys, as they show themselves, and how many are missing.
  ghost predicate ShowsFields(fields: JsonMap, r: JsonMap, kept: set<string>, b: Bounds) {
    var cut := 0 < b.maxFields < |fields|;
    && kept <= fields.Keys && (forall j, k | j in kept && k in fields.Keys - kept :: KeyLess(j, k))
    && |kept| == (if cut then b.maxFields else |fields|)
    && r.Keys == (if cut then kept + {"_truncated_fields"} else kept)
    && (cut ==> r["_truncated_fields"] == Number((|fields| - b.maxFields) as real))
  }

  ghost predicate ShowsItems(items: seq<Value>, r: seq<Value>, b: Bounds) {
    if 0 < b.maxArrayItems < |items| then
      && |r| == b.maxArrayItems + 1 && r[b.maxArrayItems].Text?
      && exists digits :: r[b.maxArrayItems] == Text("_truncated_items:" + digits)
                          && NumberOf(digits) == |items| - b.maxArrayItems
    else |r| == |items|
  }

  // r is what is left of v: a value that is nested too deep is replaced by a mark, objects and arrays are shortened,
  // and what has no JSON form of its own is shown as text.
  ghost predicate Shows(v: Value, r: Value, depth: nat, b: Bounds)
    decreases v
  {
    match v
    case Object(fields) =>
      if 0 < b.maxDepth < depth then r == Text("_truncated: max depth exceeded")
      else
        r.Object? && exists kept :: ShowsFields(fields, r.fields, kept, b) && forall k | k in kept ::
          (k == "_truncated_fields" && 0 < b.maxFields < |fields|) || Shows(fields[k], r.fields[k], depth + 1, b)
    case Array(items) =>
      if 0 < b.maxDepth < depth then r == Text("_truncated: max depth exceeded")
      else
        && r.Array? && ShowsItems(items, r.items, b)
        && forall i | 0 <= i < |items| && i < |r.items| ::
          (0 < b.maxArrayItems <= i) || Shows(items[i], r.items[i], depth + 1, b)
    case Other(rendered) => r == Text(rendered)
    case _ => r == v
  }

  lemma RankGrows(j: string, k: string, keys: set<string>)
    requires j in keys && k in keys && KeyLess(k, j)
    ensures Rank(k, keys) < Rank(j, keys)
  {
    var below, beyond := set x | x in keys && KeyLess(x, k), set x | x in keys && KeyLess(x, j);
    forall x | x in below
      ensures x in beyond
    {
      KeyLessIsStrict(x, k, j);
    }
    KeyLessIsStrict(k, k, k);
    assert k in beyond - below;
    assert beyond == below + (beyond - below);
  }

  lemma FieldsShow(v: Value, depth: nat, b: Bounds)
    requires v.Object? && !(0 < b.maxDepth < depth)
    ensures ShowsFields(v.fields, ProjectValue(v, depth, b).fields, KeptKeys(v.fields, b), b)
  {
    var kept := KeptKeys(v.fields, b);
    KeptKeysCount(v.fields, b);
    forall j, k | j in kept && k in v.fields.Keys - kept
      ensures KeyLess(j, k)
    {
      KeyLessIsTotal(j, k);
      if KeyLess(k, j) {
        RankGrows(j, k, v.fields.Keys);
      }
    }
  }

  lemma ItemsShow(v: Value, depth: nat, b: Bounds)
    requires v.Array? && !(0 < b.maxDepth < depth)
    ensures ShowsItems(v.items, ProjectValue(v, depth, b).items, b)
  {
    if 0 < b.maxArrayItems < |v.items| {
      DigitsTell(|v.items| - b.maxArrayItems);
    }
  }

  lemma {:induction false} ProjectionShows(v: Value, depth: nat, b: Bounds)
    ensures Shows(v, ProjectValue(v, depth, b), depth, b)
    decreases v
  {
    if v.Object? && !(0 < b.maxDepth < depth) {
      FieldsShow(v, depth, b);
      forall k | k in KeptKeys(v.fields, b) {
        ProjectionShows(v.fields[k], depth + 1, b);
      }
    } else if v.Array? && !(0 < b.maxDepth < depth) {
      ItemsShow(v, depth, b);
      forall i | 0 <= i < KeptItems(v.items, b) {
        ProjectionShows(v.items[i], depth + 1, b);
      }
    }
  }

  /* ---- The whole map ---- */

  const TRUNCATION_MARKER: JsonMap := map["_truncated" := Bool(true)]

  // Sizes a value; None stands for a value that cannot be rendered as JSON.
  type Sizer = JsonMap -> Option<nat>

  predicate TooLarge(m: JsonMap, b: Bounds, size: Sizer) {
    size(m).Some? && b.maxTokens > 0 && size(m).value > b.maxTokens
  }

  function BoundedTruncationMarker(b: Bounds, size: Sizer): (r: Option<JsonMap>)
    ensures r.Some? ==> r.value == TRUNCATION_MARKER && !TooLarge(r.value, b, size)
  {
    if TooLarge(TRUNCATION_MARKER, b, size) then None else Some(TRUNCATION_MARKER)
  }

  // The map if it is within the limit, else a mark if at least that is, else nothing; no limit is as good as one.
  ghost function Within(m: JsonMap, limit: int, size: Sizer): Option<JsonMap> {
    var mark := map["_truncated" := Bool(true)];
    if limit <= 0 || size(m).None? || size(m).value <= limit then Some(m)
    else if size(mark).None? || size(mark).value <= limit then Some(mark)
    else None
  }

  // What every projected map keeps to.
  ghost predicate KeepsBounds(m: JsonMap, b: Bounds) {
    && (b.maxDepth > 0 ==> NestedAtMost(Object(m), b.maxDepth))
    && (b.maxFields > 0 && b.maxArrayItems > 0 ==> AsNarrowAs(Object(m), b.maxFields + 1, b.maxArrayItems + 1))
  }

  // A map that there is nothing to cut from.
  ghost predicate InsideBounds(m: JsonMap, b: Bounds) {
    && Plain(Object(m))
    && (b.maxDepth > 0 ==> NestedAtMost(Object(m), b.maxDepth))
    && AsNarrowAs(Object(m), b.maxFields, b.maxArrayItems)
  }

  lemma ProjectionKeepsBounds(values: JsonMap, b: Bounds)
    ensures ProjectValue(Object(values), 1, b).Object?
    ensures KeepsBounds(ProjectValue(Object(values), 1, b).fields, b)
    ensures InsideBounds(values, b) ==> ProjectValue(Object(values), 1, b) == Object(values)
  {
    if b.maxDepth > 0 {
      NestingIsBounded(Object(values), 1, b);
    }
    if b.maxFields > 0 && b.maxArrayItems > 0 {
      WidthIsBounded(Object(values), 1, b);
    }
    if InsideBounds(values, b) {
      InsideBoundsIsUnchanged(Object(values), 1, b);
    }
  }

  lemma SomethingIsShown(values: JsonMap, r: Value, b: Bounds)
    requires values != map[] && Shows(Object(values), r, 1, b)
    ensures r.Object? && r.fields != map[]
  {
    assert |values.Keys| == |values|;
    assert r.fields.Keys != {};
  }

  method ProjectBoundedMap(values: JsonMap, b: Bounds, size: Sizer) returns (r: Option<JsonMap>)
    ensures values == map[] ==> r == None
    ensures r.Some? ==> !TooLarge(r.value, b, size) && KeepsBounds(r.value, b)
    ensures values != map[] && InsideBounds(values, b) && !TooLarge(values, b, size) ==> r == Some(values)
    ensures values != map[] ==> exists shown ::
        Shows(Object(values), Object(shown), 1, b) && r == Within(shown, b.maxTokens, size)
  {
    if |values| == 0 {
      return None;
    }
    var projected := ProjectOutputValue(Object(values), 1, b);
    ProjectionKeepsBounds(values, b);
    ProjectionShows(Object(values), 1, b);
    SomethingIsShown(values, projected, b);
    if !projected.Object? || |projected.fields| == 0 {
      return None;
    }
    if TooLarge(projected.fields, b, size) {
      r := BoundedTruncationMarker(b, size);
    } else {
      r := Some(projected.fields);
    }
  }
}

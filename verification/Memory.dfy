/**
 Recent memories in the prompt (runtime/internal/context/memory_projection.go): records from the
 future are dropped, records of the same game instant are put in event order, and the newest ones that
 fit the section budget are kept.
 */
module Memory {
  import opened Common
  import opened TokenEstimate
  import opened JsonText

  datatype GameTime = GameTime(year: int, season: int, day: int, hour: int, minute: int, tick: int)

  datatype Record = Record(memoryId: string, sourceEventSequence: nat, gameTime: Option<GameTime>,
                           summaries: seq<string>)

  /* ---- Game time ---- */

  function CompareInt(left: int, right: int): int {
    if left < right then -1 else if left > right then 1 else 0
  }

  function CompareGameTime(left: GameTime, right: GameTime): int {
    if left.year != right.year then CompareInt(left.year, right.year)
    else if left.season != right.season then CompareInt(left.season, right.season)
    else if left.day != right.day then CompareInt(left.day, right.day)
    else if left.hour != right.hour then CompareInt(left.hour, right.hour)
    else if left.minute != right.minute then CompareInt(left.minute, right.minute)
    else CompareInt(left.tick, right.tick)
  }

  function Parts(t: GameTime): seq<int> {
    [t.year, t.season, t.day, t.hour, t.minute, t.tick]
  }

  // The first part in which the two times differ is the greater one in a.
  ghost predicate Later(a: GameTime, b: GameTime) {
    exists k :: 0 <= k < 6 && Parts(a)[k] > Parts(b)[k] && forall i | 0 <= i < k :: Parts(a)[i] == Parts(b)[i]
  }

  lemma ComparisonIsLexicographic(a: GameTime, b: GameTime)
    ensures CompareGameTime(a, b) > 0 <==> Later(a, b)
    ensures CompareGameTime(a, b) < 0 <==> Later(b, a)
    ensures CompareGameTime(a, b) == 0 <==> a == b
  {
    var p, q := Parts(a), Parts(b);
    var k := if p[0] != q[0] then 0 else if p[1] != q[1] then 1 else if p[2] != q[2] then 2
             else if p[3] != q[3] then 3 else if p[4] != q[4] then 4 else 5;
    assert forall i | 0 <= i < k :: p[i] == q[i];
    assert p[k] != q[k] || a == b;
    assert p[k] > q[k] ==> Later(a, b);
    assert p[k] < q[k] ==> Later(b, a);
  }

  predicate IsFuture(r: Record, now: Option<GameTime>) {
    r.gameTime.Some? && now.Some? && CompareGameTime(r.gameTime.value, now.value) > 0
  }

  // The records that are not from the future, in order.
  function Past(records: seq<Record>, now: Option<GameTime>): seq<Record> {
    if records == [] then [] else
    var init := Past(records[..|records| - 1], now);
    var last := records[|records| - 1];
    if IsFuture(last, now) then init else init + [last]
  }

  /* ---- Stable order by event sequence ---- */

  // Inserts r behind every record of xs that does not come after it.
  function Insert(xs: seq<Record>, r: Record): seq<Record> {
    if xs == [] || xs[|xs| - 1].sourceEventSequence <= r.sourceEventSequence then xs + [r]
    else Insert(xs[..|xs| - 1], r) + [xs[|xs| - 1]]
  }

  function SortBySequence(rs: seq<Record>): (sorted: seq<Record>) {
    if rs == [] then [] else Insert(SortBySequence(rs[..|rs| - 1]), rs[|rs| - 1])
  }

  predicate InOrder(rs: seq<Record>) {
    forall i | 0 < i < |rs| :: rs[i - 1].sourceEventSequence <= rs[i].sourceEventSequence
  }

  function WithSequence(rs: seq<Record>, n: nat): seq<Record> {
    if rs == [] then []
    else WithSequence(rs[..|rs| - 1], n) + if rs[|rs| - 1].sourceEventSequence == n then [rs[|rs| - 1]] else []
  }

  lemma WithSequenceOfAppend(rs: seq<Record>, r: Record, n: nat)
    ensures WithSequence(rs + [r], n) == WithSequence(rs, n) + if r.sourceEventSequence == n then [r] else []
  {
  }

  lemma {:induction false} InsertPermutes(xs: seq<Record>, r: Record)
    ensures multiset(Insert(xs, r)) == multiset(xs) + multiset{r}
  {
    if xs != [] && xs[|xs| - 1].sourceEventSequence > r.sourceEventSequence {
      InsertPermutes(xs[..|xs| - 1], r);
      assert xs == xs[..|xs| - 1] + [xs[|xs| - 1]];
    }
  }

  lemma {:induction false} InsertOrders(xs: seq<Record>, r: Record)
    requires InOrder(xs)
    ensures var ys := Insert(xs, r);
      InOrder(ys) && |ys| == |xs| + 1
      && ys[|xs|].sourceEventSequence == if xs != [] && xs[|xs| - 1].sourceEventSequence > r.sourceEventSequence
          then xs[|xs| - 1].sourceEventSequence else r.sourceEventSequence
  {
    if xs != [] && xs[|xs| - 1].sourceEventSequence > r.sourceEventSequence {
      InsertOrders(xs[..|xs| - 1], r);
    }
  }

  lemma {:induction false} InsertIsStable(xs: seq<Record>, r: Record, n: nat)
    requires InOrder(xs)
    ensures WithSequence(Insert(xs, r), n) == WithSequence(xs + [r], n)
  {
    if xs != [] && xs[|xs| - 1].sourceEventSequence > r.sourceEventSequence {
      var init, last := xs[..|xs| - 1], xs[|xs| - 1];
      InsertIsStable(init, r, n);
      WithSequenceOfAppend(Insert(init, r), last, n);
      WithSequenceOfAppend(init, r, n);
      WithSequenceOfAppend(xs, r, n);
    }
  }

  lemma {:induction false} SortPermutes(rs: seq<Record>)
    ensures multiset(SortBySequence(rs)) == multiset(rs)
  {
    if rs != [] {
      var init, last := rs[..|rs| - 1], rs[|rs| - 1];
      SortPermutes(init);
      InsertPermutes(SortBySequence(init), last);
      assert rs == init + [last];
    }
  }

  // Sorting permutes, orders, and keeps the order of records with equal sequence numbers.
  lemma {:induction false} SortIsStable(rs: seq<Record>, n: nat)
    ensures multiset(SortBySequence(rs)) == multiset(rs)
    ensures InOrder(SortBySequence(rs))
    ensures WithSequence(SortBySequence(rs), n) == WithSequence(rs, n)
  {
    if rs != [] {
      var init, last := rs[..|rs| - 1], rs[|rs| - 1];
      var sorted := SortBySequence(init);
      SortPermutes(rs);
      SortIsStable(init, n);
      assert InOrder(SortBySequence(rs)) by {
        InsertOrders(sorted, last);
      }
      assert WithSequence(SortBySequence(rs), n) == WithSequence(rs, n) by {
        InsertIsStable(sorted, last, n);
        WithSequenceOfAppend(sorted, last, n);
      }
    }
  }

  lemma {:induction false} SortOfSorted(rs: seq<Record>)
    requires InOrder(rs)
    ensures SortBySequence(rs) == rs
  {
    if rs != [] {
      SortOfSorted(rs[..|rs| - 1]);
    }
  }

  /* ---- Runs of one instant ---- */

  predicate Comparable(r: Record) {
    r.gameTime.Some? && r.sourceEventSequence != 0
  }

  predicate SameRun(r: Record, s: Record) {
    Comparable(r) && Comparable(s) && r.gameTime == s.gameTime
  }

  // Where the run that holds record i ends when it is read from i; a record in no run is alone.
  function RunEnd(rs: seq<Record>, i: nat): (e: nat)
    requires i < |rs|
    ensures i < e <= |rs|
  {
    if Comparable(rs[i]) then ScanRun(rs, i, i + 1) else i + 1
  }

  function ScanRun(rs: seq<Record>, s: nat, e: nat): (end: nat)
    requires s < e <= |rs|
    ensures e <= end <= |rs|
    decreases |rs| - e
  {
    if e < |rs| && SameRun(rs[s], rs[e]) then ScanRun(rs, s, e + 1) else e
  }

  // The records from i on, every run sorted by event sequence.
  function StabilizedFrom(rs: seq<Record>, i: nat): seq<Record>
    requires i <= |rs|
    decreases |rs| - i
  {
    if i == |rs| then [] else SortBySequence(rs[i..RunEnd(rs, i)]) + StabilizedFrom(rs, RunEnd(rs, i))
  }

  function Stabilized(rs: seq<Record>): seq<Record> {
    StabilizedFrom(rs, 0)
  }

  // Records s up to e are one run, and the run is not longer on either side.
  ghost predicate MaximalRun(rs: seq<Record>, s: nat, e: nat) {
    && s < e <= |rs|
    && (forall i | s <= i < e :: SameRun(rs[s], rs[i]))
    && (s > 0 ==> !SameRun(rs[s - 1], rs[s]))
    && (e < |rs| ==> !SameRun(rs[s], rs[e]))
  }

  lemma {:induction false} ScanRunIs(rs: seq<Record>, s: nat, e: nat, end: nat)
    requires s < e <= end <= |rs|
    requires forall i | e <= i < end :: SameRun(rs[s], rs[i])
    requires end < |rs| ==> !SameRun(rs[s], rs[end])
    ensures ScanRun(rs, s, e) == end
    decreases end - e
  {
    if e < end {
      ScanRunIs(rs, s, e + 1, end);
    }
  }

  lemma {:induction false} ScanRunIsRun(rs: seq<Record>, s: nat, e: nat)
    requires s < e <= |rs|
    ensures forall i | e <= i < ScanRun(rs, s, e) :: SameRun(rs[s], rs[i])
    ensures ScanRun(rs, s, e) < |rs| ==> !SameRun(rs[s], rs[ScanRun(rs, s, e)])
    decreases |rs| - e
  {
    if e < |rs| && SameRun(rs[s], rs[e]) {
      ScanRunIsRun(rs, s, e + 1);
    }
  }

  // The two sequences differ only in which record of a run stands where.
  ghost predicate SameInstants(rs: seq<Record>, st: seq<Record>) {
    |st| == |rs| && forall i | 0 <= i < |rs| :: st[i] == rs[i] || SameRun(rs[i], st[i])
  }

  lemma SameInstantsOfJoin(a: seq<Record>, b: seq<Record>, c: seq<Record>, d: seq<Record>)
    requires SameInstants(a, b) && SameInstants(c, d)
    ensures SameInstants(a + c, b + d)
  {
  }

  // Sorting a run changes neither the instants nor which records are comparable.
  lemma SortedRun(rs: seq<Record>)
    requires |rs| == 1 || forall i | 0 <= i < |rs| :: SameRun(rs[0], rs[i])
    ensures SameInstants(rs, SortBySequence(rs))
  {
    var sorted := SortBySequence(rs);
    SortPermutes(rs);
    assert |multiset(sorted)| == |multiset(rs)|;
    forall i | 0 <= i < |sorted|
      ensures sorted[i] in rs
    {
      assert sorted[i] in multiset(rs);
    }
  }

  lemma FirstRunOf(rs: seq<Record>, i: nat)
    requires i < |rs|
    ensures SameInstants(rs[i..RunEnd(rs, i)], SortBySequence(rs[i..RunEnd(rs, i)]))
  {
    var run := rs[i..RunEnd(rs, i)];
    ScanRunIsRun(rs, i, i + 1);
    assert Comparable(rs[i]) ==> forall k | 0 <= k < |run| :: SameRun(run[0], run[k]);
    SortedRun(run);
  }

  // Records only move within their run.
  lemma {:induction false} StabilizedKeepsInstants(rs: seq<Record>, i: nat)
    requires i <= |rs|
    ensures SameInstants(rs[i..], StabilizedFrom(rs, i))
    decreases |rs| - i
  {
    if i < |rs| {
      var e := RunEnd(rs, i);
      FirstRunOf(rs, i);
      StabilizedKeepsInstants(rs, e);
      SameInstantsOfJoin(rs[i..e], SortBySequence(rs[i..e]), rs[e..], StabilizedFrom(rs, e));
      assert rs[i..e] + rs[e..] == rs[i..];
    }
  }

  lemma JoinPermutes(a: seq<Record>, b: seq<Record>, c: seq<Record>, d: seq<Record>)
    requires multiset(a) == multiset(b) && multiset(c) == multiset(d)
    ensures multiset(a + c) == multiset(b + d)
  {
  }

  lemma {:induction false} StabilizedPermutes(rs: seq<Record>, i: nat)
    requires i <= |rs|
    ensures multiset(StabilizedFrom(rs, i)) == multiset(rs[i..])
    decreases |rs| - i
  {
    if i < |rs| {
      var e := RunEnd(rs, i);
      SortPermutes(rs[i..e]);
      StabilizedPermutes(rs, e);
      JoinPermutes(SortBySequence(rs[i..e]), rs[i..e], StabilizedFrom(rs, e), rs[e..]);
      RunAndRest(rs, i, e);
    }
  }

  lemma RunAndRest(rs: seq<Record>, i: nat, e: nat)
    requires i <= e <= |rs|
    ensures rs[i..e] + rs[e..] == rs[i..]
  {
  }

  // Reading from a record at which no run is cut, the next reading position cuts none either.
  lemma RunEndCutsNoRun(rs: seq<Record>, i: nat)
    requires i < |rs| && RunEnd(rs, i) < |rs|
    ensures !SameRun(rs[RunEnd(rs, i) - 1], rs[RunEnd(rs, i)])
  {
    ScanRunIsRun(rs, i, i + 1);
    assert RunEnd(rs, i) - 1 == i || SameRun(rs[i], rs[RunEnd(rs, i) - 1]);
  }

  lemma LaterRunStartsLater(rs: seq<Record>, i: nat, s: nat, e: nat)
    requires MaximalRun(rs, s, e) && i < s
    ensures RunEnd(rs, i) <= s
  {
    ScanRunIsRun(rs, i, i + 1);
    assert s - 1 == i || s >= RunEnd(rs, i) || SameRun(rs[i], rs[s - 1]);
  }

  lemma LengthFrom(rs: seq<Record>, i: nat)
    requires i <= |rs|
    ensures |StabilizedFrom(rs, i)| == |rs| - i
  {
    StabilizedKeepsInstants(rs, i);
  }

  lemma AfterRunEnd(rs: seq<Record>, i: nat, s: nat, e: nat)
    requires i < |rs| && RunEnd(rs, i) <= s <= e <= |rs|
    ensures |StabilizedFrom(rs, i)| == |rs| - i && |StabilizedFrom(rs, RunEnd(rs, i))| == |rs| - RunEnd(rs, i)
    ensures StabilizedFrom(rs, i)[s - i..e - i] ==
        StabilizedFrom(rs, RunEnd(rs, i))[s - RunEnd(rs, i)..e - RunEnd(rs, i)]
  {
    var end := RunEnd(rs, i);
    var head, tail := SortBySequence(rs[i..end]), StabilizedFrom(rs, end);
    assert StabilizedFrom(rs, i) == head + tail;
    assert |head + tail| == |rs| - i by {
      LengthFrom(rs, i);
    }
    assert |tail| == |rs| - end by {
      LengthFrom(rs, end);
    }
    SliceOfJoin(head, tail, s - i, e - i);
  }

  lemma UpToRunEnd(rs: seq<Record>, i: nat)
    requires i < |rs|
    ensures |StabilizedFrom(rs, i)| == |rs| - i
    ensures StabilizedFrom(rs, i)[0..RunEnd(rs, i) - i] == SortBySequence(rs[i..RunEnd(rs, i)])
  {
    LengthFrom(rs, i);
    FirstRunOf(rs, i);
  }

  // A maximal run holds the same records afterwards, stably sorted.
  lemma RunAtStartIsSorted(rs: seq<Record>, s: nat, e: nat)
    requires MaximalRun(rs, s, e)
    ensures |StabilizedFrom(rs, s)| == |rs| - s && StabilizedFrom(rs, s)[0..e - s] == SortBySequence(rs[s..e])
  {
    ScanRunIs(rs, s, s + 1, e);
    assert RunEnd(rs, s) == e;
    UpToRunEnd(rs, s);
  }

  lemma SortedBehind(rs: seq<Record>, i: nat, s: nat, e: nat)
    requires i < |rs| && RunEnd(rs, i) <= s <= e <= |rs|
    requires |StabilizedFrom(rs, RunEnd(rs, i))| == |rs| - RunEnd(rs, i)
    requires StabilizedFrom(rs, RunEnd(rs, i))[s - RunEnd(rs, i)..e - RunEnd(rs, i)] == SortBySequence(rs[s..e])
    ensures |StabilizedFrom(rs, i)| == |rs| - i && StabilizedFrom(rs, i)[s - i..e - i] == SortBySequence(rs[s..e])
  {
    AfterRunEnd(rs, i, s, e);
  }

  lemma {:induction false} RunIsSorted(rs: seq<Record>, i: nat, s: nat, e: nat)
    requires MaximalRun(rs, s, e) && i <= s
    requires i > 0 ==> !SameRun(rs[i - 1], rs[i])
    ensures |StabilizedFrom(rs, i)| == |rs| - i && StabilizedFrom(rs, i)[s - i..e - i] == SortBySequence(rs[s..e])
    decreases |rs| - i
  {
    if i == s {
      RunAtStartIsSorted(rs, s, e);
    } else {
      var next := RunEnd(rs, i);
      LaterRunStartsLater(rs, i, s, e);
      RunEndCutsNoRun(rs, i);
      RunIsSorted(rs, next, s, e);
      SortedBehind(rs, i, s, e);
    }
  }

  lemma {:induction false} NeighboursInOrder(rs: seq<Record>, i: nat, k: nat)
    requires i <= k < |rs| - 1 && SameRun(rs[k], rs[k + 1])
    requires i > 0 ==> !SameRun(rs[i - 1], rs[i])
    ensures |StabilizedFrom(rs, i)| == |rs| - i
    ensures StabilizedFrom(rs, i)[k - i].sourceEventSequence <= StabilizedFrom(rs, i)[k - i + 1].sourceEventSequence
    decreases |rs| - i
  {
    var e := RunEnd(rs, i);
    if k + 1 < e {
      RunInOrder(rs, i, k);
    } else {
      RunEndCutsNoRun(rs, i);
      assert k != e - 1;
      NeighboursInOrder(rs, e, k);
      BehindRunEnd(rs, i, k);
      BehindRunEnd(rs, i, k + 1);
    }
  }

  lemma RunInOrder(rs: seq<Record>, i: nat, k: nat)
    requires i <= k && i < |rs| && k + 1 < RunEnd(rs, i)
    ensures |StabilizedFrom(rs, i)| == |rs| - i
    ensures StabilizedFrom(rs, i)[k - i].sourceEventSequence <= StabilizedFrom(rs, i)[k - i + 1].sourceEventSequence
  {
    UpToRunEnd(rs, i);
    SortIsStable(rs[i..RunEnd(rs, i)], 0);
    var sorted := StabilizedFrom(rs, i)[0..RunEnd(rs, i) - i];
    var j := k - i + 1;
    assert sorted[j - 1].sourceEventSequence <= sorted[j].sourceEventSequence;
  }

  lemma BehindRunEnd(rs: seq<Record>, i: nat, k: nat)
    requires i < |rs| && RunEnd(rs, i) <= k < |rs|
    ensures |StabilizedFrom(rs, i)| == |rs| - i && |StabilizedFrom(rs, RunEnd(rs, i))| == |rs| - RunEnd(rs, i)
    ensures StabilizedFrom(rs, i)[k - i] == StabilizedFrom(rs, RunEnd(rs, i))[k - RunEnd(rs, i)]
  {
    AfterRunEnd(rs, i, k, k + 1);
    OneOfSlice(StabilizedFrom(rs, i), k - i);
    OneOfSlice(StabilizedFrom(rs, RunEnd(rs, i)), k - RunEnd(rs, i));
  }

  lemma OneOfSlice<T>(s: seq<T>, i: nat)
    requires i < |s|
    ensures s[i..i + 1] == [s[i]]
  {
  }

  // Neighbours of one game time that both have an event sequence end in the order of their sequences; every place
  // keeps its game time, and a record without time or without sequence stays in its place.
  lemma TimelineTells(rs: seq<Record>, k: nat)
    requires k < |rs|
    ensures |Stabilized(rs)| == |rs| && Stabilized(rs)[k].gameTime == rs[k].gameTime
    ensures rs[k].gameTime.None? || rs[k].sourceEventSequence == 0 ==> Stabilized(rs)[k] == rs[k]
    ensures k + 1 < |rs| && rs[k].gameTime.Some? && rs[k].gameTime == rs[k + 1].gameTime
            && rs[k].sourceEventSequence > 0 && rs[k + 1].sourceEventSequence > 0 ==>
      Stabilized(rs)[k].sourceEventSequence <= Stabilized(rs)[k + 1].sourceEventSequence
  {
    StabilizedKeepsInstants(rs, 0);
    assert rs[0..] == rs;
    if k + 1 < |rs| && SameRun(rs[k], rs[k + 1]) {
      NeighboursInOrder(rs, 0, k);
    }
  }

  // A record that is in no run stays where it is.
  lemma OthersStay(rs: seq<Record>, i: nat)
    requires i < |rs| && !Comparable(rs[i])
    ensures |Stabilized(rs)| == |rs| && Stabilized(rs)[i] == rs[i]
  {
    StabilizedKeepsInstants(rs, 0);
    assert rs[0..] == rs;
  }

  lemma {:induction false} StabilizedAgain(rs: seq<Record>, st: seq<Record>, i: nat)
    requires SameInstants(rs, st) && i <= |rs|
    requires st[i..] == StabilizedFrom(rs, i)
    ensures StabilizedFrom(st, i) == st[i..]
    decreases |rs| - i
  {
    if i < |rs| {
      var e := RunEnd(rs, i);
      ScanRunIsRun(rs, i, i + 1);
      assert RunEnd(st, i) == e by {
        if Comparable(rs[i]) {
          ScanRunIs(st, i, i + 1, e);
        }
      }
      FirstRunOf(rs, i);
      StabilizedKeepsInstants(rs, e);
      assert st[i..e] == st[i..][..e - i] == SortBySequence(rs[i..e]);
      assert st[e..] == st[i..][e - i..] == StabilizedFrom(rs, e);
      SortIsStable(rs[i..e], 0);
      SortOfSorted(st[i..e]);
      StabilizedAgain(rs, st, e);
      assert st[i..e] + st[e..] == st[i..];
    }
  }

  lemma StabilizedTwice(rs: seq<Record>)
    ensures Stabilized(Stabilized(rs)) == Stabilized(rs)
  {
    var st := Stabilized(rs);
    StabilizedKeepsInstants(rs, 0);
    assert rs[0..] == rs && st[0..] == st;
    StabilizedAgain(rs, st, 0);
  }

  /* ---- In place ---- */

  lemma {:induction false} InsertAt(xs: seq<Record>, r: Record, p: nat)
    requires p <= |xs|
    requires forall k | p <= k < |xs| :: xs[k].sourceEventSequence > r.sourceEventSequence
    requires p > 0 ==> xs[p - 1].sourceEventSequence <= r.sourceEventSequence
    ensures Insert(xs, r) == xs[..p] + [r] + xs[p..]
  {
    if p < |xs| {
      InsertAt(xs[..|xs| - 1], r, p);
    }
  }

  lemma Inserted(xs: seq<Record>, r: Record, p: nat, ys: seq<Record>)
    requires p <= |xs| && |ys| == |xs| + 1 && ys[p] == r
    requires forall k | 0 <= k < p :: ys[k] == xs[k]
    requires forall k | p < k < |ys| :: ys[k] == xs[k - 1] && ys[k].sourceEventSequence > r.sourceEventSequence
    requires p > 0 ==> xs[p - 1].sourceEventSequence <= r.sourceEventSequence
    ensures ys == Insert(xs, r)
  {
    assert forall k | p <= k < |xs| :: xs[k] == ys[k + 1];
    InsertAt(xs, r, p);
  }

  // Moves element i down into the ordered part a[lo..i].
  method InsertInPlace(a: array<Record>, lo: nat, i: nat)
    requires lo <= i < a.Length
    modifies a
    ensures a[..][lo..i + 1] == Insert(old(a[..])[lo..i], old(a[..])[i])
    ensures forall k | 0 <= k < lo || i < k < a.Length :: a[k] == old(a[k])
  {
    ghost var was, x := a[..], a[i];
    var j := i;
    while j > lo && a[j - 1].sourceEventSequence > a[j].sourceEventSequence
      invariant lo <= j <= i && a[j] == x
      invariant forall k | 0 <= k < j :: a[k] == was[k]
      invariant forall k | j < k <= i :: a[k] == was[k - 1] && a[k].sourceEventSequence > x.sourceEventSequence
      invariant forall k | i < k < a.Length :: a[k] == was[k]
    {
      a[j - 1], a[j] := a[j], a[j - 1];
      j := j - 1;
    }
    InsertedInSlice(was, a[..], lo, i, j);
  }

  // The record at i has moved down to j, and those from j on have moved up by one.
  lemma InsertedInSlice(was: seq<Record>, now: seq<Record>, lo: nat, i: nat, j: nat)
    requires lo <= j <= i < |was| == |now| && now[j] == was[i]
    requires forall k | lo <= k < j :: now[k] == was[k]
    requires forall k | j < k <= i :: now[k] == was[k - 1] && now[k].sourceEventSequence > was[i].sourceEventSequence
    requires j > lo ==> now[j - 1].sourceEventSequence <= was[i].sourceEventSequence
    ensures now[lo..i + 1] == Insert(was[lo..i], was[i])
  {
    var s, r := was[lo..i], now[lo..i + 1];
    assert forall k | j - lo <= k < |s| :: s[k] == now[k + lo + 1];
    Inserted(s, was[i], j - lo, r);
  }

  // The part from lo to i is sorted and the rest is as it was.
  ghost predicate SortedUpTo(now: seq<Record>, was: seq<Record>, lo: nat, i: nat) {
    && lo <= i <= |was| == |now| && now[lo..i] == SortBySequence(was[lo..i])
    && forall k | 0 <= k < lo || i <= k < |was| :: now[k] == was[k]
  }

  lemma SortNext(was: seq<Record>, now: seq<Record>, next: seq<Record>, lo: nat, i: nat)
    requires i < |was| == |next| && SortedUpTo(now, was, lo, i)
    requires next[lo..i + 1] == Insert(now[lo..i], now[i])
    requires forall k | 0 <= k < lo || i < k < |was| :: next[k] == now[k]
    ensures SortedUpTo(next, was, lo, i + 1)
  {
    assert was[lo..i + 1][..i - lo] == was[lo..i];
  }

  lemma NoneSorted(was: seq<Record>, lo: nat)
    requires lo <= |was|
    ensures SortedUpTo(was, was, lo, lo)
  {
    assert was[lo..lo] == [];
  }

  // Sorts part of an array, keeping the order of equal records.
  method SortSliceStable(a: array<Record>, lo: nat, hi: nat)
    requires lo <= hi <= a.Length
    modifies a
    ensures SortedUpTo(a[..], old(a[..]), lo, hi)
  {
    ghost var was := a[..];
    NoneSorted(was, lo);
    for i := lo to hi
      invariant SortedUpTo(a[..], was, lo, i)
    {
      SortOneMore(a, lo, i, was);
    }
  }

  method SortOneMore(a: array<Record>, lo: nat, i: nat, ghost was: seq<Record>)
    requires i < a.Length == |was| && SortedUpTo(a[..], was, lo, i)
    modifies a
    ensures SortedUpTo(a[..], was, lo, i + 1)
  {
    ghost var now := a[..];
    InsertInPlace(a, lo, i);
    SortNext(was, now, a[..], lo, i);
  }

  method StabilizeEqualGameTimeSequences(records: array<Record>)
    modifies records
    ensures records[..] == Stabilized(old(records[..]))
  {
    ghost var was := records[..];
    var start := 0;
    while start < records.Length
      invariant start <= records.Length
      invariant forall k | start <= k < records.Length :: records[k] == was[k]
      invariant records[..start] + StabilizedFrom(was, start) == Stabilized(was)
    {
      StabilizedNext(was, records[..start], start);
      start := SettleRun(records, start, was);
    }
  }

  // Puts the run at start in order and moves behind it.
  method SettleRun(records: array<Record>, start: nat, ghost was: seq<Record>) returns (end: nat)
    requires start < records.Length == |was|
    requires forall k | start <= k < records.Length :: records[k] == was[k]
    modifies records
    ensures end == RunEnd(was, start)
    ensures records[..end] == old(records[..start]) + SortBySequence(was[start..end])
    ensures forall k | end <= k < records.Length :: records[k] == was[k]
  {
    ghost var done := records[..start];
    if Comparable(records[start]) {
      end := FindRunEnd(records, start, was);
    } else {
      end := start + 1;
    }
    OrderRun(records, start, end, was);
    assert records[..start] == done;
    TakeMore(records[..], start, end);
  }

  method OrderRun(records: array<Record>, start: nat, end: nat, ghost was: seq<Record>)
    requires start < end <= records.Length == |was|
    requires forall k | start <= k < records.Length :: records[k] == was[k]
    modifies records
    ensures records[start..end] == SortBySequence(was[start..end])
    ensures forall k | 0 <= k < start || end <= k < records.Length :: records[k] == old(records[k])
  {
    assert records[start..end] == was[start..end];
    if end - start > 1 {
      SortSliceStable(records, start, end);
    } else {
      SortOfSorted(was[start..end]);
    }
  }

  method FindRunEnd(records: array<Record>, start: nat, ghost was: seq<Record>) returns (end: nat)
    requires start < records.Length == |was| && Comparable(records[start])
    requires forall k | start <= k < records.Length :: records[k] == was[k]
    ensures end == RunEnd(was, start)
  {
    end := start + 1;
    while end < records.Length && records[start].gameTime == records[end].gameTime &&
        records[end].sourceEventSequence != 0
      invariant start < end <= records.Length
      invariant forall i | start < i < end :: SameRun(was[start], was[i])
    {
      end := end + 1;
    }
    ScanRunIs(was, start, start + 1, end);
  }

  lemma StabilizedNext(rs: seq<Record>, done: seq<Record>, i: nat)
    requires i < |rs| && done + StabilizedFrom(rs, i) == Stabilized(rs)
    ensures done + SortBySequence(rs[i..RunEnd(rs, i)]) + StabilizedFrom(rs, RunEnd(rs, i)) == Stabilized(rs)
  {
  }

  /* ---- Selection ---- */

  method SelectTimelineMemories(records: seq<Record>, now: Option<GameTime>) returns (selected: seq<Record>)
    ensures selected == Stabilized(Past(records, now))
  {
    selected := [];
    for i := 0 to |records|
      invariant selected == Past(records[..i], now)
    {
      assert records[..i + 1][..i] == records[..i];
      if !IsFuture(records[i], now) {
        selected := selected + [records[i]];
      }
    }
    assert records[..|records|] == records;
    ghost var past := selected;
    var slice := new Record[|selected|](i requires 0 <= i < |selected| => selected[i]);
    assert slice[..] == past;
    StabilizeEqualGameTimeSequences(slice);
    selected := slice[..];
  }

  // Selection loses exactly the records that are later than now.
  lemma {:induction false} PastIsExactly(records: seq<Record>, now: Option<GameTime>, r: Record)
    ensures multiset(Past(records, now))[r] ==
      if r.gameTime.Some? && now.Some? && Later(r.gameTime.value, now.value) then 0 else multiset(records)[r]
  {
    if r.gameTime.Some? && now.Some? {
      ComparisonIsLexicographic(r.gameTime.value, now.value);
    }
    if records != [] {
      PastIsExactly(records[..|records| - 1], now, r);
      assert records == records[..|records| - 1] + [records[|records| - 1]];
    }
  }

  /* ---- Trimming to the section budget ---- */

  datatype MemoryProjection = MemoryProjection(memoryId: string, timeRelation: string, summaries: seq<string>)

  function MemoryObject(m: MemoryProjection): (s: string)
    ensures Delimited(s)
  {
    Object(OptionalText("memory_id", m.memoryId) + OptionalText("time_relation", m.timeRelation)
           + OptionalList("summaries", m.summaries))
  }

  function MemoryObjects(ms: seq<MemoryProjection>): (parts: seq<string>)
    ensures |parts| == |ms| && AllDelimited(parts)
  {
    if ms == [] then [] else [MemoryObject(ms[0])] + MemoryObjects(ms[1..])
  }

  // What the memory section costs.
  function MemoryTokens(ms: seq<MemoryProjection>): nat {
    Tokens(Array(MemoryObjects(ms)))
  }

  // One older memory never makes a non-empty section cheaper.
  lemma OlderMemoryCosts(ms: seq<MemoryProjection>, i: nat)
    requires i + 1 < |ms|
    ensures MemoryTokens(ms[i + 1..]) <= MemoryTokens(ms[i..])
  {
    assert ms[i..][1..] == ms[i + 1..];
    ArrayTokens(MemoryObjects(ms[i..]));
    ArrayTokens(MemoryObjects(ms[i + 1..]));
  }

  lemma {:induction false} OlderMemoriesCost(ms: seq<MemoryProjection>, i: nat, limit: int)
    requires i < |ms| && MemoryTokens(ms[i..]) > limit
    ensures forall j | 0 <= j <= i :: MemoryTokens(ms[j..]) > limit
  {
    if i > 0 {
      OlderMemoryCosts(ms, i - 1);
      OlderMemoriesCost(ms, i - 1, limit);
    }
  }

  // Keeps the longest run of newest memories that fits, nothing when the newest alone does not.
  method TrimMemoryProjections(projections: seq<MemoryProjection>, limit: int)
    returns (kept: seq<MemoryProjection>, ghost start: nat)
    ensures start <= |projections| && kept == projections[start..]
    ensures limit <= 0 ==> start == 0
    ensures limit > 0 && kept != [] ==> MemoryTokens(kept) <= limit
    ensures limit > 0 ==> forall j | 0 <= j < start :: MemoryTokens(projections[j..]) > limit
  {
    if |projections| == 0 || limit <= 0 {
      return projections, 0;
    }
    var first := |projections| - 1;
    if MemoryTokens(projections[first..]) > limit {
      OlderMemoriesCost(projections, first, limit);
      return [], |projections|;
    }
    while first > 0
      invariant 0 <= first < |projections|
      invariant MemoryTokens(projections[first..]) <= limit
    {
      var next := first - 1;
      if MemoryTokens(projections[next..]) > limit {
        OlderMemoriesCost(projections, next, limit);
        break;
      }
      first := next;
    }
    start := first;
    kept := projections[first..];
  }

  datatype Retention = Retention(retained: nat, dropped: nat)

  function Projected(records: seq<Record>, project: Record -> MemoryProjection): (ms: seq<MemoryProjection>)
    ensures |ms| == |records|
  {
    seq(|records|, i requires 0 <= i < |records| => project(records[i]))
  }

  // All memories the timeline has for the prompt, oldest first.
  function Timeline(records: seq<Record>, now: Option<GameTime>,
                    project: Record -> MemoryProjection): seq<MemoryProjection> {
    Projected(Stabilized(Past(records, now)), project)
  }

  method ProjectRecentMemories(records: seq<Record>, limit: int, now: Option<GameTime>,
                               project: Record -> MemoryProjection)
    returns (memories: seq<MemoryProjection>, report: Retention)
    ensures report.retained == |memories|
    ensures report.retained + report.dropped == |Past(records, now)| == |Timeline(records, now, project)|
    ensures memories == Timeline(records, now, project)[report.dropped..]
    ensures limit <= 0 ==> report.dropped == 0
    ensures limit > 0 && memories != [] ==> MemoryTokens(memories) <= limit
    ensures limit > 0 ==>
      forall j | 0 <= j < report.dropped :: MemoryTokens(Timeline(records, now, project)[j..]) > limit
  {
    LengthFrom(Past(records, now), 0);
    if |records| == 0 {
      return [], Retention(0, 0);
    }
    var selected := SelectTimelineMemories(records, now);
    var projections := Projected(selected, project);
    ghost var start;
    memories, start := TrimMemoryProjections(projections, limit);
    report := Retention(|memories|, |projections| - |memories|);
  }
}

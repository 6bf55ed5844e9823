/** The CPU affinity list and its range text, such as `0-3,8` (proxmox/config_qemu_cpu.go). */
module CpuAffinity {
  import opened Text

  datatype Range = Range(lo: uint, hi: uint)

  // ---------------------------------------------------------------- sorting

  ghost predicate Sorted(s: seq<uint>) { forall i, j | 0 <= i < j < |s| :: s[i] <= s[j] }

  function Insert(x: uint, s: seq<uint>): seq<uint> {
    if s == [] || x <= s[0] then [x] + s else [s[0]] + Insert(x, s[1..])
  }

  function Sort(s: seq<uint>): seq<uint> {
    if s == [] then [] else Insert(s[0], Sort(s[1..]))
  }

  lemma {:induction false} InsertKeeps(x: uint, s: seq<uint>)
    ensures multiset(Insert(x, s)) == multiset(s) + multiset{x}
  {
    if s != [] && x > s[0] {
      InsertKeeps(x, s[1..]);
      assert s == [s[0]] + s[1..];
    }
  }

  lemma {:induction false} InsertMembers(x: uint, s: seq<uint>)
    ensures forall y :: y in Insert(x, s) <==> y == x || y in s
  {
    if s != [] && x > s[0] {
      InsertMembers(x, s[1..]);
      assert s == [s[0]] + s[1..];
    }
  }

  lemma {:induction false} InsertSorts(x: uint, s: seq<uint>)
    requires Sorted(s)
    ensures Sorted(Insert(x, s))
  {
    if s != [] && x > s[0] {
      InsertSorts(x, s[1..]);
      InsertMembers(x, s[1..]);
      var rest := Insert(x, s[1..]);
      forall y | y in rest ensures s[0] <= y {
        if y != x {
          assert y in s[1..];
        }
      }
      forall j | 0 <= j < |rest| ensures s[0] <= rest[j] {
        assert rest[j] in rest;
      }
      assert Insert(x, s)[1..] == rest;
    }
  }

  lemma {:induction false} SortSorts(s: seq<uint>)
    ensures Sorted(Sort(s))
    ensures multiset(Sort(s)) == multiset(s) && |Sort(s)| == |s|
    ensures forall y :: y in Sort(s) <==> y in s
  {
    if s != [] {
      SortSorts(s[1..]);
      InsertSorts(s[0], Sort(s[1..]));
      InsertKeeps(s[0], Sort(s[1..]));
      InsertMembers(s[0], Sort(s[1..]));
      assert s == [s[0]] + s[1..];
      assert |Sort(s)| == |multiset(Sort(s))| == |multiset(s)|;
    }
  }

  /** `sort.Slice` on the caller's list. */
  method SortInPlace(a: array<uint>)
    modifies a
    ensures a[..] == Sort(old(a[..]))
  {
    var sorted := Sort(a[..]);
    SortSorts(a[..]);
    forall i | 0 <= i < a.Length {
      a[i] := sorted[i];
    }
    assert a[..] == sorted;
  }

  // ---------------------------------------------------------------- encoding

  function RangeText(r: Range): string {
    if r.lo == r.hi then UintText(r.lo) else UintText(r.lo) + "-" + UintText(r.hi)
  }

  function RangeTexts(rs: seq<Range>): (texts: seq<string>)
    ensures |texts| == |rs|
  {
    if rs == [] then [] else RangeTexts(rs[..|rs| - 1]) + [RangeText(rs[|rs| - 1])]
  }

  function Encoded(rs: seq<Range>): string { Join(RangeTexts(rs), ',') }

  /** One more entry after `previous`: a repetition, the next of the open range, or a new range. */
  function Extend(rs: seq<Range>, previous: uint, x: uint): (longer: seq<Range>)
    requires rs != []
    ensures longer != []
  {
    var last := rs[|rs| - 1];
    if x == previous then rs
    else if x == last.hi + 1 then rs[..|rs| - 1] + [Range(last.lo, x)]
    else rs + [Range(x, x)]
  }

  /** The ranges of the first `n` entries of a sorted list; the last range is still open. */
  function Scan(s: seq<uint>, n: nat): (rs: seq<Range>)
    requires 1 <= n <= |s|
    ensures rs != []
  {
    if n == 1 then [Range(s[0], s[0])] else Extend(Scan(s, n - 1), s[n - 2], s[n - 1])
  }

  /** The ranges already written, each with its comma. */
  function Closed(rs: seq<Range>): string {
    if rs == [] then "" else Closed(rs[..|rs| - 1]) + (RangeText(rs[|rs| - 1]) + ",")
  }

  lemma {:induction false} ClosedIsEncoded(rs: seq<Range>)
    requires rs != []
    ensures Closed(rs[..|rs| - 1]) + RangeText(rs[|rs| - 1]) == Encoded(rs)
  {
    var n := |rs| - 1;
    var texts := RangeTexts(rs[..n]);
    if n == 0 {
      assert RangeTexts(rs) == [RangeText(rs[0])];
      assert Closed(rs[..0]) == "";
    } else {
      ClosedIsEncoded(rs[..n]);
      assert rs[..n][..n - 1] == rs[..n - 1];
      JoinAppend(texts, [RangeText(rs[n])], ',');
      CommaMoves(Closed(rs[..n - 1]), RangeText(rs[n - 1]), RangeText(rs[n]));
    }
  }

  lemma CommaMoves(a: string, b: string, c: string)
    ensures a + (b + ",") + c == (a + b) + [','] + c
  {
  }

  /** Sorts the list in place and writes its ranges. */
  method MapToApiAffinity(affinity: array<uint>) returns (text: string)
    requires affinity.Length > 0
    modifies affinity
    ensures affinity[..] == Sort(old(affinity[..]))
    ensures text == Encoded(Scan(affinity[..], affinity.Length))
  {
    SortInPlace(affinity);
    ghost var s := affinity[..];
    var builder := "";
    var rangeStart, rangeEnd := affinity[0], affinity[0];
    ghost var rs := Scan(s, 1);
    for i := 1 to affinity.Length
      invariant affinity[..] == s
      invariant rs == Scan(s, i)
      invariant OpenRange(rs, builder, rangeStart, rangeEnd)
    {
      builder, rangeStart, rangeEnd := AddEntry(builder, rangeStart, rangeEnd, affinity[i - 1], affinity[i], rs);
      rs := Scan(s, i + 1);
    }
    var range := PrintRange(rangeStart, rangeEnd);
    ClosedIsEncoded(rs);
    text := builder + range;
  }

  method PrintRange(rangeStart: uint, rangeEnd: uint) returns (text: string)
    ensures text == RangeText(Range(rangeStart, rangeEnd))
  {
    text := UintText(rangeStart);
    if rangeStart != rangeEnd {
      text := text + "-" + UintText(rangeEnd);
    }
  }

  /** The text holds the closed ranges, the two variables the open one. */
  ghost predicate OpenRange(rs: seq<Range>, builder: string, rangeStart: uint, rangeEnd: uint) {
    rs != [] && rs[|rs| - 1] == Range(rangeStart, rangeEnd) && builder == Closed(rs[..|rs| - 1])
  }

  /** One round of the encoding loop. */
  method AddEntry(builder: string, rangeStart: uint, rangeEnd: uint, previous: uint, entry: uint, ghost rs: seq<Range>)
    returns (builder': string, rangeStart': uint, rangeEnd': uint)
    requires OpenRange(rs, builder, rangeStart, rangeEnd)
    ensures OpenRange(Extend(rs, previous, entry), builder', rangeStart', rangeEnd')
  {
    builder', rangeStart', rangeEnd' := builder, rangeStart, rangeEnd;
    if entry == previous {
      return;
    }
    if entry == rangeEnd + 1 {
      rangeEnd' := entry;
    } else {
      var range := PrintRange(rangeStart, rangeEnd);
      builder' := builder + (range + ",");
      rangeStart', rangeEnd' := entry, entry;
      ghost var longer := Extend(rs, previous, entry);
      assert longer[..|longer| - 1] == rs;
    }
  }

  // ---------------------------------------------------------------- decoding

  /** The numbers from `lo` to `hi`, converted to unsigned. */
  function Interval(lo: int, hi: int): seq<uint>
    decreases hi - lo + 1
  {
    if lo > hi then [] else Interval(lo, hi - 1) + [ToUint(hi)]
  }

  const MAX_INT: int := INT_LIMIT - 1

  predicate IsInt(i: int) { -INT_LIMIT <= i <= MAX_INT }

  /** `i++` on a Go `int`. */
  function Next(i: int): int { if i == MAX_INT then -INT_LIMIT else i + 1 }

  /** The counter of a loop after `n` rounds. */
  function Counter(start: int, n: nat): int { if n == 0 then start else Next(Counter(start, n - 1)) }

  /** `for i := start; i <= end; i++` comes to its end. */
  ghost predicate Ends(start: int, end: int) { exists n: nat :: Counter(start, n) > end }

  /** The loop ends exactly when its bound is not the largest `int`: the counter of that loop wraps
      around before it can exceed the bound. */
  lemma EndsExactly(start: int, end: int)
    requires IsInt(start) && IsInt(end)
    ensures Ends(start, end) <==> end != MAX_INT
  {
    if end != MAX_INT {
      var n := if start > end then 0 else end + 1 - start;
      CounterRises(start, n, end);
    } else {
      forall n: nat
        ensures Counter(start, n) <= end
      {
        CounterIsInt(start, n);
      }
    }
  }

  lemma {:induction false} CounterIsInt(start: int, n: nat)
    requires IsInt(start)
    ensures IsInt(Counter(start, n))
  {
    if n > 0 {
      CounterIsInt(start, n - 1);
    }
  }

  lemma {:induction false} CounterRises(start: int, n: nat, end: int)
    requires IsInt(start) && end != MAX_INT && (n == 0 || start + n <= end + 1 <= MAX_INT)
    ensures Counter(start, n) == start + n
  {
    if n > 0 {
      CounterRises(start, n - 1, end);
    }
  }

  /** What one item of the text stands for; nothing when decoding it never ends. */
  function DecodePart(e: string): Option<seq<uint>> {
    if '-' in e then
      var bounds := Split(e, '-');
      if |bounds| < 2 then Some([])
      else if Atoi(bounds[1]).value == MAX_INT then None
      else Some(Interval(Atoi(bounds[0]).value, Atoi(bounds[1]).value))
    else Some([Atou(e)])
  }

  function Joined(a: Option<seq<uint>>, b: Option<seq<uint>>): Option<seq<uint>> {
    if a.Some? && b.Some? then Some(a.value + b.value) else None
  }

  /** The numbers of all items, if each of them is decoded. */
  function AllJoined(items: seq<Option<seq<uint>>>): Option<seq<uint>> {
    if items == [] then Some([]) else Joined(AllJoined(items[..|items| - 1]), items[|items| - 1])
  }

  function DecodedParts(parts: seq<string>): (items: seq<Option<seq<uint>>>)
    ensures |items| == |parts| && forall i | 0 <= i < |parts| :: items[i] == DecodePart(parts[i])
  {
    seq(|parts|, i requires 0 <= i < |parts| => DecodePart(parts[i]))
  }

  function DecodeParts(parts: seq<string>): Option<seq<uint>> { AllJoined(DecodedParts(parts)) }

  /** The decoded list, absent when decoding never ends. */
  function Decode(rawAffinity: string): Option<seq<uint>> { DecodeParts(Split(rawAffinity, ',')) }

  lemma {:induction false} DashSplits(e: string)
    requires '-' in e
    ensures |Split(e, '-')| >= 2
  {
    if e[0] != '-' {
      DashSplits(e[1..]);
    }
  }

  lemma AtoiIsInt(s: string)
    ensures IsInt(Atoi(s).value)
  {
  }

  lemma {:induction false} EndlessParts(items: seq<Option<seq<uint>>>, p: nat, n: nat)
    requires p <= n <= |items| && AllJoined(items[..p]).None?
    ensures AllJoined(items[..n]).None?
  {
    if p < n {
      EndlessParts(items, p, n - 1);
      assert items[..n][..n - 1] == items[..n - 1];
    }
  }

  lemma OneMorePart(items: seq<Option<seq<uint>>>, p: nat)
    requires p < |items|
    ensures AllJoined(items[..p + 1]) == Joined(AllJoined(items[..p]), items[p])
  {
    assert items[..p + 1][..p] == items[..p];
  }

  /** A loop that does not end is reported as no result. */
  method MapToSdkAffinity(rawAffinity: string) returns (result: Option<seq<uint>>)
    ensures result == Decode(rawAffinity)
  {
    var numbers := [];
    var parts := Split(rawAffinity, ',');
    ghost var items := DecodedParts(parts);
    for p := 0 to |parts|
      invariant AllJoined(items[..p]) == Some(numbers)
    {
      OneMorePart(items, p);
      var e := parts[p];
      if '-' in e {
        DashSplits(e);
        var bounds := Split(e, '-');
        var start, end := Atoi(bounds[0]).value, Atoi(bounds[1]).value;
        AtoiIsInt(bounds[0]);
        AtoiIsInt(bounds[1]);
        EndsExactly(start, end);
        var longer := AppendRange(numbers, start, end);
        if longer.None? {
          EndlessParts(items, p + 1, |items|);
          assert items[..|items|] == items;
          return None;
        }
        numbers := longer.value;
      } else {
        numbers := numbers + [Atou(e)];
      }
    }
    assert items[..|items|] == items;
    result := Some(numbers);
  }

  /** The inner loop: every number of a range, if the loop ends. */
  method AppendRange(before: seq<uint>, start: int, end: int) returns (result: Option<seq<uint>>)
    requires IsInt(start) && IsInt(end)
    ensures result.Some? <==> Ends(start, end)
    ensures result.Some? ==> result.value == before + Interval(start, end)
  {
    EndsExactly(start, end);
    if end == MAX_INT {
      return None;
    }
    var numbers := before;
    var i := start;
    while i <= end
      invariant start <= i && (i <= end + 1 || i == start)
      invariant numbers == before + Interval(start, i - 1)
    {
      numbers := numbers + [ToUint(i)];
      i := Next(i);
    }
    result := Some(numbers);
  }

  // ---------------------------------------------------------------- round trip

  function Expand(rs: seq<Range>): seq<uint> {
    if rs == [] then []
    else
      var last := rs[|rs| - 1];
      Expand(rs[..|rs| - 1]) + Interval(last.lo, last.hi)
  }

  /** The list without its repetitions. */
  function Distinct(s: seq<uint>): seq<uint> {
    if |s| <= 1 then s
    else
      var n := |s| - 1;
      Distinct(s[..n]) + (if s[n] == s[n - 1] then [] else [s[n]])
  }

  ghost predicate Increasing(s: seq<uint>) { forall i, j | 0 <= i < j < |s| :: s[i] < s[j] }

  lemma {:induction false} DistinctIsIncreasing(s: seq<uint>)
    requires Sorted(s)
    ensures Increasing(Distinct(s))
    ensures forall x :: x in Distinct(s) <==> x in s
    ensures s != [] ==> Distinct(s) != [] && Distinct(s)[|Distinct(s)| - 1] == s[|s| - 1]
  {
    if |s| > 1 {
      var n := |s| - 1;
      DistinctIsIncreasing(s[..n]);
      assert s == s[..n] + [s[n]];
    }
  }

  /** The ranges are in order and never touch: between one and the next a number is missing. */
  ghost predicate Maximal(rs: seq<Range>) {
    && (forall k | 0 <= k < |rs| :: rs[k].lo <= rs[k].hi)
    && (forall k | 0 <= k < |rs| - 1 :: rs[k].hi + 1 < rs[k + 1].lo)
  }

  lemma ExtendIsMaximal(rs: seq<Range>, previous: uint, x: uint)
    requires rs != [] && Maximal(rs) && rs[|rs| - 1].hi == previous <= x
    ensures var longer := Extend(rs, previous, x); Maximal(longer) && longer[|longer| - 1].hi == x
  {
    var n := |rs| - 1;
    var longer := Extend(rs, previous, x);
    assert forall k | 0 <= k < n :: longer[k] == rs[k];
    assert forall k | 0 <= k < n :: rs[k].hi + 1 < rs[k + 1].lo;
  }

  lemma {:induction false} ScanIsMaximal(s: seq<uint>, n: nat)
    requires Sorted(s) && 1 <= n <= |s|
    ensures Maximal(Scan(s, n)) && Scan(s, n)[|Scan(s, n)| - 1].hi == s[n - 1]
  {
    if n > 1 {
      ScanIsMaximal(s, n - 1);
      ExtendIsMaximal(Scan(s, n - 1), s[n - 2], s[n - 1]);
    }
  }

  lemma SingleInterval(x: uint)
    ensures Interval(x, x) == [x]
  {
    assert Interval(x, x - 1) == [];
  }

  lemma {:induction false} ExtendExpands(rs: seq<Range>, previous: uint, x: uint)
    requires rs != [] && rs[|rs| - 1].lo <= rs[|rs| - 1].hi
    ensures x == previous ==> Expand(Extend(rs, previous, x)) == Expand(rs)
    ensures x != previous ==> Expand(Extend(rs, previous, x)) == Expand(rs) + [x]
  {
    var last := rs[|rs| - 1];
    var longer := Extend(rs, previous, x);
    if x == previous {
      assert longer == rs;
    } else if x == last.hi + 1 {
      assert longer == rs[..|rs| - 1] + [Range(last.lo, x)];
      ExpandGrown(rs[..|rs| - 1], last, x);
      assert rs == rs[..|rs| - 1] + [last];
    } else {
      assert longer == rs + [Range(x, x)];
      SingleInterval(x);
      ExpandSnoc(rs, Range(x, x));
    }
  }

  lemma IntervalGrows(lo: uint, x: uint)
    requires lo < x
    ensures Interval(lo, x) == Interval(lo, x - 1) + [x]
  {
  }

  lemma ExpandGrown(closed: seq<Range>, last: Range, x: uint)
    requires last.lo <= last.hi && x == last.hi + 1
    ensures Expand(closed + [Range(last.lo, x)]) == Expand(closed + [last]) + [x]
  {
    ExpandSnoc(closed, Range(last.lo, x));
    ExpandSnoc(closed, last);
    IntervalGrows(last.lo, x);
    Associative(Expand(closed), Interval(last.lo, last.hi), [x]);
  }

  lemma Associative(a: seq<uint>, b: seq<uint>, c: seq<uint>)
    ensures (a + b) + c == a + (b + c)
  {
  }

  lemma ExpandSnoc(rs: seq<Range>, r: Range)
    ensures Expand(rs + [r]) == Expand(rs) + Interval(r.lo, r.hi)
  {
    assert (rs + [r])[..|rs|] == rs;
  }

  lemma DistinctSnoc(s: seq<uint>, n: nat)
    requires 2 <= n <= |s|
    ensures Distinct(s[..n]) == Distinct(s[..n - 1]) + if s[n - 1] == s[n - 2] then [] else [s[n - 1]]
  {
    assert s[..n][..n - 1] == s[..n - 1];
  }

  lemma FirstExpands(s: seq<uint>)
    requires s != []
    ensures Expand(Scan(s, 1)) == Distinct(s[..1])
  {
    var r := Range(s[0], s[0]);
    SingleInterval(s[0]);
    ExpandSnoc([], r);
    assert [] + [r] == Scan(s, 1);
    assert Expand([]) + [s[0]] == [s[0]] == s[..1];
  }

  lemma {:induction false} ScanExpands(s: seq<uint>, n: nat)
    requires Sorted(s) && 1 <= n <= |s|
    ensures Expand(Scan(s, n)) == Distinct(s[..n])
  {
    if n == 1 {
      FirstExpands(s);
    } else {
      ScanExpands(s, n - 1);
      ScanIsMaximal(s, n - 1);
      ScanStep(Scan(s, n - 1), s, n);
    }
  }

  lemma ScanStep(rs: seq<Range>, s: seq<uint>, n: nat)
    requires 2 <= n <= |s| && rs != [] && Maximal(rs)
    requires Expand(rs) == Distinct(s[..n - 1])
    ensures Expand(Extend(rs, s[n - 2], s[n - 1])) == Distinct(s[..n])
  {
    ExtendExpands(rs, s[n - 2], s[n - 1]);
    DistinctSnoc(s, n);
    if s[n - 1] == s[n - 2] {
      assert Distinct(s[..n - 1]) + [] == Distinct(s[..n - 1]);
    }
  }

  lemma {:induction false} ScanFits(s: seq<uint>, n: nat)
    requires 1 <= n <= |s| && forall x | x in s :: FitsInt(x)
    ensures forall r | r in Scan(s, n) :: FitsInt(r.hi)
  {
    assert s[n - 1] in s;
    if n > 1 {
      ScanFits(s, n - 1);
      var rs := Scan(s, n - 1);
      assert forall r | r in rs[..|rs| - 1] :: r in rs;
    }
  }

  /** The range is printed with the largest `int` as its upper bound. */
  predicate Endless(r: Range) { r.lo < r.hi && r.hi == MAX_INT }

  lemma RangeTextDecodes(r: Range)
    requires r.lo <= r.hi && FitsInt(r.hi)
    ensures DecodePart(RangeText(r)) == if Endless(r) then None else Some(Interval(r.lo, r.hi))
    ensures ',' !in RangeText(r)
  {
    AtoiItoa(r.lo);
    AtoiItoa(r.hi);
    DecimalHasOnlyDigits(r.lo, '-');
    DecimalHasOnlyDigits(r.hi, '-');
    DecimalHasOnlyDigits(r.lo, ',');
    DecimalHasOnlyDigits(r.hi, ',');
    if r.lo == r.hi {
      SingleInterval(r.lo);
    } else {
      SplitFirst(UintText(r.lo), UintText(r.hi), '-');
      SplitPlain(UintText(r.hi), '-');
      assert '-' in RangeText(r);
    }
  }

  lemma {:induction false} RangeTextsDecode(rs: seq<Range>)
    requires forall r | r in rs :: r.lo <= r.hi && FitsInt(r.hi)
    ensures DecodeParts(RangeTexts(rs)) == if exists r :: r in rs && Endless(r) then None else Some(Expand(rs))
    ensures forall t | t in RangeTexts(rs) :: ',' !in t
  {
    if rs != [] {
      var n := |rs| - 1;
      RangeTextsDecode(rs[..n]);
      assert rs[n] in rs && rs == rs[..n] + [rs[n]];
      RangeTextDecodes(rs[n]);
      var texts := RangeTexts(rs);
      assert texts[..n] == RangeTexts(rs[..n]);
      assert DecodedParts(texts)[..n] == DecodedParts(texts[..n]);
      OneMorePart(DecodedParts(texts), n);
      assert DecodedParts(texts)[..n + 1] == DecodedParts(texts);
    }
  }

  lemma {:induction false} IntervalMembers(lo: uint, hi: int)
    requires hi <= MAX_INT
    ensures forall x: uint :: x in Interval(lo, hi) <==> lo <= x <= hi
    decreases hi - lo + 1
  {
    if lo <= hi {
      IntervalMembers(lo, hi - 1);
    }
  }

  lemma {:induction false} ExpandMembers(rs: seq<Range>, x: uint)
    requires forall r | r in rs :: FitsInt(r.hi)
    ensures x in Expand(rs) <==> exists r :: r in rs && r.lo <= x <= r.hi
  {
    if rs != [] {
      var n := |rs| - 1;
      ExpandMembers(rs[..n], x);
      assert rs[n] in rs && rs == rs[..n] + [rs[n]];
      IntervalMembers(rs[n].lo, rs[n].hi);
    }
  }

  /** Both of the two largest values of an `int`. */
  predicate HasTwoLargest(s: seq<uint>) { MAX_INT - 1 in s && MAX_INT in s }

  lemma EndlessExactly(rs: seq<Range>)
    requires Maximal(rs) && forall r | r in rs :: FitsInt(r.hi)
    ensures (exists r :: r in rs && Endless(r)) <==> HasTwoLargest(Expand(rs))
  {
    ExpandMembers(rs, MAX_INT - 1);
    ExpandMembers(rs, MAX_INT);
    if HasTwoLargest(Expand(rs)) {
      var i :| 0 <= i < |rs| && rs[i].lo <= MAX_INT - 1 <= rs[i].hi;
      var j :| 0 <= j < |rs| && rs[j].lo <= MAX_INT <= rs[j].hi;
      assert FitsInt(rs[i].hi) && FitsInt(rs[j].hi) by {
        assert rs[i] in rs && rs[j] in rs;
      }
      if i < j {
        Apart(rs, i, j);
      } else if j < i {
        Apart(rs, j, i);
      }
      assert rs[i] in rs && Endless(rs[i]);
    }
  }

  lemma {:induction false} Apart(rs: seq<Range>, i: nat, j: nat)
    requires Maximal(rs) && i < j < |rs|
    ensures rs[i].hi + 1 < rs[j].lo
  {
    if i + 1 < j {
      Apart(rs, i, j - 1);
      assert rs[j - 1].lo <= rs[j - 1].hi && rs[j - 1].hi + 1 < rs[j - 1 + 1].lo;
    } else {
      assert rs[i].hi + 1 < rs[i + 1].lo;
    }
  }

  /** Decoding what was encoded ends exactly when the list does not hold both of the two largest
      values of an `int`. It then gives the same CPUs, each once, in increasing order. The ranges of
      the text are maximal in any case. */
  lemma AffinityRoundTrip(affinity: seq<uint>)
    requires affinity != [] && forall x | x in affinity :: FitsInt(x)
    ensures Sort(affinity) != []
    ensures var ranges := Scan(Sort(affinity), |Sort(affinity)|);
            var decoded := Decode(Encoded(ranges));
            && Maximal(ranges)
            && (decoded.Some? <==> !HasTwoLargest(affinity))
            && (decoded.Some? ==> Increasing(decoded.value) && forall x :: x in decoded.value <==> x in affinity)
  {
    SortSorts(affinity);
    var s := Sort(affinity);
    assert affinity[0] in s;
    var rs := Scan(s, |s|);
    ScanIsMaximal(s, |s|);
    ScanExpands(s, |s|);
    assert s[..|s|] == s;
    ScanFits(s, |s|);
    assert forall r | r in rs :: r.lo <= r.hi;
    RangeTextsDecode(rs);
    SplitJoin(RangeTexts(rs), ',');
    DistinctIsIncreasing(s);
    EndlessExactly(rs);
  }

  /** The two largest values are printed as one range that is never decoded to its end. */
  lemma TwoLargestNeverEnd(list: seq<uint>)
    requires |list| == 2 && list[0] == MAX_INT - 1 && list[1] == MAX_INT
    ensures Sort(list) == list && Scan(list, 2) == [Range(list[0], list[1])]
    ensures Decode(Encoded(Scan(list, 2))).None? && !Ends(list[0], list[1])
  {
    var last := list[1..];
    assert last[1..] == [] && Sort(last) == [list[1]];
    assert Sort(list) == list;
    assert Scan(list, 1) == [Range(list[0], list[0])];
    AffinityRoundTrip(list);
    EndsExactly(list[0], list[1]);
  }
}

/** The snapshots of a guest as a forest: `FormatSnapshotsList` and `FormatSnapshotsTree`
    (proxmox/snapshot.go). */
module Snapshots {
  import opened Text

  /** One entry of the server's list. */
  datatype Raw = Raw(name: Option<string>, parent: Option<string>, description: Option<string>, snapTime: Option<uint>,
                     vmState: Option<bool>)

  class Snapshot {
    var name: string
    var snapTime: uint
    var description: string
    var vmState: bool
    var children: seq<Snapshot>
    var parent: string

    constructor ()
      ensures name == "" && snapTime == 0 && description == "" && !vmState && children == [] && parent == ""
    {
      name, snapTime, description, vmState, children, parent := "", 0, "", false, [], "";
    }
  }

  function OrEmpty(s: Option<string>): string { if s.Some? then s.value else "" }

  function NameOf(raw: seq<Raw>, i: nat): string
    requires i < |raw|
  {
    OrEmpty(raw[i].name)
  }

  function ParentOf(raw: seq<Raw>, i: nat): string
    requires i < |raw|
  {
    OrEmpty(raw[i].parent)
  }

  // ---------------------------------------------------------------- the list

  /** The fields that are copied and stay as they are. */
  ghost predicate Copied(e: Raw, s: Snapshot)
    reads s`name, s`description, s`snapTime, s`vmState
  {
    && s.name == OrEmpty(e.name) && s.description == OrEmpty(e.description)
    && s.snapTime == (if e.snapTime.Some? then e.snapTime.value else 0)
    && s.vmState == (e.vmState.Some? && e.vmState.value)
  }

  ghost predicate Listed(raw: seq<Raw>, list: seq<Snapshot>)
    reads (set s | s in list)`name, (set s | s in list)`description, (set s | s in list)`snapTime,
          (set s | s in list)`vmState
  {
    && |list| == |raw|
    && (forall i | 0 <= i < |raw| :: Copied(raw[i], list[i]))
    && Distinct(list)
  }

  ghost predicate Distinct(list: seq<Snapshot>) {
    forall i: nat, j: nat | i < |list| && j < |list| && list[i] == list[j] :: i == j
  }

  method FormatSnapshotsList(raw: seq<Raw>) returns (list: seq<Snapshot>)
    ensures Listed(raw, list)
    ensures forall i | 0 <= i < |list| :: fresh(list[i]) && list[i].parent == ParentOf(raw, i) && list[i].children == []
  {
    list := [];
    for n := 0 to |raw|
      invariant |list| == n && forall i | 0 <= i < n :: fresh(list[i])
      invariant forall i | 0 <= i < n ::
                Copied(raw[i], list[i]) && list[i].parent == ParentOf(raw, i) && list[i].children == []
      invariant Distinct(list)
    {
      var snapshot := FormatSnapshot(raw[n]);
      list := list + [snapshot];
    }
  }

  method FormatSnapshot(e: Raw) returns (s: Snapshot)
    ensures fresh(s) && Copied(e, s) && s.parent == OrEmpty(e.parent) && s.children == []
  {
    s := new Snapshot();
    if e.description.Some? {
      s.description := e.description.value;
    }
    if e.name.Some? {
      s.name := e.name.value;
    }
    if e.parent.Some? {
      s.parent := e.parent.value;
    }
    if e.snapTime.Some? {
      s.snapTime := e.snapTime.value;
    }
    if e.vmState.Some? {
      s.vmState := e.vmState.value;
    }
  }

  // ---------------------------------------------------------------- the tree

  /** The entry another one is attached to: the first with the name of its parent. */
  function Owner(raw: seq<Raw>, j: nat): (owner: Option<nat>)
    requires j < |raw|
    ensures owner.Some? ==> owner.value < |raw|
  {
    FirstNamed(raw, ParentOf(raw, j), 0)
  }

  function FirstNamed(raw: seq<Raw>, name: string, from: nat): (first: Option<nat>)
    requires from <= |raw|
    ensures first.Some? ==> from <= first.value < |raw|
    decreases |raw| - from
  {
    if from == |raw| then None
    else if NameOf(raw, from) == name then Some(from)
    else FirstNamed(raw, name, from + 1)
  }

  lemma {:induction false} FirstNamedIs(raw: seq<Raw>, name: string, from: nat)
    requires from <= |raw|
    ensures var first := FirstNamed(raw, name, from);
            && (first.Some? ==> NameOf(raw, first.value) == name && forall i: nat | from <= i < first.value ::
                NameOf(raw, i) != name)
            && (first.None? ==> forall i: nat | from <= i < |raw| :: NameOf(raw, i) != name)
    decreases |raw| - from
  {
    if from < |raw| && NameOf(raw, from) != name {
      FirstNamedIs(raw, name, from + 1);
    }
  }

  /** The owner is the only entry with the parent's name that no other one precedes. */
  lemma OwnerIs(raw: seq<Raw>, j: nat, i: nat)
    requires j < |raw| && i < |raw|
    ensures Owner(raw, j) == Some(i) <==>
            NameOf(raw, i) == ParentOf(raw, j) && forall m: nat | m < i :: NameOf(raw, m) != ParentOf(raw, j)
  {
    FirstNamedIs(raw, ParentOf(raw, j), 0);
  }

  /** The entries among the first `n` that are attached to entry `i`, in the order of the list. */
  function Kids(raw: seq<Raw>, i: nat, n: nat): (kids: seq<nat>)
    requires n <= |raw|
    ensures forall a | 0 <= a < |kids| :: kids[a] < n
  {
    if n == 0 then []
    else
      var before := Kids(raw, i, n - 1);
      if Owner(raw, n - 1) == Some(i) then before + [n - 1] else before
  }

  lemma {:induction false} KidsAre(raw: seq<Raw>, i: nat, n: nat)
    requires n <= |raw|
    ensures forall j: nat :: j in Kids(raw, i, n) <==> j < n && Owner(raw, j) == Some(i)
    ensures forall a, b | 0 <= a < b < |Kids(raw, i, n)| :: Kids(raw, i, n)[a] < Kids(raw, i, n)[b]
  {
    if n > 0 {
      KidsAre(raw, i, n - 1);
    }
  }

  /** The entries among the first `n` without a parent. */
  function Roots(raw: seq<Raw>, n: nat): (roots: seq<nat>)
    requires n <= |raw|
    ensures forall a | 0 <= a < |roots| :: roots[a] < n
  {
    if n == 0 then []
    else
      var before := Roots(raw, n - 1);
      if ParentOf(raw, n - 1) == "" then before + [n - 1] else before
  }

  lemma {:induction false} RootsAre(raw: seq<Raw>, n: nat)
    requires n <= |raw|
    ensures forall j: nat :: j in Roots(raw, n) <==> j < n && ParentOf(raw, j) == ""
    ensures forall a, b | 0 <= a < b < |Roots(raw, n)| :: Roots(raw, n)[a] < Roots(raw, n)[b]
  {
    if n > 0 {
      RootsAre(raw, n - 1);
    }
  }

  function Select<T>(list: seq<T>, indices: seq<nat>): (selected: seq<T>)
    requires forall m | 0 <= m < |indices| :: indices[m] < |list|
  {
    seq(|indices|, m requires 0 <= m < |indices| => list[indices[m]])
  }

  lemma SelectSnoc<T>(list: seq<T>, indices: seq<nat>, i: nat)
    requires (forall m | 0 <= m < |indices| :: indices[m] < |list|) && i < |list|
    ensures Select(list, indices + [i]) == Select(list, indices) + [list[i]]
  {
  }

  /** The heap that is built: every snapshot has the snapshots attached to it as children, in the
      order of the list, no snapshot names its parent any more, and the tree holds the roots. */
  ghost predicate Built(raw: seq<Raw>, list: seq<Snapshot>, tree: seq<Snapshot>)
    reads set s | s in list
  {
    && Listed(raw, list)
    && (forall i: nat | i < |list| :: list[i].children == Select(list, Kids(raw, i, |raw|)) && list[i].parent == "")
    && tree == Select(list, Roots(raw, |raw|))
  }

  method FormatSnapshotsTree(raw: seq<Raw>) returns (tree: seq<Snapshot>, ghost list: seq<Snapshot>)
    ensures Built(raw, list, tree)
    ensures forall s | s in list :: fresh(s)
  {
    var all := FormatSnapshotsList(raw);
    list := all;
    AttachAll(raw, all);
    tree := CollectRoots(raw, all);
  }

  /** The outer of the two nested loops. */
  method AttachAll(raw: seq<Raw>, list: seq<Snapshot>)
    requires Growing(raw, list, 0)
    modifies (set s | s in list)`children
    ensures Growing(raw, list, |raw|)
  {
    for n := 0 to |raw|
      invariant Growing(raw, list, n)
    {
      AttachNext(raw, list, n);
    }
  }

  /** The first `n` entries are attached. */
  ghost predicate Growing(raw: seq<Raw>, list: seq<Snapshot>, n: nat)
    requires n <= |raw|
    reads set s | s in list
  {
    && Listed(raw, list)
    && (forall i: nat | i < |list| :: list[i].parent == ParentOf(raw, i))
    && (forall i: nat | i < |list| :: list[i].children == Select(list, Kids(raw, i, n)))
  }

  method AttachNext(raw: seq<Raw>, list: seq<Snapshot>, n: nat)
    requires n < |raw| && Growing(raw, list, n)
    modifies (set s | s in list)`children
    ensures Growing(raw, list, n + 1)
  {
    Attach(raw, list, n);
    OneMoreKid(raw, list, n);
  }

  lemma OneMoreKid(raw: seq<Raw>, list: seq<Snapshot>, n: nat)
    requires |list| == |raw| && n < |raw|
    ensures forall i: nat | i < |list| ::
              Select(list, Kids(raw, i, n + 1)) ==
              if Owner(raw, n) == Some(i) then Select(list, Kids(raw, i, n)) + [list[n]]
                 else Select(list, Kids(raw, i, n))
  {
    forall i: nat | i < |list|
      ensures Select(list, Kids(raw, i, n + 1)) ==
              if Owner(raw, n) == Some(i) then Select(list, Kids(raw, i, n)) + [list[n]]
                 else Select(list, Kids(raw, i, n))
    {
      SelectSnoc(list, Kids(raw, i, n), n);
    }
  }

  /** The inner loop: appends an entry to the children of the first entry named as its parent. */
  method Attach(raw: seq<Raw>, list: seq<Snapshot>, n: nat)
    requires Listed(raw, list) && n < |list| && list[n].parent == ParentOf(raw, n)
    modifies (set s | s in list)`children
    ensures forall i: nat | i < |list| ::
              list[i].children == if Owner(raw, n) == Some(i) then old(list[i].children) + [list[n]]
              else old(list[i].children)
  {
    var e := list[n];
    for m := 0 to |list|
      invariant forall i: nat | i < |list| :: list[i].children == old(list[i].children)
      invariant forall i: nat | i < m :: NameOf(raw, i) != ParentOf(raw, n)
    {
      var ee := list[m];
      assert ee.name == NameOf(raw, m);
      if e.parent == ee.name {
        ee.children := ee.children + [e];
        OwnerIs(raw, n, m);
        return;
      }
    }
    FirstNamedIs(raw, ParentOf(raw, n), 0);
  }

  /** The last loop: collects the entries without a parent and clears every parent. */
  method CollectRoots(raw: seq<Raw>, list: seq<Snapshot>) returns (tree: seq<Snapshot>)
    requires |list| == |raw| && Distinct(list)
    requires forall i: nat | i < |list| :: list[i].parent == ParentOf(raw, i)
    modifies (set s | s in list)`parent
    ensures forall i: nat | i < |list| :: list[i].parent == ""
    ensures tree == Select(list, Roots(raw, |raw|))
  {
    tree := [];
    for n := 0 to |list|
      invariant forall i: nat | i < |list| :: list[i].parent == (if i < n then "" else ParentOf(raw, i))
      invariant tree == Select(list, Roots(raw, n))
    {
      var e := list[n];
      if e.parent == "" {
        SelectSnoc(list, Roots(raw, n), n);
        tree := tree + [e];
      }
      e.parent := "";
    }
  }

  /** With distinct names the children of a snapshot are exactly the snapshots that name it. */
  lemma ChildrenNameTheirParent(raw: seq<Raw>, i: nat, j: nat)
    requires i < |raw| && j < |raw| && forall a: nat, b: nat | a < b < |raw| :: NameOf(raw, a) != NameOf(raw, b)
    ensures j in Kids(raw, i, |raw|) <==> NameOf(raw, i) == ParentOf(raw, j)
  {
    KidsAre(raw, i, |raw|);
    OwnerIs(raw, j, i);
  }

  // ---------------------------------------------------------------- chains of parents

  /** The snapshot `k` steps up from `x`. */
  function Climb(raw: seq<Raw>, x: nat, k: nat): (y: Option<nat>)
    requires x < |raw|
    ensures y.Some? ==> y.value < |raw|
  {
    if k == 0 then Some(x)
    else match Climb(raw, x, k - 1)
      case None => None
      case Some(y) => Owner(raw, y)
  }

  /** The chain of parents of `x` passes one of `js` after `k` steps. */
  predicate Passes(raw: seq<Raw>, x: nat, js: seq<nat>, k: nat)
    requires x < |raw|
  {
    Climb(raw, x, k).Some? && Climb(raw, x, k).value in js
  }

  /** The chain of parents ends at a snapshot without a parent. */
  ghost predicate Rooted(raw: seq<Raw>, x: nat)
    requires x < |raw|
  {
    exists k: nat :: Passes(raw, x, Roots(raw, |raw|), k)
  }

  predicate NoEmptyName(raw: seq<Raw>) { forall i: nat | i < |raw| :: NameOf(raw, i) != "" }

  lemma {:induction false} ClimbOn(raw: seq<Raw>, x: nat, a: nat, d: nat)
    requires x < |raw| && Climb(raw, x, a).Some?
    ensures Climb(raw, x, a + d) == Climb(raw, Climb(raw, x, a).value, d)
  {
    if d > 0 {
      ClimbOn(raw, x, a, d - 1);
    }
  }

  lemma {:induction false} ClimbedBefore(raw: seq<Raw>, x: nat, k: nat, m: nat)
    requires x < |raw| && k <= m && Climb(raw, x, m).Some?
    ensures Climb(raw, x, k).Some?
  {
    if k < m {
      ClimbedBefore(raw, x, k, m - 1);
    }
  }

  /** Nothing is above a root. */
  lemma RootEnds(raw: seq<Raw>, x: nat, k: nat, m: nat)
    requires NoEmptyName(raw) && x < |raw| && Passes(raw, x, Roots(raw, |raw|), k) && k < m
    ensures Climb(raw, x, m).None?
  {
    var y := Climb(raw, x, k).value;
    RootsAre(raw, |raw|);
    FirstNamedIs(raw, ParentOf(raw, y), 0);
    assert Climb(raw, x, k + 1).None?;
    if Climb(raw, x, m).Some? {
      ClimbedBefore(raw, x, k + 1, m);
    }
  }

  // ---------------------------------------------------------------- preorder

  /** The forest in preorder, down to a depth. */
  function Preorder(raw: seq<Raw>, i: nat, depth: nat): (walk: seq<nat>)
    requires i < |raw|
    ensures forall m | 0 <= m < |walk| :: walk[m] < |raw|
    decreases depth, 0
  {
    if depth == 0 then [] else [i] + Preorders(raw, Kids(raw, i, |raw|), depth - 1)
  }

  function Preorders(raw: seq<Raw>, js: seq<nat>, depth: nat): (walk: seq<nat>)
    requires forall m | 0 <= m < |js| :: js[m] < |raw|
    ensures forall m | 0 <= m < |walk| :: walk[m] < |raw|
    decreases depth, |js|
  {
    if js == [] then []
    else
      var n := |js| - 1;
      Preorders(raw, js[..n], depth) + Preorder(raw, js[n], depth)
  }

  /** How often the first `depth` steps of a chain of parents pass one of `js`. */
  function Hits(raw: seq<Raw>, x: nat, js: seq<nat>, depth: nat): nat
    requires x < |raw|
  {
    if depth == 0 then 0 else Hits(raw, x, js, depth - 1) + if Passes(raw, x, js, depth - 1) then 1 else 0
  }

  lemma {:induction false} HitsOneMore(raw: seq<Raw>, x: nat, js: seq<nat>, j: nat, depth: nat)
    requires x < |raw| && j !in js
    ensures Hits(raw, x, js + [j], depth) == Hits(raw, x, js, depth) + Hits(raw, x, [j], depth)
  {
    if depth > 0 {
      HitsOneMore(raw, x, js, j, depth - 1);
    }
  }

  /** Passing a child of `i` is passing `i` one step later. */
  lemma {:induction false} HitsShift(raw: seq<Raw>, x: nat, i: nat, depth: nat)
    requires x < |raw| && i < |raw|
    ensures Hits(raw, x, Kids(raw, i, |raw|), depth) + (if x == i then 1 else 0) == Hits(raw, x, [i], depth + 1)
  {
    if depth > 0 {
      HitsShift(raw, x, i, depth - 1);
      KidsAre(raw, i, |raw|);
      assert Passes(raw, x, Kids(raw, i, |raw|), depth - 1) <==> Passes(raw, x, [i], depth);
    } else {
      assert Passes(raw, x, [i], 0) <==> x == i;
      assert Hits(raw, x, [i], 0) == 0;
    }
  }

  /** A snapshot occurs below `i` as often as its chain of parents passes `i`. */
  lemma {:induction false} PreorderCounts(raw: seq<Raw>, i: nat, depth: nat, x: nat)
    requires i < |raw| && x < |raw|
    ensures multiset(Preorder(raw, i, depth))[x] == Hits(raw, x, [i], depth)
    decreases depth, 0
  {
    if depth > 0 {
      var kids := Kids(raw, i, |raw|);
      KidsAre(raw, i, |raw|);
      PreordersCount(raw, kids, depth - 1, x);
      StartsWith(raw, i, depth);
      OneMoreLevel(raw, i, depth, x, Preorder(raw, i, depth), Preorders(raw, kids, depth - 1));
    } else {
      assert Hits(raw, x, [i], 0) == 0;
    }
  }

  lemma StartsWith(raw: seq<Raw>, i: nat, depth: nat)
    requires i < |raw| && depth > 0
    ensures Preorder(raw, i, depth) == [i] + Preorders(raw, Kids(raw, i, |raw|), depth - 1)
  {
  }

  lemma OneMoreLevel(raw: seq<Raw>, i: nat, depth: nat, x: nat, whole: seq<nat>, below: seq<nat>)
    requires i < |raw| && x < |raw| && depth > 0 && whole == [i] + below
    requires multiset(below)[x] == Hits(raw, x, Kids(raw, i, |raw|), depth - 1)
    ensures multiset(whole)[x] == Hits(raw, x, [i], depth)
  {
    CountInFront(i, below, x);
    HitsShift(raw, x, i, depth - 1);
  }

  lemma CountInFront(i: nat, rest: seq<nat>, x: nat)
    ensures multiset([i] + rest)[x] == (if x == i then 1 else 0) + multiset(rest)[x]
  {
  }

  lemma {:induction false} PreordersCount(raw: seq<Raw>, js: seq<nat>, depth: nat, x: nat)
    requires (forall m | 0 <= m < |js| :: js[m] < |raw|) && x < |raw|
    requires forall a, b | 0 <= a < b < |js| :: js[a] < js[b]
    ensures multiset(Preorders(raw, js, depth))[x] == Hits(raw, x, js, depth)
    decreases depth, |js|
  {
    if js == [] {
      NoHits(raw, x, depth);
    } else {
      var n := |js| - 1;
      PreordersCount(raw, js[..n], depth, x);
      PreorderCounts(raw, js[n], depth, x);
      HitsOneMore(raw, x, js[..n], js[n], depth);
      assert js == js[..n] + [js[n]];
    }
  }

  lemma {:induction false} NoHits(raw: seq<Raw>, x: nat, depth: nat)
    requires x < |raw|
    ensures Hits(raw, x, [], depth) == 0
  {
    if depth > 0 {
      NoHits(raw, x, depth - 1);
    }
  }

  // ---------------------------------------------------------------- the forest

  /** The forest down to the length of the list. `ForestIsWhole` says that nothing is below it. */
  function Forest(raw: seq<Raw>): seq<nat> { Preorders(raw, Roots(raw, |raw|), |raw|) }

  lemma {:induction false} RootIsPassedOnce(raw: seq<Raw>, x: nat, depth: nat)
    requires NoEmptyName(raw) && x < |raw|
    ensures var roots := Roots(raw, |raw|);
            Hits(raw, x, roots, depth) == if exists k: nat :: k < depth && Passes(raw, x, roots, k) then 1 else 0
  {
    if depth > 0 {
      var roots := Roots(raw, |raw|);
      RootIsPassedOnce(raw, x, depth - 1);
      if Passes(raw, x, roots, depth - 1) {
        if k: nat :| k < depth - 1 && Passes(raw, x, roots, k) {
          RootEnds(raw, x, k, depth - 1);
          assert false;
        }
      } else if k: nat :| k < depth && Passes(raw, x, roots, k) {
        assert k < depth - 1;
      }
    }
  }

  ghost function Climbed(raw: seq<Raw>, x: nat, k: nat): (ys: set<nat>)
    requires x < |raw|
  {
    set j | 0 <= j <= k && Climb(raw, x, j).Some? :: Climb(raw, x, j).value
  }

  ghost function Below(n: nat): (s: set<nat>)
    ensures |s| == n && forall i: nat :: i in s <==> i < n
  {
    if n == 0 then {} else Below(n - 1) + {n - 1}
  }

  ghost predicate NoRepetition(raw: seq<Raw>, x: nat, k: nat)
    requires x < |raw|
  {
    forall a: nat, b: nat | a < b <= k :: Climb(raw, x, a) != Climb(raw, x, b)
  }

  /** A chain without a repetition is shorter than the list. */
  lemma {:induction false} ShortChain(raw: seq<Raw>, x: nat, k: nat)
    requires x < |raw| && Climb(raw, x, k).Some? && NoRepetition(raw, x, k)
    ensures k < |raw|
  {
    ClimbedAll(raw, x, k);
    SubsetIsSmaller(Climbed(raw, x, k), Below(|raw|));
  }

  lemma {:induction false} ClimbedAll(raw: seq<Raw>, x: nat, k: nat)
    requires x < |raw| && Climb(raw, x, k).Some? && NoRepetition(raw, x, k)
    ensures |Climbed(raw, x, k)| == k + 1
  {
    var y := Climb(raw, x, k).value;
    if k == 0 {
      assert Climbed(raw, x, 0) == {y};
    } else {
      ClimbedBefore(raw, x, k - 1, k);
      ClimbedAll(raw, x, k - 1);
      assert Climbed(raw, x, k) == Climbed(raw, x, k - 1) + {y};
      assert y !in Climbed(raw, x, k - 1);
    }
  }

  lemma SubsetIsSmaller(a: set<nat>, b: set<nat>)
    requires a <= b
    ensures |a| <= |b|
  {
    assert a + (b - a) == b;
  }

  /** A chain that ends at a root does so within the list. */
  lemma RootedSoon(raw: seq<Raw>, x: nat, k: nat)
    requires NoEmptyName(raw) && x < |raw| && Passes(raw, x, Roots(raw, |raw|), k)
    ensures k < |raw|
  {
    forall a: nat, b: nat | a < b <= k
      ensures Climb(raw, x, a) != Climb(raw, x, b)
    {
      RootedHasNoRepetition(raw, x, a, b, k);
    }
    ShortChain(raw, x, k);
  }

  lemma RootedHasNoRepetition(raw: seq<Raw>, x: nat, a: nat, b: nat, k: nat)
    requires NoEmptyName(raw) && x < |raw| && Passes(raw, x, Roots(raw, |raw|), k) && a < b <= k
    ensures Climb(raw, x, a) != Climb(raw, x, b)
  {
    if Climb(raw, x, a) == Climb(raw, x, b) {
      ClimbedBefore(raw, x, b, k);
      ClimbOn(raw, x, a, k - b);
      ClimbOn(raw, x, b, k - b);
      RootEnds(raw, x, a + (k - b), k);
    }
  }

  /** From every depth on that reaches the length of the list, the forest is the same: it is finite,
      and nothing is below the snapshots it holds. */
  lemma ForestIsWhole(raw: seq<Raw>, depth: nat)
    requires NoEmptyName(raw) && depth >= |raw|
    ensures Preorders(raw, Roots(raw, |raw|), depth) == Forest(raw)
  {
    RootsAre(raw, |raw|);
    var roots := Roots(raw, |raw|);
    forall j | j in roots
      ensures Passes(raw, j, roots, 0)
    {
      assert Climb(raw, j, 0) == Some(j);
    }
    Stable(raw, roots, 0, depth);
  }

  lemma {:induction false} Stable(raw: seq<Raw>, js: seq<nat>, k: nat, depth: nat)
    requires NoEmptyName(raw) && depth >= |raw| && (forall m | 0 <= m < |js| :: js[m] < |raw|)
    requires forall j | j in js :: j < |raw| && Passes(raw, j, Roots(raw, |raw|), k)
    ensures Preorders(raw, js, depth) == Preorders(raw, js, |raw|)
  {
    if depth > |raw| {
      Stable(raw, js, k, depth - 1);
      DeepEnoughAll(raw, js, k, depth - 1);
    }
  }

  /** Below a snapshot `k` steps from its root nothing is deeper than the rest of the list. */
  lemma {:induction false} DeepEnough(raw: seq<Raw>, i: nat, k: nat, depth: nat)
    requires NoEmptyName(raw) && i < |raw| && Passes(raw, i, Roots(raw, |raw|), k) && k + depth >= |raw|
    ensures Preorder(raw, i, depth + 1) == Preorder(raw, i, depth)
    decreases depth, 0
  {
    RootedSoon(raw, i, k);
    var kids := Kids(raw, i, |raw|);
    KidsAre(raw, i, |raw|);
    forall j | j in kids
      ensures Passes(raw, j, Roots(raw, |raw|), k + 1)
    {
      OneStepUp(raw, j, i, k);
    }
    DeepEnoughAll(raw, kids, k + 1, depth - 1);
  }

  lemma OneStepUp(raw: seq<Raw>, j: nat, i: nat, k: nat)
    requires j < |raw| && i < |raw| && Owner(raw, j) == Some(i) && Passes(raw, i, Roots(raw, |raw|), k)
    ensures Passes(raw, j, Roots(raw, |raw|), k + 1)
  {
    assert Climb(raw, j, 0) == Some(j);
    assert Climb(raw, j, 1) == Some(i);
    ClimbOn(raw, j, 1, k);
  }

  lemma {:induction false} DeepEnoughAll(raw: seq<Raw>, js: seq<nat>, k: nat, depth: nat)
    requires NoEmptyName(raw) && k + depth >= |raw| && forall m | 0 <= m < |js| :: js[m] < |raw|
    requires forall j | j in js :: j < |raw| && Passes(raw, j, Roots(raw, |raw|), k)
    ensures Preorders(raw, js, depth + 1) == Preorders(raw, js, depth)
    decreases depth, |js|
  {
    if js != [] {
      var n := |js| - 1;
      assert js[n] in js;
      RootedSoon(raw, js[n], k);
      DeepEnoughAll(raw, js[..n], k, depth);
      DeepEnough(raw, js[n], k, depth);
    }
  }

  /** The forest holds exactly the snapshots whose chain of parents ends at a root, each once, down
      to every depth that reaches the length of the list. */
  lemma ForestHoldsRooted(raw: seq<Raw>, x: nat, depth: nat)
    requires NoEmptyName(raw) && x < |raw| && depth >= |raw|
    ensures multiset(Preorders(raw, Roots(raw, |raw|), depth))[x] == if Rooted(raw, x) then 1 else 0
  {
    var roots := Roots(raw, |raw|);
    RootsAre(raw, |raw|);
    PreordersCount(raw, roots, depth, x);
    RootIsPassedOnce(raw, x, depth);
    if k: nat :| Passes(raw, x, roots, k) {
      RootedSoon(raw, x, k);
    }
  }

  // ---------------------------------------------------------------- nothing lost

  ghost predicate AllResolve(raw: seq<Raw>) {
    forall j: nat | j < |raw| :: ParentOf(raw, j) == "" || Owner(raw, j).Some?
  }

  ghost predicate Acyclic(raw: seq<Raw>) {
    forall x: nat, k: nat | x < |raw| && 0 < k :: Climb(raw, x, k) != Some(x)
  }

  /** Every snapshot is in the forest exactly when all parents exist and no snapshot is its own
      ancestor. */
  lemma AllRootedExactly(raw: seq<Raw>)
    requires NoEmptyName(raw)
    ensures (forall x: nat | x < |raw| :: Rooted(raw, x)) <==> AllResolve(raw) && Acyclic(raw)
  {
    if AllResolve(raw) && Acyclic(raw) {
      forall x: nat | x < |raw|
        ensures Rooted(raw, x)
      {
        if !Rooted(raw, x) {
          EndlessChain(raw, x, |raw|);
          AcyclicHasNoRepetition(raw, x, |raw|);
          ShortChain(raw, x, |raw|);
        }
      }
    }
    if forall x: nat | x < |raw| :: Rooted(raw, x) {
      forall j: nat | j < |raw|
        ensures ParentOf(raw, j) == "" || Owner(raw, j).Some?
      {
        RootedResolves(raw, j);
      }
      forall x: nat, k: nat | x < |raw| && 0 < k
        ensures Climb(raw, x, k) != Some(x)
      {
        if Climb(raw, x, k) == Some(x) {
          RootedHasNoCycle(raw, x, k);
        }
      }
    }
  }

  lemma {:induction false} EndlessChain(raw: seq<Raw>, x: nat, k: nat)
    requires x < |raw| && AllResolve(raw) && !Rooted(raw, x)
    ensures Climb(raw, x, k).Some?
  {
    if k > 0 {
      EndlessChain(raw, x, k - 1);
      var y := Climb(raw, x, k - 1).value;
      RootsAre(raw, |raw|);
      assert !Passes(raw, x, Roots(raw, |raw|), k - 1);
    }
  }

  lemma AcyclicHasNoRepetition(raw: seq<Raw>, x: nat, k: nat)
    requires x < |raw| && Acyclic(raw) && Climb(raw, x, k).Some?
    ensures NoRepetition(raw, x, k)
  {
    forall a: nat, b: nat | a < b <= k
      ensures Climb(raw, x, a) != Climb(raw, x, b)
    {
      ClimbedBefore(raw, x, a, k);
      ClimbOn(raw, x, a, b - a);
      assert Climb(raw, Climb(raw, x, a).value, b - a) != Some(Climb(raw, x, a).value);
    }
  }

  lemma RootedResolves(raw: seq<Raw>, j: nat)
    requires j < |raw| && Rooted(raw, j)
    ensures ParentOf(raw, j) == "" || Owner(raw, j).Some?
  {
    var k: nat :| Passes(raw, j, Roots(raw, |raw|), k);
    RootsAre(raw, |raw|);
    if k > 0 {
      ClimbedBefore(raw, j, 1, k);
      assert Climb(raw, j, 1) == Owner(raw, j) by {
        assert Climb(raw, j, 0) == Some(j);
      }
    }
  }

  lemma RootedHasNoCycle(raw: seq<Raw>, x: nat, k: nat)
    requires NoEmptyName(raw) && x < |raw| && 0 < k && Climb(raw, x, k) == Some(x)
    ensures !Rooted(raw, x)
  {
    if Rooted(raw, x) {
      var m: nat :| Passes(raw, x, Roots(raw, |raw|), m);
      ClimbOn(raw, x, k, m);
      RootEnds(raw, x, m, k + m);
    }
  }

  /** Without the names being non-empty the claim fails: a snapshot without a name and without a
      parent becomes its own child, and the tree has no end. */
  lemma {:induction false} EmptyNameLoops(raw: seq<Raw>, depth: nat)
    requires |raw| == 1 && NameOf(raw, 0) == "" && ParentOf(raw, 0) == ""
    ensures Roots(raw, |raw|) == [0] && Kids(raw, 0, |raw|) == [0]
    ensures |Preorder(raw, 0, depth)| == depth
  {
    OwnerIs(raw, 0, 0);
    OnlyEntry(raw);
    if depth > 0 {
      EmptyNameLoops(raw, depth - 1);
      OnlyChild(raw, [0], depth - 1);
    }
  }

  lemma OnlyEntry(raw: seq<Raw>)
    requires |raw| == 1 && Owner(raw, 0) == Some(0) && ParentOf(raw, 0) == ""
    ensures Roots(raw, |raw|) == [0] && Kids(raw, 0, |raw|) == [0]
  {
    assert Kids(raw, 0, 0) == [] && Roots(raw, 0) == [];
  }

  lemma OnlyChild(raw: seq<Raw>, js: seq<nat>, depth: nat)
    requires |js| == 1 && js[0] < |raw|
    ensures Preorders(raw, js, depth) == Preorder(raw, js[0], depth)
  {
    assert Preorders(raw, js[..0], depth) == [];
  }

  // ---------------------------------------------------------------- the heap

  /** The snapshots that are reached by following children, down to a depth. */
  ghost function Walk(list: seq<Snapshot>, s: Snapshot, depth: nat): seq<Snapshot>
    reads (set s | s in list)`children
    decreases depth, 0
  {
    if depth == 0 || s !in list then [] else [s] + Walks(list, s.children, depth - 1)
  }

  ghost function Walks(list: seq<Snapshot>, ss: seq<Snapshot>, depth: nat): seq<Snapshot>
    reads (set s | s in list)`children
    decreases depth, |ss|
  {
    if ss == [] then []
    else
      var n := |ss| - 1;
      Walks(list, ss[..n], depth) + Walk(list, ss[n], depth)
  }

  lemma SelectAppend<T>(list: seq<T>, a: seq<nat>, b: seq<nat>)
    requires (forall m | 0 <= m < |a| :: a[m] < |list|) && (forall m | 0 <= m < |b| :: b[m] < |list|)
    ensures Select(list, a + b) == Select(list, a) + Select(list, b)
  {
  }

  lemma {:induction false} WalkIsPreorder(raw: seq<Raw>, list: seq<Snapshot>, tree: seq<Snapshot>, i: nat, depth: nat)
    requires Built(raw, list, tree) && i < |raw|
    ensures Walk(list, list[i], depth) == Select(list, Preorder(raw, i, depth))
    decreases depth, 0
  {
    if depth > 0 {
      var kids := Kids(raw, i, |raw|);
      WalksArePreorders(raw, list, tree, kids, depth - 1);
      SelectAppend(list, [i], Preorders(raw, kids, depth - 1));
      assert Select(list, [i]) == [list[i]];
    }
  }

  lemma {:induction false} WalksArePreorders(raw: seq<Raw>, list: seq<Snapshot>, tree: seq<Snapshot>, js: seq<nat>,
                                             depth: nat)
    requires Built(raw, list, tree) && forall m | 0 <= m < |js| :: js[m] < |raw|
    ensures Walks(list, Select(list, js), depth) == Select(list, Preorders(raw, js, depth))
    decreases depth, |js|
  {
    if js != [] {
      var n := |js| - 1;
      WalksArePreorders(raw, list, tree, js[..n], depth);
      WalkIsPreorder(raw, list, tree, js[n], depth);
      SelectAppend(list, Preorders(raw, js[..n], depth), Preorder(raw, js[n], depth));
      assert Select(list, js)[..n] == Select(list, js[..n]);
    }
  }

  lemma {:induction false} SelectCounts(list: seq<Snapshot>, indices: seq<nat>, i: nat)
    requires Distinct(list) && i < |list| && forall m | 0 <= m < |indices| :: indices[m] < |list|
    ensures multiset(Select(list, indices))[list[i]] == multiset(indices)[i]
  {
    if indices != [] {
      var n := |indices| - 1;
      SelectCounts(list, indices[..n], i);
      SelectSnoc(list, indices[..n], indices[n]);
      assert indices == indices[..n] + [indices[n]];
    }
  }

  /** Following the children from the tree that was built comes to an end, and reaches exactly the
      snapshots whose chain of parents ends at a root, each exactly once. */
  lemma TreeHoldsRooted(raw: seq<Raw>, list: seq<Snapshot>, tree: seq<Snapshot>, i: nat, depth: nat)
    requires Built(raw, list, tree) && NoEmptyName(raw) && i < |raw| && depth >= |raw|
    ensures Walks(list, tree, depth) == Walks(list, tree, |raw|)
    ensures multiset(Walks(list, tree, depth))[list[i]] == if Rooted(raw, i) then 1 else 0
  {
    var roots := Roots(raw, |raw|);
    WalksArePreorders(raw, list, tree, roots, depth);
    WalksArePreorders(raw, list, tree, roots, |raw|);
    ForestIsWhole(raw, depth);
    SelectCounts(list, Preorders(raw, roots, depth), i);
    ForestHoldsRooted(raw, i, depth);
  }
}

/** Laws of the disk planner over every desired and current layout and every iteration order. */
module DiskLaws {
  import opened Text
  import opened Keys
  import opened DiskPath
  import opened DiskOptions
  import opened ApiParams
  import opened DiskPlan
  import opened DiskParams

  // ---------------------------------------------------------------- membership in the lists

  lemma {:induction false} RemovedMember(desired: Storages, current: Storages, vmID: uint, linkedVmId: uint,
                                         order: seq<Key>, k: Key)
    ensures k in RemovedOf(desired, current, vmID, linkedVmId, order) <==>
            k in order && PlanOf(desired, current, k, vmID, linkedVmId).Remove?
  {
    if order != [] {
      var n := |order| - 1;
      RemovedMember(desired, current, vmID, linkedVmId, order[..n], k);
      assert order == order[..n] + [order[n]];
    }
  }

  /** No slot is deleted twice. */
  lemma {:induction false} RemovedOnce(desired: Storages, current: Storages, vmID: uint, linkedVmId: uint,
                                       order: seq<Key>)
    requires Once(order)
    ensures Once(RemovedOf(desired, current, vmID, linkedVmId, order))
  {
    if order != [] {
      var n := |order| - 1;
      RemovedOnce(desired, current, vmID, linkedVmId, order[..n]);
      RemovedMember(desired, current, vmID, linkedVmId, order[..n], order[n]);
    }
  }

  /** A pass collects what the visited slots contribute, each once. */
  lemma {:induction false} CollectMember<T>(order: seq<Key>, f: Key -> Option<T>, id: T -> Key)
    requires forall i, j | 0 <= i < j < |order| :: order[i] != order[j]
    requires forall k | f(k).Some? :: id(f(k).value) == k
    ensures var items := Collect(order, f);
            && (forall m | m in items :: id(m) in order && f(id(m)) == Some(m))
            && (forall i, j | 0 <= i < j < |items| :: id(items[i]) != id(items[j]))
            && (forall k | k in order && f(k).Some? :: f(k).value in items)
  {
    if order != [] {
      var n := |order| - 1;
      CollectMember(order[..n], f, id);
      assert order == order[..n] + [order[n]];
    }
  }

  lemma MovesMember(desired: Storages, current: Storages, order: seq<Key>)
    requires forall i, j | 0 <= i < j < |order| :: order[i] != order[j]
    ensures var items := Moves(desired, current, order);
            && (forall m | m in items ::
                 m.id in order && MoveOf(Get(desired, m.id), Get(current, m.id), m.id) == Some(m))
            && (forall i, j | 0 <= i < j < |items| :: items[i].id != items[j].id)
            && (forall k | k in order && MoveOf(Get(desired, k), Get(current, k), k).Some? ::
                 MoveOf(Get(desired, k), Get(current, k), k).value in items)
  {
    var f, id := MoveAt(desired, current), (m: DiskMove) => m.id;
    CollectMember(order, f, id);
    var items := Collect(order, f);
    forall m | m in items
      ensures m.id in order && MoveOf(Get(desired, m.id), Get(current, m.id), m.id) == Some(m)
    {
      assert id(m) in order && f(id(m)) == Some(m);
    }
    forall i, j | 0 <= i < j < |items|
      ensures items[i].id != items[j].id
    {
      assert id(items[i]) != id(items[j]);
    }
    forall k | k in order && MoveOf(Get(desired, k), Get(current, k), k).Some?
      ensures MoveOf(Get(desired, k), Get(current, k), k).value in items
    {
      assert f(k).Some?;
    }
  }

  lemma ResizesMember(desired: Storages, current: Storages, order: seq<Key>)
    requires forall i, j | 0 <= i < j < |order| :: order[i] != order[j]
    ensures var items := Resizes(desired, current, order);
            && (forall m | m in items ::
                 m.id in order && ResizeOf(Get(desired, m.id), Get(current, m.id), m.id) == Some(m))
            && (forall i, j | 0 <= i < j < |items| :: items[i].id != items[j].id)
            && (forall k | k in order && ResizeOf(Get(desired, k), Get(current, k), k).Some? ::
                 ResizeOf(Get(desired, k), Get(current, k), k).value in items)
  {
    var f, id := ResizeAt(desired, current), (m: DiskResize) => m.id;
    CollectMember(order, f, id);
    var items := Collect(order, f);
    forall m | m in items
      ensures m.id in order && ResizeOf(Get(desired, m.id), Get(current, m.id), m.id) == Some(m)
    {
      assert id(m) in order && f(id(m)) == Some(m);
    }
    forall i, j | 0 <= i < j < |items|
      ensures items[i].id != items[j].id
    {
      assert id(items[i]) != id(items[j]);
    }
    forall k | k in order && ResizeOf(Get(desired, k), Get(current, k), k).Some?
      ensures ResizeOf(Get(desired, k), Get(current, k), k).value in items
    {
      assert f(k).Some?;
    }
  }

  lemma InitialResizesMember(desired: Storages, current: Storages, order: seq<Key>)
    requires forall i, j | 0 <= i < j < |order| :: order[i] != order[j]
    ensures var items := InitialResizes(desired, current, order);
            && (forall m | m in items ::
                 m.id in order && InitialResizeOf(Get(desired, m.id), Get(current, m.id), m.id) == Some(m))
            && (forall i, j | 0 <= i < j < |items| :: items[i].id != items[j].id)
            && (forall k | k in order && InitialResizeOf(Get(desired, k), Get(current, k), k).Some? ::
                 InitialResizeOf(Get(desired, k), Get(current, k), k).value in items)
  {
    var f, id := InitialResizeAt(desired, current), (m: DiskResize) => m.id;
    CollectMember(order, f, id);
    var items := Collect(order, f);
    forall m | m in items
      ensures m.id in order && InitialResizeOf(Get(desired, m.id), Get(current, m.id), m.id) == Some(m)
    {
      assert id(m) in order && f(id(m)) == Some(m);
    }
    forall i, j | 0 <= i < j < |items|
      ensures items[i].id != items[j].id
    {
      assert id(items[i]) != id(items[j]);
    }
    forall k | k in order && InitialResizeOf(Get(desired, k), Get(current, k), k).Some?
      ensures InitialResizeOf(Get(desired, k), Get(current, k), k).value in items
    {
      assert f(k).Some?;
    }
  }

  // ---------------------------------------------------------------- agreement of the passes

  /** The pass that writes parameters creates a disk exactly in the slots whose size the other
      pass looks at; it is resized afterwards exactly when its size is no whole number of GiB. */
  lemma CreationsCoincide(s: Storage, current: Option<Storage>, vmID: uint, linkedVmId: uint, id: Key)
    requires ValidStorage(s)
    ensures Created(Some(s), current) <==>
            PlanSlot(Some(s), current, vmID, linkedVmId).Set? &&
            PlanSlot(Some(s), current, vmID, linkedVmId).value.SetNewDisk?
    ensures InitialResizeOf(Some(s), current, id).Some? <==>
            Created(Some(s), current) && s.disk.value.sizeKiB % GIBIBYTE != 0
  {
  }

  /** No slot is resized both as an existing and as a new disk, and a slot that is moved or
      resized in place is never detached. */
  lemma ResizesAreDisjoint(desired: Storages, current: Storages, order: seq<Key>, order': seq<Key>)
    requires Enumerates(order, desired.Keys) && Enumerates(order', desired.Keys)
    ensures forall a, b | a in Resizes(desired, current, order) && b in InitialResizes(desired, current, order') ::
            a.id != b.id
    ensures forall a, b | a in Moves(desired, current, order) && b in InitialResizes(desired, current, order') ::
            a.id != b.id
  {
    forall a | a in Resizes(desired, current, order)
      ensures Kept(Get(desired, a.id), Get(current, a.id))
    {
      ResizesMember(desired, current, order);
    }
    forall a | a in Moves(desired, current, order)
      ensures Kept(Get(desired, a.id), Get(current, a.id))
    {
      MovesMember(desired, current, order);
    }
    forall b | b in InitialResizes(desired, current, order')
      ensures !Kept(Get(desired, b.id), Get(current, b.id))
    {
      InitialResizesMember(desired, current, order');
    }
  }

  /** A disk of a whole number of GiB is created at exactly its size, and not resized. */
  lemma WholeGibibytesNeedNoResize(s: Storage, current: Option<Storage>, id: Key)
    requires ValidStorage(s) && Created(Some(s), current) && s.disk.value.sizeKiB % GIBIBYTE == 0
    requires FitsInt(s.disk.value.sizeKiB)
    ensures InitialResizeOf(Some(s), current, id).None?
    ensures ParseSize(CreationSize(s.disk.value.sizeKiB) + "G") == s.disk.value.sizeKiB
  {
    var size := s.disk.value.sizeKiB;
    var raw := CreationSize(size) + "G";
    assert raw[..|raw| - 1] == Decimal(size / GIBIBYTE);
    AtoiItoa(size / GIBIBYTE);
    assert size / GIBIBYTE * GIBIBYTE == size;
  }

  // ---------------------------------------------------------------- the patch law

  predicate HasSubtype(s: Storage) {
    s.cdRom.Some? || s.cloudInit.Some? || s.disk.Some? || s.passthrough.Some?
  }

  ghost predicate OneSubtypeEach(s: Storages) {
    forall k | k in s :: HasSubtype(s[k]) && AtMostOneSubtype(s[k])
  }

  /** What an existing slot holds. */
  function HeldValue(c: Storage, vmID: uint, linkedVmId: uint): Value
    requires HasSubtype(c)
  {
    if c.cdRom.Some? then SetCdRom(c.cdRom.value)
    else if c.cloudInit.Some? then SetCloudInit(c.cloudInit.value)
    else if c.disk.Some? then
      SetVolume(PathText(OwnVolume(c.disk.value, vmID, linkedVmId)), ForBus(c.disk.value.options, c.disk.value.bus))
    else SetFile(c.passthrough.value.file, ForBus(c.passthrough.value.options, c.passthrough.value.bus))
  }

  function HeldText(c: Storage, vmID: uint, linkedVmId: uint): string
    requires HasSubtype(c)
  {
    ValueText(HeldValue(c, vmID, linkedVmId))
  }

  ghost function Rendered(c: Storages, vmID: uint, linkedVmId: uint): map<Key, string>
    requires OneSubtypeEach(c)
  {
    map k | k in c :: HeldText(c[k], vmID, linkedVmId)
  }

  /** The slot texts after the deletions and the parameters of a configuration call. */
  ghost function Patch(texts: map<Key, string>, sets: map<Key, Value>, removed: seq<Key>): map<Key, string> {
    (map k | k in texts && k !in removed :: texts[k]) + (map k | k in sets :: ValueText(sets[k]))
  }

  /** After the call every mentioned slot reads as it was asked to, or is absent when no subtype
      was asked for; every other slot is as before; and no slot is both set and deleted. */
  lemma SlotPatchLaw(desired: Storages, current: Storages, vmID: uint, linkedVmId: uint, order: seq<Key>)
    requires OneSubtypeEach(current) && Enumerates(order, desired.Keys)
    ensures var sets := SetsOf(desired, current, vmID, linkedVmId);
            var removed := RemovedOf(desired, current, vmID, linkedVmId, order);
            var before := Rendered(current, vmID, linkedVmId);
            var after := Patch(before, sets, removed);
            && (forall k | k in removed :: k !in sets)
            && (forall k | k in desired ::
                 match Wanted(desired[k], Get(current, k), vmID, linkedVmId)
                 case Some(w) => k in after && after[k] == ValueText(w)
                 case None => k !in after)
            && (forall k | k !in desired :: k in after <==> k in before)
            && (forall k | k !in desired && k in before :: after[k] == before[k])
  {
    var sets, removed := SetsOf(desired, current, vmID, linkedVmId),
        RemovedOf(desired, current, vmID, linkedVmId, order);
    var before := Rendered(current, vmID, linkedVmId);
    var after := Patch(before, sets, removed);
    forall k
      ensures k in removed ==> k !in sets
      ensures k in desired ==>
                match Wanted(desired[k], Get(current, k), vmID, linkedVmId)
                case Some(w) => k in after && after[k] == ValueText(w)
                case None => k !in after
      ensures k !in desired ==> (k in after <==> k in before) && (k in before ==> after[k] == before[k])
    {
      RemovedMember(desired, current, vmID, linkedVmId, order, k);
      if k in desired {
        MentionedSlotIsPatched(desired, current, vmID, linkedVmId, removed, k);
      }
    }
  }

  lemma MentionedSlotIsPatched(desired: Storages, current: Storages, vmID: uint, linkedVmId: uint, removed: seq<Key>,
                               k: Key)
    requires OneSubtypeEach(current) && k in desired
    requires k in removed <==> PlanOf(desired, current, k, vmID, linkedVmId).Remove?
    ensures var before := Rendered(current, vmID, linkedVmId);
            var after := Patch(before, SetsOf(desired, current, vmID, linkedVmId), removed);
            match Wanted(desired[k], Get(current, k), vmID, linkedVmId)
            case Some(w) => k in after && after[k] == ValueText(w)
            case None => k !in after
  {
    if PlanOf(desired, current, k, vmID, linkedVmId).Keep? {
      KeptSlotReadsAsWanted(desired[k], Get(current, k), vmID, linkedVmId);
    }
  }

  lemma KeptSlotReadsAsWanted(s: Storage, current: Option<Storage>, vmID: uint, linkedVmId: uint)
    requires current.Some? ==> HasSubtype(current.value) && AtMostOneSubtype(current.value)
    requires PlanSlot(Some(s), current, vmID, linkedVmId).Keep?
    ensures var w := Wanted(s, current, vmID, linkedVmId);
            if w.Some? then current.Some? && HeldText(current.value, vmID, linkedVmId) == ValueText(w.value)
               else current.None?
  {
    var w := Wanted(s, current, vmID, linkedVmId);
    if w.Some? {
      HeldReads(current, w.value, vmID, linkedVmId);
    }
  }

  /** The text of a slot is the text of the one thing it holds. */
  lemma HeldReads(current: Option<Storage>, w: Value, vmID: uint, linkedVmId: uint)
    requires current.Some? ==> HasSubtype(current.value) && AtMostOneSubtype(current.value)
    requires Held(current, w, vmID, linkedVmId).Some?
    ensures current.Some? && Held(current, w, vmID, linkedVmId).value == HeldValue(current.value, vmID, linkedVmId)
  {
  }

  // ---------------------------------------------------------------- idempotence

  /** Asking a slot to hold what it holds changes nothing exactly when it holds something. */
  lemma SameSlotIsKept(s: Storage, vmID: uint, linkedVmId: uint, id: Key)
    ensures PlanSlot(Some(s), Some(s), vmID, linkedVmId).Keep? <==> HasSubtype(s)
    ensures MoveOf(Some(s), Some(s), id).None? && ResizeOf(Some(s), Some(s), id).None? &&
            InitialResizeOf(Some(s), Some(s), id).None?
  {
    var w := Wanted(s, Some(s), vmID, linkedVmId);
    if w.Some? {
      assert Held(Some(s), w.value, vmID, linkedVmId) == w;
    }
  }

  /** The whole plan is empty when the desired slots are slots of the current layout, exactly
      when none of them is without a subtype. */
  lemma PlanIsIdempotent(desired: Storages, current: Storages, vmID: uint, linkedVmId: uint, order: seq<Key>)
    requires forall k | k in desired :: k in current && current[k] == desired[k]
    requires Enumerates(order, desired.Keys)
    ensures Moves(desired, current, order) == [] && Resizes(desired, current, order) == [] &&
            InitialResizes(desired, current, order) == []
    ensures SetsOf(desired, current, vmID, linkedVmId) == map[] &&
            RemovedOf(desired, current, vmID, linkedVmId, order) == [] <==>
            forall k | k in desired :: HasSubtype(desired[k])
  {
    forall k | k in desired
      ensures PlanOf(desired, current, k, vmID, linkedVmId).Keep? <==> HasSubtype(desired[k])
      ensures MoveOf(Get(desired, k), Get(current, k), k).None?
      ensures ResizeOf(Get(desired, k), Get(current, k), k).None?
      ensures InitialResizeOf(Get(desired, k), Get(current, k), k).None?
    {
      SameSlotIsKept(desired[k], vmID, linkedVmId, k);
    }
    NothingListed(desired, current, order);
    var removed := RemovedOf(desired, current, vmID, linkedVmId, order);
    forall k
      ensures k in removed <==> k in desired && PlanOf(desired, current, k, vmID, linkedVmId).Remove?
    {
      RemovedMember(desired, current, vmID, linkedVmId, order, k);
    }
    var sets := SetsOf(desired, current, vmID, linkedVmId);
    if sets == map[] && removed == [] {
      forall k | k in desired
        ensures HasSubtype(desired[k])
      {
        assert k !in sets && k !in removed;
      }
    }
    if forall k | k in desired :: HasSubtype(desired[k]) {
      NothingRemoved(desired, current, vmID, linkedVmId, order);
    }
  }

  lemma {:induction false} NothingRemoved(desired: Storages, current: Storages, vmID: uint, linkedVmId: uint,
                                          order: seq<Key>)
    requires forall k | k in order :: PlanOf(desired, current, k, vmID, linkedVmId).Keep?
    ensures RemovedOf(desired, current, vmID, linkedVmId, order) == []
  {
    if order != [] {
      NothingRemoved(desired, current, vmID, linkedVmId, order[..|order| - 1]);
    }
  }

  lemma {:induction false} NothingListed(desired: Storages, current: Storages, order: seq<Key>)
    requires forall k | k in order ::
      && MoveOf(Get(desired, k), Get(current, k), k).None? && ResizeOf(Get(desired, k), Get(current, k), k).None?
      && InitialResizeOf(Get(desired, k), Get(current, k), k).None?
    ensures Moves(desired, current, order) == [] && Resizes(desired, current, order) == [] &&
            InitialResizes(desired, current, order) == []
  {
    if order != [] {
      NothingListed(desired, current, order[..|order| - 1]);
    }
  }
}

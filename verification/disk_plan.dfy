/** The disk planner: every slot of the four buses is classified by four independent passes, the
    moves and resizes of existing disks, the parameters and deletions of the configuration call,
    the resizes of new disks, and the removal of a displaced cloud-init disk
    (proxmox/config_qemu_disk.go and the per-bus files). */
module DiskPlan {
  import opened Text
  import opened Keys
  import opened DiskPath
  import opened DiskOptions
  import opened ApiParams

  /** What a slot holds; a valid slot holds at most one of the four. */
  datatype Storage = Storage(
    cdRom: Option<CdRom>, cloudInit: Option<CloudInitDisk>, disk: Option<QemuDisk>, passthrough: Option<QemuDisk>)

  /** The slots of all buses that are mentioned; a missing bus mentions none. */
  type Storages = map<Key, Storage>

  const EMPTY := Storage(None, None, None, None)

  function Get(s: Storages, k: Key): Option<Storage> { if k in s then Some(s[k]) else None }

  predicate IsSlot(k: Key) { k.Drive? && k.slot < SlotCount(k.bus) }

  ghost predicate OnlySlots(s: Storages) { forall k | k in s :: IsSlot(k) }

  // ---------------------------------------------------------------- iteration order

  const BUSES: seq<Bus> := [Ide, Sata, Scsi, VirtIO]

  ghost predicate Enumerates(order: seq<Key>, keys: set<Key>) {
    && (forall k :: k in order <==> k in keys)
    && (forall i, j | 0 <= i < j < |order| :: order[i] != order[j])
  }

  /** One of the orders in which the slots can be visited: bus after bus, and within a bus in
      the unspecified order of a Go map. */
  method SlotOrder(storages: Storages) returns (order: seq<Key>)
    requires OnlySlots(storages)
    ensures Enumerates(order, storages.Keys)
  {
    order := [];
    for b := 0 to |BUSES|
      invariant forall k :: k in order <==> k in storages && k.bus in BUSES[..b]
      invariant forall i, j | 0 <= i < j < |order| :: order[i] != order[j]
    {
      var diskMap := set k | k in storages && k.bus == BUSES[b];
      var todo := diskMap;
      while todo != {}
        invariant todo <= diskMap
        invariant forall k :: k in order <==> k in storages && (k.bus in BUSES[..b] || (k in diskMap && k !in todo))
        invariant forall i, j | 0 <= i < j < |order| :: order[i] != order[j]
      {
        var k :| k in todo;
        assert k !in order by {
          assert BUSES[..b] == [Ide, Sata, Scsi, VirtIO][..b];
          assert k.bus !in BUSES[..b];
        }
        order := order + [k];
        todo := todo - {k};
      }
      assert BUSES[..b + 1] == BUSES[..b] + [BUSES[b]];
    }
    assert BUSES[..|BUSES|] == BUSES;
    forall k | k in storages
      ensures k in order
    {
      EveryBus(k.bus);
    }
  }

  lemma EveryBus(bus: Bus)
    ensures bus in BUSES
  {
    assert BUSES[0] == Ide && BUSES[1] == Sata && BUSES[2] == Scsi && BUSES[3] == VirtIO;
    match bus case Ide => case Sata => case Scsi => case VirtIO =>
  }

  // ---------------------------------------------------------------- validation

  predicate ValidCdRom(c: CdRom) {
    c.iso.Some? ==> c.iso.value.file != "" && c.iso.value.storage != "" && !c.passthrough
  }

  predicate ValidCloudInit(c: CloudInitDisk) { ValidFormat(c.format) && c.storage != "" }

  predicate AtMostOneSubtype(s: Storage) {
    && (s.cdRom.Some? ==> s.cloudInit.None? && s.disk.None? && s.passthrough.None?)
    && (s.cloudInit.Some? ==> s.disk.None? && s.passthrough.None?)
    && (s.disk.Some? ==> s.passthrough.None?)
  }

  predicate ValidStorage(s: Storage) {
    && AtMostOneSubtype(s)
    && (s.cdRom.Some? ==> ValidCdRom(s.cdRom.value))
    && (s.cloudInit.Some? ==> ValidCloudInit(s.cloudInit.value))
    && (s.disk.Some? ==> ValidDisk(s.disk.value))
    && (s.passthrough.Some? ==> ValidDisk(s.passthrough.value))
  }

  ghost predicate AtMostOneCloudInit(s: Storages) {
    forall a, b | a in s && b in s && s[a].cloudInit.Some? && s[b].cloudInit.Some? :: a == b
  }

  ghost predicate Valid(s: Storages) {
    (forall k | k in s :: ValidStorage(s[k])) && AtMostOneCloudInit(s)
  }

  method ValidateStorage(s: Storage) returns (cloudInit: nat, ok: bool)
    ensures ok <==> ValidStorage(s)
    ensures ok ==> cloudInit == if s.cloudInit.Some? then 1 else 0
  {
    cloudInit := 0;
    var subTypeSet := s.cdRom.Some?;
    if s.cloudInit.Some? {
      if subTypeSet { return 0, false; }
      subTypeSet := true;
      cloudInit := 1;
    }
    if s.disk.Some? {
      if subTypeSet { return 0, false; }
      subTypeSet := true;
    }
    if s.passthrough.Some? {
      if subTypeSet { return 0, false; }
    }
    ok := (s.cdRom.Some? ==> ValidCdRom(s.cdRom.value)) &&
          (s.cloudInit.Some? ==> ValidCloudInit(s.cloudInit.value)) &&
          (s.disk.Some? ==> ValidDisk(s.disk.value)) &&
          (s.passthrough.Some? ==> ValidDisk(s.passthrough.value));
  }

  /** Accepts exactly the layouts whose slots are valid and that have at most one cloud-init disk
      over all buses together, whatever the order of the slots. */
  method Validate(storages: Storages) returns (ok: bool)
    requires OnlySlots(storages)
    ensures ok <==> Valid(storages)
  {
    var order := SlotOrder(storages);
    var numberOfCloudInitDevices := 0;
    ghost var found: set<Key> := {};
    for i := 0 to |order|
      invariant forall j | 0 <= j < i :: ValidStorage(storages[order[j]])
      invariant found == set j | 0 <= j < i && storages[order[j]].cloudInit.Some? :: order[j]
      invariant numberOfCloudInitDevices == |found| <= 1
    {
      var e := storages[order[i]];
      var cloudInit, valid := ValidateStorage(e);
      if !valid {
        return false;
      }
      numberOfCloudInitDevices := numberOfCloudInitDevices + cloudInit;
      if cloudInit == 1 {
        assert order[i] !in found;
        found := found + {order[i]};
      }
      if numberOfCloudInitDevices > 1 {
        TwoMembers(found);
        return false;
      }
    }
    assert forall k | k in storages && storages[k].cloudInit.Some? :: k in found by {
      forall k | k in storages && storages[k].cloudInit.Some? ensures k in found {
        assert k in order;
      }
    }
    if found != {} {
      OneMember(found);
    }
    assert forall k | k in storages :: ValidStorage(storages[k]) by {
      forall k | k in storages ensures ValidStorage(storages[k]) {
        assert k in order;
      }
    }
    ok := true;
  }

  lemma TwoMembers(s: set<Key>)
    requires |s| > 1
    ensures exists a, b :: a in s && b in s && a != b
  {
    var a :| a in s;
    assert |s - {a}| > 0;
    var b :| b in s - {a};
  }

  lemma OneMember(s: set<Key>)
    requires |s| == 1
    ensures forall a, b | a in s && b in s :: a == b
  {
    var x :| x in s;
    assert |s - {x}| == 0;
  }

  // ---------------------------------------------------------------- moves and resizes

  datatype DiskMove = DiskMove(format: Option<string>, id: Key, storage: string)

  datatype DiskResize = DiskResize(id: Key, sizeKiB: nat)

  datatype DiskMark = DiskMark(format: string, sizeKiB: nat, storage: string)

  class UpdateChanges {
    var move: seq<DiskMove>
    var resize: seq<DiskResize>

    constructor ()
      ensures move == [] && resize == []
    {
      move, resize := [], [];
    }
  }

  /** `convertDataStructureMark`: only disks can be moved or resized. */
  function MarkOf(s: Option<Storage>): Option<DiskMark> {
    if s.Some? && s.value.disk.Some? then
      Some(DiskMark(s.value.disk.value.format, s.value.disk.value.sizeKiB, s.value.disk.value.storage))
    else None
  }

  /** A disk is kept when there is one already and it does not have to shrink. */
  predicate Kept(desired: Option<Storage>, current: Option<Storage>) {
    MarkOf(desired).Some? && MarkOf(current).Some? && MarkOf(desired).value.sizeKiB >= MarkOf(current).value.sizeKiB
  }

  /** A disk is created when there is none, or one that would have to shrink. */
  predicate Created(desired: Option<Storage>, current: Option<Storage>) {
    MarkOf(desired).Some? && !Kept(desired, current)
  }

  function ResizeOf(desired: Option<Storage>, current: Option<Storage>, id: Key): Option<DiskResize> {
    if Kept(desired, current) && MarkOf(desired).value.sizeKiB > MarkOf(current).value.sizeKiB
    then Some(DiskResize(id, MarkOf(desired).value.sizeKiB)) else None
  }

  function MoveOf(desired: Option<Storage>, current: Option<Storage>, id: Key): Option<DiskMove> {
    if !Kept(desired, current) then None
    else
      var d, c := MarkOf(desired).value, MarkOf(current).value;
      if d.storage == c.storage && d.format == c.format then None
      else Some(DiskMove(if d.format != c.format then Some(d.format) else None, id, d.storage))
  }

  function InitialResizeOf(desired: Option<Storage>, current: Option<Storage>, id: Key): Option<DiskResize> {
    if Created(desired, current) && MarkOf(desired).value.sizeKiB % GIBIBYTE != 0
    then Some(DiskResize(id, MarkOf(desired).value.sizeKiB)) else None
  }

  function Optional<T>(o: Option<T>): seq<T> { match o case Some(v) => [v] case None => [] }

  /** What a pass over the slots collects, in the order of the visit. */
  function Collect<T>(order: seq<Key>, f: Key -> Option<T>): seq<T> {
    if order == [] then [] else Collect(order[..|order| - 1], f) + Optional(f(order[|order| - 1]))
  }

  function ResizeAt(desired: Storages, current: Storages): Key -> Option<DiskResize> {
    k => ResizeOf(Get(desired, k), Get(current, k), k)
  }

  function MoveAt(desired: Storages, current: Storages): Key -> Option<DiskMove> {
    k => MoveOf(Get(desired, k), Get(current, k), k)
  }

  function InitialResizeAt(desired: Storages, current: Storages): Key -> Option<DiskResize> {
    k => InitialResizeOf(Get(desired, k), Get(current, k), k)
  }

  function Resizes(desired: Storages, current: Storages, order: seq<Key>): seq<DiskResize> {
    Collect(order, ResizeAt(desired, current))
  }

  function Moves(desired: Storages, current: Storages, order: seq<Key>): seq<DiskMove> {
    Collect(order, MoveAt(desired, current))
  }

  function InitialResizes(desired: Storages, current: Storages, order: seq<Key>): seq<DiskResize> {
    Collect(order, InitialResizeAt(desired, current))
  }

  method MarkChanges(disk: Option<DiskMark>, currentDisk: Option<DiskMark>, id: Key, changes: UpdateChanges,
                     ghost desired: Option<Storage>, ghost current: Option<Storage>)
    requires disk == MarkOf(desired) && currentDisk == MarkOf(current)
    modifies changes
    ensures changes.resize == old(changes.resize) + Optional(ResizeOf(desired, current, id))
    ensures changes.move == old(changes.move) + Optional(MoveOf(desired, current, id))
  {
    if disk.None? || currentDisk.None? {
      return;
    }
    if disk.value.sizeKiB >= currentDisk.value.sizeKiB {
      if disk.value.sizeKiB > currentDisk.value.sizeKiB {
        changes.resize := changes.resize + [DiskResize(id, disk.value.sizeKiB)];
      }
      if disk.value.storage != currentDisk.value.storage || disk.value.format != currentDisk.value.format {
        var format := None;
        if disk.value.format != currentDisk.value.format {
          format := Some(disk.value.format);
        }
        changes.move := changes.move + [DiskMove(format, id, disk.value.storage)];
      }
    }
  }

  method MarkDiskChanges(storages: Storages, currentStorages: Storages)
      returns (changes: UpdateChanges, ghost order: seq<Key>)
    requires OnlySlots(storages)
    ensures fresh(changes) && Enumerates(order, storages.Keys)
    ensures changes.move == Moves(storages, currentStorages, order)
    ensures changes.resize == Resizes(storages, currentStorages, order)
  {
    changes := new UpdateChanges();
    var slots := SlotOrder(storages);
    order := slots;
    for i := 0 to |slots|
      invariant changes.move == Moves(storages, currentStorages, slots[..i])
      invariant changes.resize == Resizes(storages, currentStorages, slots[..i])
    {
      var desired, current := Get(storages, slots[i]), Get(currentStorages, slots[i]);
      MarkChanges(MarkOf(desired), MarkOf(current), slots[i], changes, desired, current);
      assert slots[..i + 1][..i] == slots[..i];
    }
    assert slots[..|slots|] == slots;
  }

  method SelectSlot(storage: Option<Storage>, current: Option<Storage>, id: Key, soFar: seq<DiskResize>)
    returns (resize: seq<DiskResize>)
    ensures resize == soFar + Optional(InitialResizeOf(storage, current, id))
  {
    resize := soFar;
    if storage.Some? && storage.value.disk.Some? && storage.value.disk.value.sizeKiB % GIBIBYTE != 0 &&
       (current.None? || current.value.disk.None? ||
        storage.value.disk.value.sizeKiB < current.value.disk.value.sizeKiB)
    {
      resize := resize + [DiskResize(id, storage.value.disk.value.sizeKiB)];
    }
  }

  /** New disks whose size is not a whole number of gibibytes. */
  method SelectInitialResize(newStorages: Storages, currentStorages: Storages)
    returns (resize: seq<DiskResize>, ghost order: seq<Key>)
    requires OnlySlots(newStorages)
    ensures Enumerates(order, newStorages.Keys)
    ensures resize == InitialResizes(newStorages, currentStorages, order)
    ensures forall r :: r in resize <==>
            InitialResizeOf(Get(newStorages, r.id), Get(currentStorages, r.id), r.id) == Some(r)
  {
    var slots := SlotOrder(newStorages);
    order := slots;
    resize := [];
    for i := 0 to |slots|
      invariant resize == InitialResizes(newStorages, currentStorages, slots[..i])
      invariant forall r :: r in resize <==>
        r.id in slots[..i] && InitialResizeOf(Get(newStorages, r.id), Get(currentStorages, r.id), r.id) == Some(r)
    {
      assert slots[..i + 1] == slots[..i] + [slots[i]];
      resize := SelectSlot(Get(newStorages, slots[i]), Get(currentStorages, slots[i]), slots[i], resize);
      assert slots[..i + 1][..i] == slots[..i];
    }
    assert slots[..|slots|] == slots;
  }

  // ---------------------------------------------------------------- cloud-init

  ghost predicate HasCloudInit(s: Storages, k: Key) { k in s && s[k].cloudInit.Some? }

  method ListCloudInitDisk(storages: Storages) returns (disk: Option<Key>)
    requires OnlySlots(storages)
    ensures disk.Some? ==> HasCloudInit(storages, disk.value)
    ensures disk.None? ==> forall k :: !HasCloudInit(storages, k)
  {
    var order := SlotOrder(storages);
    for i := 0 to |order|
      invariant forall j | 0 <= j < i :: storages[order[j]].cloudInit.None?
    {
      if storages[order[i]].cloudInit.Some? {
        return Some(order[i]);
      }
    }
    forall k | k in storages ensures !HasCloudInit(storages, k) {
      assert k in order;
    }
    disk := None;
  }

  /** The cloud-init disk to remove before the update: the current one, when a new one is wanted
      in another slot. */
  ghost predicate Displaced(desired: Storages, current: Storages, k: Key) {
    HasCloudInit(current, k) && !HasCloudInit(desired, k) && exists n :: HasCloudInit(desired, n)
  }

  method CloudInitRemove(newStorages: Storages, currentStorages: Storages) returns (remove: Option<Key>)
    requires OnlySlots(newStorages) && OnlySlots(currentStorages)
    requires AtMostOneCloudInit(newStorages)
    ensures remove.Some? ==> Displaced(newStorages, currentStorages, remove.value)
    ensures remove.None? && AtMostOneCloudInit(currentStorages) ==> forall k ::
            !Displaced(newStorages, currentStorages, k)
  {
    var newCloudInit := ListCloudInitDisk(newStorages);
    var currentCloudInit := ListCloudInitDisk(currentStorages);
    if newCloudInit.Some? && currentCloudInit.Some? && newCloudInit != currentCloudInit {
      return currentCloudInit;
    }
    remove := None;
  }
}

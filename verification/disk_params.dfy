/** The disk part of the configuration call: which slots are set, to what, and which are deleted
    (`qemuStorage.mapToApiValues` and the loops around it, proxmox/config_qemu_disk.go). */
module DiskParams {
  import opened Text
  import opened Keys
  import opened DiskPath
  import opened DiskOptions
  import opened ApiParams
  import opened DiskPlan

  datatype SlotPlan = Keep | Set(value: Value) | Remove

  /** What `convertDataStructure` produces on a bus: disks have a storage and no file,
      passthrough devices no storage. */
  predicate Converted(s: Storage, bus: Bus) {
    && (s.disk.Some? ==>
         var d := s.disk.value; d.isDisk && d.file == "" && d.storage != "" && d.bus == bus)
    && (s.passthrough.Some? ==>
         var p := s.passthrough.value; !p.isDisk && p.storage == "" && p.bus == bus)
  }

  ghost predicate AllConverted(s: Storages) {
    forall k | k in s :: IsSlot(k) && Converted(s[k], k.bus)
  }

  /** The volume of a disk that is already attached, as the client names it. */
  function OwnVolume(d: QemuDisk, vmID: uint, linkedVmId: uint): Volume {
    NamedVolume(d.storage, d.format, d.id, d.linkedDiskId, vmID, linkedVmId, d.storage, d.format, d.fileSyntax)
  }

  /** The volume an in-place update asks for: the attached one, in the desired storage and format. */
  function UpdatedVolume(d: QemuDisk, current: QemuDisk, vmID: uint, linkedVmId: uint): Volume {
    NamedVolume(d.storage, d.format, current.id, current.linkedDiskId, vmID, linkedVmId,
                current.storage, current.format, current.fileSyntax)
  }

  function NewDiskValue(d: QemuDisk): Value {
    SetNewDisk(d.storage, d.sizeKiB, d.format, ForBus(d.options, d.bus))
  }

  /** What a slot is asked to hold, given what it holds now; nothing when no subtype is given. */
  function Wanted(s: Storage, current: Option<Storage>, vmID: uint, linkedVmId: uint): Option<Value> {
    if s.cdRom.Some? then Some(SetCdRom(s.cdRom.value))
    else if s.cloudInit.Some? then Some(SetCloudInit(s.cloudInit.value))
    else if s.disk.Some? then
      var d := s.disk.value;
      if Kept(Some(s), current) then
        Some(SetVolume(PathText(UpdatedVolume(d, current.value.disk.value, vmID, linkedVmId)),
                       ForBus(d.options, d.bus)))
      else Some(NewDiskValue(d))
    else if s.passthrough.Some? then
      Some(SetFile(s.passthrough.value.file, ForBus(s.passthrough.value.options, s.passthrough.value.bus)))
    else None
  }

  /** What the slot holds now, in the same terms, when it holds something of that kind. */
  function Held(current: Option<Storage>, wanted: Value, vmID: uint, linkedVmId: uint): Option<Value> {
    if current.None? then None
    else
      var c := current.value;
      match wanted
      case SetCdRom(_) => if c.cdRom.Some? then Some(SetCdRom(c.cdRom.value)) else None
      case SetCloudInit(_) => if c.cloudInit.Some? then Some(SetCloudInit(c.cloudInit.value)) else None
      case SetVolume(_, _) =>
        if c.disk.Some? then
          Some(SetVolume(PathText(OwnVolume(c.disk.value, vmID, linkedVmId)),
                         ForBus(c.disk.value.options, c.disk.value.bus)))
        else None
      case SetFile(_, _) =>
        if c.passthrough.Some? then
          Some(SetFile(c.passthrough.value.file, ForBus(c.passthrough.value.options, c.passthrough.value.bus)))
        else None
      case _ => None
  }

  /** A slot is set unless what it holds already reads the same, and deleted when nothing is
      wanted in a slot that exists. */
  function PlanSlot(storage: Option<Storage>, current: Option<Storage>, vmID: uint, linkedVmId: uint): SlotPlan {
    if storage.None? then Keep
    else match Wanted(storage.value, current, vmID, linkedVmId)
      case None => if current.Some? then Remove else Keep
      case Some(w) =>
        var held := Held(current, w, vmID, linkedVmId);
        if held.Some? && ValueText(held.value) == ValueText(w) then Keep else Set(w)
  }

  // ---------------------------------------------------------------- the passes

  /** `qemuStorage.mapToApiValues`. The id and the linked disk of a kept disk are taken from the
      current one before its text is printed. */
  method MapToApiValues(storage: Option<Storage>, currentStorage: Option<Storage>, vmID: uint, linkedVmId: uint,
                        id: Key, params: Params, delete: string)
    returns (deleted: string)
    requires IsSlot(id)
    requires storage.Some? ==> Converted(storage.value, id.bus)
    requires currentStorage.Some? ==> Converted(currentStorage.value, id.bus)
    modifies params
    ensures match PlanSlot(storage, currentStorage, vmID, linkedVmId)
      case Keep => params.values == old(params.values) && deleted == delete
      case Set(v) => params.values == old(params.values)[id := v] && deleted == delete
      case Remove => params.values == old(params.values) && deleted == AddToList(delete, Name(id))
  {
    if storage.None? {
      return delete;
    }
    var s, c := storage.value, if currentStorage.Some? then currentStorage.value else EMPTY;
    // CD-ROM
    if s.cdRom.Some? {
      if c.cdRom.None? || CdRomText(s.cdRom.value) != CdRomText(c.cdRom.value) {
        params.values := params.values[id := SetCdRom(s.cdRom.value)];
      }
      return delete;
    } else if c.cdRom.Some? && s.cloudInit.None? && s.disk.None? && s.passthrough.None? {
      return AddToList(delete, Name(id));
    }
    // cloud-init
    if s.cloudInit.Some? {
      if c.cloudInit.None? || CloudInitText(s.cloudInit.value) != CloudInitText(c.cloudInit.value) {
        params.values := params.values[id := SetCloudInit(s.cloudInit.value)];
      }
      return delete;
    } else if c.cloudInit.Some? && s.disk.None? && s.passthrough.None? {
      return AddToList(delete, Name(id));
    }
    // disk
    if s.disk.Some? {
      SetDisk(s, currentStorage, vmID, linkedVmId, id, params);
      return delete;
    } else if c.disk.Some? && s.passthrough.None? {
      return AddToList(delete, Name(id));
    }
    // passthrough
    if s.passthrough.Some? {
      SetPassthrough(s, currentStorage, id, params, vmID, linkedVmId);
      return delete;
    } else if c.passthrough.Some? {
      return AddToList(delete, Name(id));
    }
    // no subtype was specified
    if currentStorage.Some? {
      return AddToList(delete, Name(id));
    }
    return delete;
  }

  /** The text of a new disk. */
  method CreateDisk(d: QemuDisk, vmID: uint) returns (value: Value)
    requires d.file == "" && d.storage != ""
    ensures value == NewDiskValue(d) && ValueText(value) == DiskText(d, vmID, 0, "", "", FileSyntax, true)
  {
    var text := DiskOptions.MapToApiValues(d, vmID, 0, "", "", FileSyntax, true);
    value := NewDiskValue(d);
    assert ValueText(value) == text;
  }

  /** The disk branch: create, update in place, or detach and create. */
  method SetDisk(s: Storage, current: Option<Storage>, vmID: uint, linkedVmId: uint, id: Key, params: Params)
    requires s.cdRom.None? && s.cloudInit.None? && s.disk.Some?
    requires IsSlot(id) && Converted(s, id.bus) && (current.Some? ==> Converted(current.value, id.bus))
    modifies params
    ensures match PlanSlot(Some(s), current, vmID, linkedVmId)
      case Set(v) => params.values == old(params.values)[id := v]
      case _ => params.values == old(params.values)
  {
    var d := s.disk.value;
    if current.None? || current.value.disk.None? {
      var disk := CreateDisk(d, vmID);
      params.values := params.values[id := disk];
    } else {
      var c := current.value.disk.value;
      if d.sizeKiB >= c.sizeKiB {
        var updated := d.(id := c.id, linkedDiskId := c.linkedDiskId);
        var disk := DiskOptions.MapToApiValues(updated, vmID, linkedVmId, c.storage, c.format, c.fileSyntax, false);
        var present := DiskOptions.MapToApiValues(c, vmID, linkedVmId, c.storage, c.format, c.fileSyntax, false);
        if disk != present {
          var path := PathText(UpdatedVolume(d, c, vmID, linkedVmId));
          params.values := params.values[id := SetVolume(path, ForBus(d.options, d.bus))];
          assert ValueText(params.values[id]) == disk;
        }
      } else {
        var disk := CreateDisk(d, vmID);
        params.values := params.values[id := disk];
      }
    }
  }

  /** The passthrough branch: create or update. */
  method SetPassthrough(s: Storage, current: Option<Storage>, id: Key, params: Params, ghost vmID: uint,
                        ghost linkedVmId: uint)
    requires s.cdRom.None? && s.cloudInit.None? && s.disk.None? && s.passthrough.Some?
    requires IsSlot(id) && Converted(s, id.bus) && (current.Some? ==> Converted(current.value, id.bus))
    modifies params
    ensures match PlanSlot(Some(s), current, vmID, linkedVmId)
      case Set(v) => params.values == old(params.values)[id := v]
      case _ => params.values == old(params.values)
  {
    var p := s.passthrough.value;
    var passthrough := DiskOptions.MapToApiValues(p, 0, 0, "", "", FileSyntax, false);
    var differs := true;
    if current.Some? && current.value.passthrough.Some? {
      var present := DiskOptions.MapToApiValues(current.value.passthrough.value, 0, 0, "", "", FileSyntax, false);
      differs := passthrough != present;
    }
    if differs {
      params.values := params.values[id := SetFile(p.file, ForBus(p.options, p.bus))];
      assert p.file != "" ==> ValueText(params.values[id]) == passthrough;
    }
  }

  function PlanOf(desired: Storages, current: Storages, k: Key, vmID: uint, linkedVmId: uint): SlotPlan {
    PlanSlot(Get(desired, k), Get(current, k), vmID, linkedVmId)
  }

  /** The parameters of all mentioned slots. */
  function SetsOf(desired: Storages, current: Storages, vmID: uint, linkedVmId: uint): map<Key, Value> {
    map k | k in desired && PlanOf(desired, current, k, vmID, linkedVmId).Set? ::
        PlanOf(desired, current, k, vmID, linkedVmId).value
  }

  /** The deleted slots, in the order they are visited. */
  function RemovedOf(desired: Storages, current: Storages, vmID: uint, linkedVmId: uint, order: seq<Key>): seq<Key> {
    if order == [] then []
    else
      var k := order[|order| - 1];
      RemovedOf(desired, current, vmID, linkedVmId, order[..|order| - 1]) +
      (if PlanOf(desired, current, k, vmID, linkedVmId).Remove? then [k] else [])
  }

  lemma AddNameToList(keys: seq<Key>, k: Key)
    ensures AddToList(ListText(keys), Name(k)) == ListText(keys + [k])
  {
    assert Names([k]) == [Name(k)];
    if keys == [] {
      assert keys + [k] == [k];
    } else {
      ListTextAppend(keys, [k]);
      ListTextNonEmpty(keys);
    }
  }

  /** The parameters of the slots visited so far. */
  ghost function Among(sets: map<Key, Value>, visited: seq<Key>): map<Key, Value> {
    map k | k in sets && k in visited :: sets[k]
  }

  lemma SetOneMore(base: map<Key, Value>, sets: map<Key, Value>, visited: seq<Key>, k: Key)
    ensures base + Among(sets, visited + [k]) ==
            if k in sets then (base + Among(sets, visited))[k := sets[k]] else base + Among(sets, visited)
  {
    if k !in sets {
      assert Among(sets, visited + [k]) == Among(sets, visited);
    }
  }

  /** What the pass has produced after some of the slots. */
  ghost predicate Passed(desired: Storages, current: Storages, vmID: uint, linkedVmId: uint, visited: seq<Key>,
                         base: map<Key, Value>, values: map<Key, Value>, delete: string)
  {
    && values == base + Among(SetsOf(desired, current, vmID, linkedVmId), visited)
    && delete == ListText(RemovedOf(desired, current, vmID, linkedVmId, visited))
  }

  lemma RemovedOneMore(desired: Storages, current: Storages, vmID: uint, linkedVmId: uint, visited: seq<Key>, k: Key)
    ensures ListText(RemovedOf(desired, current, vmID, linkedVmId, visited + [k])) ==
            if PlanOf(desired, current, k, vmID, linkedVmId).Remove?
            then AddToList(ListText(RemovedOf(desired, current, vmID, linkedVmId, visited)), Name(k))
            else ListText(RemovedOf(desired, current, vmID, linkedVmId, visited))
  {
    var removed := RemovedOf(desired, current, vmID, linkedVmId, visited);
    AddNameToList(removed, k);
    assert (visited + [k])[..|visited|] == visited;
    assert removed + [] == removed;
  }

  lemma PassStep(desired: Storages, current: Storages, vmID: uint, linkedVmId: uint, visited: seq<Key>, k: Key,
                 base: map<Key, Value>, values: map<Key, Value>, delete: string, values': map<Key, Value>,
                 delete': string)
    requires k in desired && Passed(desired, current, vmID, linkedVmId, visited, base, values, delete)
    requires match PlanOf(desired, current, k, vmID, linkedVmId)
      case Keep => values' == values && delete' == delete
      case Set(v) => values' == values[k := v] && delete' == delete
      case Remove => values' == values && delete' == AddToList(delete, Name(k))
    ensures Passed(desired, current, vmID, linkedVmId, visited + [k], base, values', delete')
  {
    SetOneMore(base, SetsOf(desired, current, vmID, linkedVmId), visited, k);
    RemovedOneMore(desired, current, vmID, linkedVmId, visited, k);
  }

  /** `QemuStorages.mapToApiValues`: whatever the order of the slots, the same parameters are set
      and the same slots deleted; only the order of the deletions depends on it. */
  method MapStorages(storages: Storages, currentStorages: Storages, vmID: uint, linkedVmId: uint, params: Params)
    returns (delete: string, ghost order: seq<Key>)
    requires AllConverted(storages) && AllConverted(currentStorages)
    modifies params
    ensures Enumerates(order, storages.Keys)
    ensures params.values == old(params.values) + SetsOf(storages, currentStorages, vmID, linkedVmId)
    ensures delete == ListText(RemovedOf(storages, currentStorages, vmID, linkedVmId, order))
  {
    var slots := SlotOrder(storages);
    order := slots;
    delete := "";
    ghost var base := params.values;
    for i := 0 to |slots|
      invariant Passed(storages, currentStorages, vmID, linkedVmId, slots[..i], base, params.values, delete)
    {
      var k := slots[i];
      assert k in storages;
      ghost var values, before := params.values, delete;
      delete := MapToApiValues(Get(storages, k), Get(currentStorages, k), vmID, linkedVmId, k, params, delete);
      PassStep(storages, currentStorages, vmID, linkedVmId, slots[..i], k, base, values, before, params.values, delete);
      assert slots[..i + 1] == slots[..i] + [k];
    }
    assert slots[..|slots|] == slots;
    AllSets(storages, currentStorages, vmID, linkedVmId, slots);
  }

  lemma AllSets(desired: Storages, current: Storages, vmID: uint, linkedVmId: uint, order: seq<Key>)
    requires Enumerates(order, desired.Keys)
    ensures var sets := SetsOf(desired, current, vmID, linkedVmId); Among(sets, order) == sets
  {
  }
}

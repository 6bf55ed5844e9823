/** Reading a guest back from the server: the disk part of `NewConfigQemuFromApi`
    (proxmox/config_qemu.go, proxmox/config_qemu_disk.go), and what an update names for a disk
    that was read. */
module Reading {
  import opened Text
  import opened Keys
  import Settings
  import opened DiskPath
  import opened DiskOptions
  import opened ApiParams
  import opened DiskPlan
  import opened DiskParams
  import opened Hypervisor
  import TpmConfig

  // ---------------------------------------------------------------- what is seen

  /** A disk as the client sees it, whatever the path of its volume. */
  function SeenDisk(path: string, size: uint, o: Options, bus: Bus): QemuDisk {
    var p := ParsePath(path);
    QemuDisk(o, true, "", p.syntax, p.format, p.diskId, p.linkedDiskId, size, p.storage, bus)
  }

  function SeenFile(file: string, o: Options, bus: Bus): QemuDisk {
    QemuDisk(o, false, file, FileSyntax, "", 0, None, 0, "", bus)
  }

  function Seen(slot: Slot, bus: Bus): Storage {
    match slot
    case CdRomSlot(c) => EMPTY.(cdRom := Some(c))
    case CloudInitSlot(c) => EMPTY.(cloudInit := Some(c))
    case DiskSlot(path, size, o) => if FitsInt(size) then EMPTY.(disk := Some(SeenDisk(path, size, o, bus))) else EMPTY
    case FileSlot(file, o) => EMPTY.(passthrough := Some(SeenFile(file, o, bus)))
    case _ => EMPTY
  }

  function View(l: Layout): Storages { map k | k in l && k.Drive? :: Seen(l[k], k.bus) }

  function SeenTpm(l: Layout): Option<TpmConfig.TpmState> {
    if Key.TpmState in l && l[Key.TpmState].TpmSlot?
    then Some(TpmConfig.TpmState(false, l[Key.TpmState].storage, Some(l[Key.TpmState].version)))
    else None
  }

  /** The linked VM id a drive gives, if it is read as a linked disk. */
  function LinkedVmAt(l: Layout, k: Key): Option<uint> {
    if k.Drive? && k in l && l[k].DiskSlot? then ParsePath(l[k].path).linkedVm else None
  }

  predicate IsLinked(l: Layout, k: Key) { LinkedVmAt(l, k).Some? }

  /** The order in which the drives are read: bus after bus, slot after slot. */
  function Rank(bus: Bus): nat {
    match bus
    case Ide => 0
    case Sata => 1
    case Scsi => 2
    case VirtIO => 3
  }

  predicate Before(j: Key, k: Key)
    requires j.Drive? && k.Drive?
  {
    Rank(j.bus) < Rank(k.bus) || (j.bus == k.bus && j.slot < k.slot)
  }

  ghost predicate LastLinked(l: Layout, k: Key) { IsLinked(l, k) && forall j | IsLinked(l, j) :: !Before(k, j) }

  /** The linked VM id the client ends up with: that of the last linked disk it reads, zero when there
      is none. */
  ghost predicate LinkedVmSeen(l: Layout, id: uint) {
    if exists k :: IsLinked(l, k) then exists k :: LastLinked(l, k) && LinkedVmAt(l, k) == Some(id) else id == 0
  }

  /** There is only one such id. */
  lemma LinkedVmIsOne(l: Layout, id: uint, id': uint)
    requires LinkedVmSeen(l, id) && LinkedVmSeen(l, id')
    ensures id == id'
  {
    if exists k :: IsLinked(l, k) {
      var k :| LastLinked(l, k) && LinkedVmAt(l, k) == Some(id);
      var k' :| LastLinked(l, k') && LinkedVmAt(l, k') == Some(id');
      assert !Before(k, k') && !Before(k', k);
      SameRank(k.bus, k'.bus);
    }
  }

  lemma SameRank(a: Bus, b: Bus)
    ensures Rank(a) == Rank(b) ==> a == b
  {
  }

  /** It depends on the linked disks only. */
  lemma SameLinked(a: Layout, b: Layout, id: uint)
    requires forall k :: LinkedVmAt(a, k) == LinkedVmAt(b, k)
    ensures LinkedVmSeen(a, id) <==> LinkedVmSeen(b, id)
  {
    if LinkedVmSeen(a, id) {
      StillSeen(a, b, id);
    }
    if LinkedVmSeen(b, id) {
      StillSeen(b, a, id);
    }
  }

  lemma StillSeen(a: Layout, b: Layout, id: uint)
    requires LinkedVmSeen(a, id) && forall k :: LinkedVmAt(a, k) == LinkedVmAt(b, k)
    ensures LinkedVmSeen(b, id)
  {
    assert forall k :: IsLinked(a, k) <==> IsLinked(b, k);
    if exists k :: IsLinked(a, k) {
      var k :| LastLinked(a, k) && LinkedVmAt(a, k) == Some(id);
      assert LastLinked(b, k);
    }
  }

  lemma ViewIsConverted(h: Site, l: Layout)
    requires ValidSite(h) && SoundLayout(h, l)
    ensures AllConverted(View(l)) && OnlySlots(View(l))
  {
    forall k | k in View(l)
      ensures IsSlot(k) && Converted(View(l)[k], k.bus)
    {
      assert SoundSlot(h, k, l[k]);
      if l[k].DiskSlot? {
        VolumePathIsRead(l[k].path);
      }
    }
  }

  // ---------------------------------------------------------------- reading

  /** The size item does not disturb the options. */
  lemma SizeIsNoOption(m: map<string, string>, size: string)
    ensures ParseOptions(m["size" := size]) == ParseOptions(m)
  {
    forall i: nat | i < OPTION_COUNT
      ensures OptionName(i) != "size"
    {
      OptionNameIndex(i);
      assert OptionIndex("size") == -1;
    }
    SameLookups(m, m["size" := size]);
  }

  /** A volume path does not read as an option, and names a storage. */
  lemma VolumePathIsRead(path: string)
    requires VolumePath(path)
    ensures QuietHead(path) && path != "" && path[0] != '/'
    ensures PlainStorage(ParsePath(path).storage) && ParsePath(path).storage[0] != '/'
  {
    var storage := CutAt(path, ':').0;
    var rest := CutAt(path, ':').1.value;
    SplitFirst(storage, rest, ':');
    assert path[0] == storage[0];
    CutAtSkips(storage + ":", rest, '=');
    assert path == (storage + ":") + rest && ':' in storage + ":";
  }

  /** The text of a drive on the server, its size item set apart. */
  method ReadDevice(head: string, o: Options, size: Option<nat>, bus: Bus, linkedVmId: LinkedVm)
      returns (disk: QemuDisk)
    requires QuietHead(head) && head != "" && ValidOptions(o) && o == ForBus(o, bus) &&
             (size.Some? ==> FitsInt(size.value))
    modifies linkedVmId
    ensures disk.options == o && disk.bus == bus && disk.isDisk == (head[0] != '/')
    ensures disk.sizeKiB == if size.Some? then size.value else 0
    ensures head[0] == '/' ==> disk.file == head && NoVolume(disk) && linkedVmId.id == old(linkedVmId.id)
    ensures head[0] != '/' ==>
      var p := ParsePath(head);
      && disk.file == "" && disk.id == p.diskId && disk.storage == p.storage && disk.format == p.format
      && disk.linkedDiskId == p.linkedDiskId && disk.fileSyntax == p.syntax
      && linkedVmId.id == (if p.linkedVm.Some? then p.linkedVm.value else old(linkedVmId.id))
  {
    var text := head + OptionText(o, None);
    DeviceStringRoundTrip(head, o, bus);
    var settings := Settings.SplitStringOfSettings(text);
    if size.Some? {
      SizeIsNoOption(settings, Itoa(size.value) + "K");
      ResizeTextRoundTrip(size.value);
      settings := settings["size" := Itoa(size.value) + "K"];
    } else {
      NoSizePrinted(head, o);
    }
    disk := DiskOptions.MapToStruct(CutAt(text, ',').0, settings, bus, linkedVmId);
  }

  lemma NoSizePrinted(head: string, o: Options)
    requires QuietHead(head) && ValidOptions(o)
    ensures "size" !in Settings.SettingsMap(head + OptionText(o, None))
  {
    var names, values := OptionNames(), OptionValues(o, None);
    OptionsPrintable(o, None);
    Settings.ReadPrinted(head, names, values);
    Settings.OneSetting(head);
    SizeIsNotNamed(names);
    SizeIsPlain(Settings.KeyOf(head));
    assert Settings.Lookup(Settings.SettingsMap(head + OptionText(o, None)), "size") == None;
  }

  lemma SizeIsNotNamed(names: seq<string>)
    requires |names| <= OPTION_COUNT && forall i | 0 <= i < |names| :: names[i] == OptionName(i)
    ensures "size" !in names
  {
    forall i | 0 <= i < |names|
      ensures names[i] != "size"
    {
      OptionNameIndex(i);
      assert OptionIndex("size") == -1;
    }
  }

  lemma SizeIsPlain(key: string)
    requires ':' in key || '/' in key
    ensures key != "size"
  {
    assert ':' !in "size" && '/' !in "size";
  }

  /** One drive. The linked VM id is overwritten by every linked disk. */
  method ReadDrive(h: Site, k: Key, slot: Slot, linkedVmId: LinkedVm) returns (storage: Storage)
    requires ValidSite(h) && k.Drive? && SoundSlot(h, k, slot)
    modifies linkedVmId
    ensures storage == Seen(slot, k.bus)
    ensures linkedVmId.id == if slot.DiskSlot? && ParsePath(slot.path).linkedVm.Some?
            then ParsePath(slot.path).linkedVm.value else old(linkedVmId.id)
  {
    storage := EMPTY;
    match slot {
      case CdRomSlot(c) => storage := storage.(cdRom := Some(c));
      case CloudInitSlot(c) => storage := storage.(cloudInit := Some(c));
      case DiskSlot(path, size, o) =>
        VolumePathIsRead(path);
        var disk := ReadDevice(path, o, Some(size), k.bus, linkedVmId);
        storage := storage.(disk := Some(disk));
      case FileSlot(file, o) =>
        FileIsQuiet(file);
        var passthrough := ReadDevice(file, o, None, k.bus, linkedVmId);
        storage := storage.(passthrough := Some(passthrough));
    }
  }

  ghost predicate Ascending(order: seq<Key>) {
    && (forall k | k in order :: k.Drive?)
    && forall i, j {:trigger Before(order[i], order[j])} | 0 <= i < j < |order| :: Before(order[i], order[j])
  }

  lemma OneMoreAscends(order: seq<Key>, k: Key)
    requires Ascending(order) && k.Drive? && forall j | j in order :: j.Drive? && Before(j, k)
    ensures Ascending(order + [k])
  {
  }

  /** The drives of a configuration, bus after bus and slot after slot. */
  method PresentDrives(h: Site, l: Layout) returns (order: seq<Key>)
    requires SoundLayout(h, l)
    ensures Enumerates(order, View(l).Keys) && Ascending(order)
  {
    order := [];
    for b := 0 to |BUSES|
      invariant forall k :: k in order <==> k in View(l) && Rank(k.bus) < b
      invariant Ascending(order)
    {
      BusRank(b);
      DrivesAreSlots(h, l);
      order := AddBus(h, l, BUSES[b], order);
    }
    assert forall k | k in View(l) :: Rank(k.bus) < |BUSES|;
    AscendingIsDistinct(order);
  }

  lemma BusRank(b: nat)
    requires b < |BUSES|
    ensures Rank(BUSES[b]) == b
  {
    assert BUSES[0] == Ide && BUSES[1] == Sata && BUSES[2] == Scsi && BUSES[3] == VirtIO;
  }

  lemma AscendingIsDistinct(order: seq<Key>)
    requires Ascending(order)
    ensures forall i, j | 0 <= i < j < |order| :: order[i] != order[j]
  {
    forall i, j | 0 <= i < j < |order|
      ensures order[i] != order[j]
    {
      assert Before(order[i], order[j]);
    }
  }

  method AddBus(h: Site, l: Layout, bus: Bus, before: seq<Key>) returns (order: seq<Key>)
    requires Ascending(before) && forall k | k in before :: k.Drive? && Rank(k.bus) < Rank(bus)
    requires forall k | k in View(l) :: k.Drive? && k.slot < SlotCount(k.bus)
    ensures Ascending(order) && forall k :: k in order <==> k in before || (k in View(l) && k.bus == bus)
  {
    order := before;
    for slot := 0 to SlotCount(bus)
      invariant forall k :: k in order <==> k in before || (k in View(l) && k.bus == bus && k.slot < slot)
      invariant Ascending(order)
    {
      var k := Drive(bus, slot);
      if k in l {
        OneMoreAscends(order, k);
        order := order + [k];
      }
    }
  }

  lemma DrivesAreSlots(h: Site, l: Layout)
    requires SoundLayout(h, l)
    ensures forall k | k in View(l) :: k.Drive? && k.slot < SlotCount(k.bus)
  {
    forall k | k in View(l)
      ensures k.slot < SlotCount(k.bus)
    {
      assert SoundSlot(h, k, l[k]);
    }
  }

  /** The linked VM id after some of the drives: that of the last linked one. */
  ghost predicate LinkedVmAmong(l: Layout, visited: seq<Key>, id: uint) {
    if exists k :: k in visited && IsLinked(l, k)
    then exists k :: k in visited && IsLinked(l, k) && LinkedVmAt(l, k) == Some(id) &&
                     forall j | j in visited && IsLinked(l, j) :: !Before(k, j)
    else id == 0
  }

  lemma LinkedVmStep(l: Layout, visited: seq<Key>, k: Key, id: uint, id': uint)
    requires k.Drive? && k in l && LinkedVmAmong(l, visited, id)
    requires forall j | j in visited :: j.Drive? && Before(j, k)
    requires id' == if IsLinked(l, k) then LinkedVmAt(l, k).value else id
    ensures LinkedVmAmong(l, visited + [k], id')
  {
    var longer := visited + [k];
    assert k in longer && forall j | j in visited :: j in longer;
    assert forall j | j in longer :: j in visited || j == k;
    if IsLinked(l, k) {
      assert forall j | j in longer && IsLinked(l, j) :: !Before(k, j);
    }
  }

  /** What was read of the visited slots. */
  ghost predicate ReadSoFar(l: Layout, visited: seq<Key>, storages: Storages, id: uint) {
    && (forall k :: k in storages <==> k in visited)
    && (forall k | k in storages :: k in View(l) && storages[k] == View(l)[k])
    && LinkedVmAmong(l, visited, id)
  }

  lemma NothingRead(l: Layout)
    ensures ReadSoFar(l, [], map[], 0)
  {
  }

  lemma ReadOneMore(h: Site, l: Layout, visited: seq<Key>, k: Key, storages: Storages, id: uint, id': uint)
    requires ReadSoFar(l, visited, storages, id) && k in View(l) && SoundLayout(h, l)
    requires forall j | j in visited :: j.Drive? && Before(j, k)
    requires id' == if IsLinked(l, k) then LinkedVmAt(l, k).value else id
    ensures ReadSoFar(l, visited + [k], storages[k := View(l)[k]], id')
  {
    LinkedVmStep(l, visited, k, id, id');
    assert SoundSlot(h, k, l[k]);
  }

  method ReadNext(h: Site, l: Layout, k: Key, linked: LinkedVm, storages: Storages, ghost visited: seq<Key>)
    returns (more: Storages)
    requires ValidSite(h) && SoundLayout(h, l) && k in View(l)
    requires ReadSoFar(l, visited, storages, linked.id) && forall j | j in visited :: j.Drive? && Before(j, k)
    modifies linked
    ensures ReadSoFar(l, visited + [k], more, linked.id)
  {
    ghost var id := linked.id;
    assert SoundSlot(h, k, l[k]);
    var storage := ReadDrive(h, k, l[k], linked);
    more := storages[k := storage];
    ReadOneMore(h, l, visited, k, storages, id, linked.id);
  }

  /** The disks of a guest and its linked VM id; nil when there is no drive at all. */
  method ReadDisks(h: Site, l: Layout) returns (disks: Option<Storages>, linkedVmId: uint)
    requires ValidSite(h) && SoundLayout(h, l)
    ensures disks == if View(l) == map[] then None else Some(View(l))
    ensures LinkedVmSeen(l, linkedVmId)
  {
    var order := PresentDrives(h, l);
    var storages: Storages;
    assert forall i | 0 <= i < |order| :: order[i] in order;
    storages, linkedVmId := ReadInOrder(h, l, order);
    AllRead(l, order, storages, linkedVmId);
    disks := if storages == map[] then None else Some(storages);
  }

  method ReadInOrder(h: Site, l: Layout, order: seq<Key>) returns (storages: Storages, linkedVmId: uint)
    requires ValidSite(h) && SoundLayout(h, l) && Ascending(order) && forall i | 0 <= i < |order| :: order[i] in View(l)
    ensures ReadSoFar(l, order, storages, linkedVmId)
  {
    storages := map[];
    var linked := new LinkedVm();
    NothingRead(l);
    for i := 0 to |order|
      invariant ReadSoFar(l, order[..i], storages, linked.id)
    {
      VisitedBefore(order, i);
      storages := ReadNext(h, l, order[i], linked, storages, order[..i]);
      assert order[..i + 1] == order[..i] + [order[i]];
    }
    assert order[..|order|] == order;
    linkedVmId := linked.id;
  }

  lemma VisitedBefore(order: seq<Key>, i: nat)
    requires Ascending(order) && i < |order|
    ensures forall j | j in order[..i] :: j.Drive? && order[i].Drive? && Before(j, order[i])
  {
    assert order[i] in order;
    forall j | j in order[..i]
      ensures j.Drive? && Before(j, order[i])
    {
      assert j in order;
    }
  }

  lemma AllRead(l: Layout, order: seq<Key>, storages: Storages, id: uint)
    requires Enumerates(order, View(l).Keys) && ReadSoFar(l, order, storages, id)
    ensures storages == View(l) && LinkedVmSeen(l, id)
  {
    assert storages.Keys == View(l).Keys;
    LastOfAll(l, order, id);
  }

  lemma LastOfAll(l: Layout, order: seq<Key>, id: uint)
    requires (forall k | k in View(l) :: k in order) && LinkedVmAmong(l, order, id)
    ensures LinkedVmSeen(l, id)
  {
    assert forall k | IsLinked(l, k) :: k in View(l) && k in order;
    if exists k :: IsLinked(l, k) {
      var k :| k in order && IsLinked(l, k) && LinkedVmAt(l, k) == Some(id) &&
               forall j | j in order && IsLinked(l, j) :: !Before(k, j);
      assert LastLinked(l, k);
    }
  }

  // ---------------------------------------------------------------- what an update names

  /** The volume is the guest's own, under a name the client gives, and its base image, if any, is one
      of the guest the client takes for all. */
  predicate Names(h: Site, v: Volume, linkedVmId: uint) {
    && DiskPath.Printable(v) && v.owner == h.vmId && FitsInt(v.id)
    && (v.base.Some? ==> v.base.value.vm == linkedVmId && FitsInt(v.base.value.disk))
  }

  /** The path has one of the four shapes the client prints, for such a volume. */
  ghost predicate Attached(h: Site, path: string, linkedVmId: uint) {
    exists v :: Names(h, v, linkedVmId) && path == PathText(v)
  }

  /** The path of an in-place update is the path of the attached volume, whatever that is, exactly when
      it is the path of such a volume. */
  lemma UpdateNamesAttachedVolume(h: Site, d: QemuDisk, path: string, size: uint, o: Options, bus: Bus,
                                  linkedVmId: uint)
    requires ValidFormat(d.format) && d.storage == ParsePath(path).storage && d.format == ParsePath(path).format
    ensures PathText(UpdatedVolume(d, SeenDisk(path, size, o, bus), h.vmId, linkedVmId)) == path <==>
            Attached(h, path, linkedVmId)
  {
    var u := UpdatedVolume(d, SeenDisk(path, size, o, bus), h.vmId, linkedVmId);
    if PathText(u) == path {
      StorageHasNoColon(path);
      ValidFormatIsPlain(d.format);
      PathIsRead(u);
      assert Names(h, u, linkedVmId);
    }
    if v :| Names(h, v, linkedVmId) && path == PathText(v) {
      PathIsRead(v);
      assert u == v.(format := u.format) && (v.syntax == FileSyntax ==> u == v);
      assert Segments(u) == Segments(v);
    }
  }

  lemma StorageHasNoColon(path: string)
    ensures ':' !in ParsePath(path).storage
  {
    var parts := Split(path, ':');
    assert parts[0] in parts;
  }

  /** Of the paths the client can print, exactly those are attached whose volume it names. */
  lemma AttachedExactly(h: Site, v: Volume, linkedVmId: uint)
    requires DiskPath.Printable(v)
    ensures Attached(h, PathText(v), linkedVmId) <==> Names(h, v, linkedVmId)
  {
    if u :| Names(h, u, linkedVmId) && PathText(v) == PathText(u) {
      PathInjective(u, v);
    }
  }

  /** The path of a disk of a template: its name starts with `base`, though it has no base image. */
  function BasePath(storage: string, vm: uint, id: uint, format: string, syntax: Syntax): string {
    storage + ":" + Join(BaseSegments(vm, id, format, syntax), '/')
  }

  function BaseSegments(vm: uint, id: uint, format: string, syntax: Syntax): seq<string> {
    match syntax
    case FileSyntax => [UintText(vm), DiskName("base", vm, id) + "." + format]
    case VolumeSyntax => [DiskName("base", vm, id)]
  }

  lemma BasePathSplits(storage: string, vm: uint, id: uint, format: string, syntax: Syntax)
    requires ':' !in storage && ValidFormat(format)
    ensures var segments := BaseSegments(vm, id, format, syntax);
            && Split(BasePath(storage, vm, id, format, syntax), ':') == [storage, Join(segments, '/')]
            && Split(Join(segments, '/'), '/') == segments
  {
    var segments := BaseSegments(vm, id, format, syntax);
    ValidFormatIsPlain(format);
    DiskNameIsPlain("base", vm, id, ':');
    DiskNameIsPlain("base", vm, id, '/');
    UintTextIsPlain(vm, ':');
    UintTextIsPlain(vm, '/');
    JoinHasNo(segments, '/', ':');
    SplitFirst(storage, Join(segments, '/'), ':');
    SplitPlain(Join(segments, '/'), ':');
    SplitJoin(segments, '/');
  }

  /** It is read as a disk that is not linked. */
  lemma BasePathIsRead(storage: string, vm: uint, id: uint, format: string, syntax: Syntax)
    requires ':' !in storage && ValidFormat(format)
    ensures var p := ParsePath(BasePath(storage, vm, id, format, syntax));
            && p.storage == storage && p.format == (if syntax == FileSyntax then format else RAW)
            && p.syntax == syntax && p.linkedVm.None? && p.linkedDiskId.None?
  {
    BasePathSplits(storage, vm, id, format, syntax);
    ValidFormatIsPlain(format);
    if syntax == FileSyntax {
      FileSegment("base", vm, id, format);
      AtoiUintText(vm);
    } else {
      VolumeSegment("base", vm, id);
    }
  }

  /** The client prints another path for it, whatever the base guest it takes for all. */
  lemma BaseIsNotAttached(h: Site, storage: string, id: uint, format: string, syntax: Syntax, linkedVmId: uint)
    requires ':' !in storage && ValidFormat(format)
    ensures !Attached(h, BasePath(storage, h.vmId, id, format, syntax), linkedVmId)
  {
    BasePathSplits(storage, h.vmId, id, format, syntax);
    if v :| Names(h, v, linkedVmId) && BasePath(storage, h.vmId, id, format, syntax) == PathText(v) {
      PathSplits(v);
      var mine, its := BaseSegments(h.vmId, id, format, syntax), Segments(v);
      assert mine == its;
      assert mine[|mine| - 1][0] == 'b' && its[|its| - 1][0] == 'v';
    }
  }

  /** The plan of a disk that is kept, whatever its volume: nothing when it has the desired options, else
      the path the client names for it with these options. */
  lemma KeptDiskPlan(h: Site, k: Key, s: Storage, path: string, size: uint, o: Options, linkedVmId: uint)
    requires ValidSite(h) && IsSlot(k) && VolumePath(path) && KnownOptions(o, k)
    requires ValidStorage(s) && Converted(s, k.bus) && s.disk.Some? && s.disk.value.sizeKiB >= size
    requires s.disk.value.storage == ParsePath(path).storage && s.disk.value.format == ParsePath(path).format
    ensures var options := ForBus(s.disk.value.options, k.bus);
            var c := SeenDisk(path, size, o, k.bus);
            var u := PathText(UpdatedVolume(s.disk.value, c, h.vmId, linkedVmId));
            && VolumePath(u)
            && PlanSlot(Some(s), Some(EMPTY.(disk := Some(c))), h.vmId, linkedVmId) ==
               if options == o then Keep else Set(SetVolume(u, options))
  {
    var d, c := s.disk.value, SeenDisk(path, size, o, k.bus);
    var u := UpdatedVolume(d, c, h.vmId, linkedVmId);
    VolumePathIsRead(path);
    ValidFormatIsPlain(d.format);
    NamedIsVolumePath(u);
    VolumePathIsRead(PathText(u));
    ForBusIs(o, o, k.bus);
    SameDeviceText(PathText(u), d.options, o, k.bus);
    KeptValues(h, k, s, path, size, o, linkedVmId);
    var current := Some(EMPTY.(disk := Some(c)));
    PlanCompares(s, current, h.vmId, linkedVmId, SetVolume(PathText(u), ForBus(d.options, k.bus)),
                 SetVolume(PathText(u), o));
  }

  /** A slot is set unless it already reads as wanted. */
  lemma PlanCompares(s: Storage, current: Option<Storage>, vmID: uint, linkedVmId: uint, wanted: Value, held: Value)
    requires Wanted(s, current, vmID, linkedVmId) == Some(wanted)
    requires Held(current, wanted, vmID, linkedVmId) == Some(held)
    ensures PlanSlot(Some(s), current, vmID, linkedVmId) ==
            if ValueText(held) == ValueText(wanted) then Keep else Set(wanted)
  {
  }

  /** What a kept disk is to hold, and what it holds. */
  lemma KeptValues(h: Site, k: Key, s: Storage, path: string, size: uint, o: Options, linkedVmId: uint)
    requires IsSlot(k) && KnownOptions(o, k)
    requires ValidStorage(s) && Converted(s, k.bus) && s.disk.Some? && s.disk.value.sizeKiB >= size
    requires s.disk.value.storage == ParsePath(path).storage && s.disk.value.format == ParsePath(path).format
    ensures var d, c := s.disk.value, SeenDisk(path, size, o, k.bus);
            var u := PathText(UpdatedVolume(d, c, h.vmId, linkedVmId));
            var w := SetVolume(u, ForBus(d.options, k.bus));
            var current := Some(EMPTY.(disk := Some(c)));
            && Wanted(s, current, h.vmId, linkedVmId) == Some(w)
            && Held(current, w, h.vmId, linkedVmId) == Some(SetVolume(u, o))
  {
    var d, c := s.disk.value, SeenDisk(path, size, o, k.bus);
    assert OwnVolume(c, h.vmId, linkedVmId) == UpdatedVolume(d, c, h.vmId, linkedVmId);
  }

  lemma NamedIsVolumePath(u: Volume)
    requires PlainStorage(u.storage) && u.storage[0] != '/' && ',' !in u.format
    ensures VolumePath(PathText(u))
  {
    NoCommaInPath(u);
    CutAtFirst(u.storage, Join(Segments(u), '/'), ':');
    assert PathText(u) == u.storage + [':'] + Join(Segments(u), '/');
  }

  lemma SameDeviceText(head: string, o: Options, o': Options, bus: Bus)
    requires ValidOptions(o) && ValidOptions(o') && o' == ForBus(o', bus) && QuietHead(head)
    ensures head + OptionText(ForBus(o, bus), None) == head + OptionText(o', None) ==> ForBus(o, bus) == o'
  {
    if head + OptionText(ForBus(o, bus), None) == head + OptionText(o', None) {
      DeviceStringInjective(head, o, head, o', bus);
    }
  }
}

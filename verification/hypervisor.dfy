/** The server side of a guest update: the guest's configuration, its pending changes and its
    power state, and the calls the client makes. Every call may fail; a call that fails changes
    nothing. Every call is recorded with the states around it. */
module Hypervisor {
  import opened Text
  import opened Keys
  import Settings
  import opened DiskPath
  import opened DiskOptions
  import opened ApiParams
  import opened CloudInitNet

  /** What the server keeps under a parameter name: a disk by the path of its volume, which may be any,
      and a passthrough device by the file and the options its text reads as. */
  datatype Slot =
    | CdRomSlot(cdRom: CdRom)
    | CloudInitSlot(cloudInit: CloudInitDisk)
    | DiskSlot(path: string, sizeKiB: nat, options: Options)
    | FileSlot(file: string, options: Options)
    | TpmSlot(storage: string, version: string)
    | TextSlot(text: string)

  type Layout = map<Key, Slot>

  function At(l: Layout, k: Key): Option<Slot> { if k in l then Some(l[k]) else None }

  /** The configuration in effect, the configuration with the pending changes, and the power state. */
  datatype VmState = VmState(active: Layout, staged: Layout, running: bool)

  predicate Pending(s: VmState) { s.active != s.staged }

  /** What does not change: the guest's number, the storages, those of them that only hold raw
      block volumes, the size a volume gets when it is created with the text "0.001", and whether the
      server has version 8 at least. */
  datatype Site = Site(vmId: uint, storages: set<string>, blockStorages: set<string>, placeholderKiB: nat,
                       version8: bool)

  predicate ValidSite(h: Site) {
    && FitsInt(h.vmId) && 0 < h.placeholderKiB < MINIMUM_SIZE
    && forall storage {:trigger PlainStorage(storage)} | storage in h.storages ::
       PlainStorage(storage) && storage[0] != '/'
  }

  /** A volume the site creates for this guest. Block storages are named in volume syntax and hold raw
      volumes only; other storages are named in file syntax. */
  function NewVolume(h: Site, storage: string, format: string, id: uint): Volume {
    Volume(storage, h.vmId, id, format, None, if storage in h.blockStorages then VolumeSyntax else FileSyntax)
  }

  predicate CanHold(h: Site, v: Volume) {
    v.storage in h.storages && ValidFormat(v.format) && FitsInt(v.id) && (v.syntax == VolumeSyntax ==> v.format == RAW)
  }

  /** The path of a volume the server created for this guest. */
  predicate IsOwnPath(h: Site, path: string, storage: string, format: string) {
    var v := NewVolume(h, storage, format, ParsePath(path).diskId);
    CanHold(h, v) && path == PathText(v)
  }

  /** The path of any volume: a storage, a colon and a name. */
  predicate VolumePath(path: string) {
    var storage := CutAt(path, ':').0;
    ':' in path && ',' !in path && PlainStorage(storage) && storage[0] != '/'
  }

  predicate IsDrive(k: Key) { k.Drive? && k.slot < SlotCount(k.bus) }

  predicate KnownOptions(o: Options, k: Key)
    requires k.Drive?
  {
    ValidOptions(o) && OptionsFor(o, o, k.bus)
  }

  predicate SoundSlot(h: Site, k: Key, slot: Slot) {
    match slot
    case CdRomSlot(c) => IsDrive(k) && PlainCdRom(c)
    case CloudInitSlot(c) => IsDrive(k) && PlainCloudInit(c)
    case DiskSlot(path, size, o) => IsDrive(k) && VolumePath(path) && FitsInt(size) && KnownOptions(o, k)
    case FileSlot(file, o) => IsDrive(k) && PlainFile(file) && KnownOptions(o, k)
    case TpmSlot(_, _) => k.TpmState?
    case TextSlot(text) => !k.Drive? && !k.TpmState? && (k.IpConfig? && |text| > 1 ==> PlainNetwork(ReadNetwork(text)))
  }

  /** The texts of the parameters that are no drives. */
  function Texts(l: Layout): map<Key, string> { map k | k in l && l[k].TextSlot? :: l[k].text }

  predicate SoundLayout(h: Site, l: Layout) {
    forall k {:trigger SoundSlot(h, k, l[k])} | k in l :: SoundSlot(h, k, l[k])
  }

  /** A guest that is not running has no pending changes. */
  predicate Sound(h: Site, s: VmState) {
    SoundLayout(h, s.active) && SoundLayout(h, s.staged) && (!s.running ==> !Pending(s))
  }

  /** The path of a created volume is read as what it was created for. */
  lemma OwnPathIsRead(h: Site, v: Volume)
    requires ValidSite(h) && CanHold(h, v) && v == NewVolume(h, v.storage, v.format, v.id)
    ensures VolumePath(PathText(v)) && ParsePath(PathText(v)) == Meant(v)
    ensures Meant(v).format == v.format && IsOwnPath(h, PathText(v), v.storage, v.format)
  {
    ValidFormatIsPlain(v.format);
    assert PlainStorage(v.storage);
    PathRoundTrip(v);
    NoCommaInPath(v);
    CutAtFirst(v.storage, Join(Segments(v), '/'), ':');
  }

  // ---------------------------------------------------------------- what the calls do

  /** The size of a volume that was created for a disk. */
  function CreatedSize(h: Site, sizeKiB: nat): nat {
    if sizeKiB % GIBIBYTE == 0 then sizeKiB else h.placeholderKiB
  }

  /** The slot a value leads to. A volume path keeps the size of the attached volume only when it is the
      path of that volume. A passthrough text leads to the device it reads as, if it starts with a
      slash; any other text names a volume, a cloud-init disk or whatever the server makes of it. A CD-ROM
      or a cloud-init disk is what was asked for unless a storage or a file has a separator in it. */
  predicate Becomes(h: Site, k: Key, before: Option<Slot>, value: Value, after: Slot) {
    && SoundSlot(h, k, after)
    && match value
       case SetCdRom(c) => (PlainCdRom(c) ==> after == CdRomSlot(c)) && (!CommaCdRom(c) ==> after.CdRomSlot?)
       case SetCloudInit(c) => PlainCloudInit(c) ==> after == CloudInitSlot(c)
       case SetNewDisk(storage, size, format, o) =>
         after.DiskSlot? && IsOwnPath(h, after.path, storage, format) && after.sizeKiB == CreatedSize(h, size) &&
         after.options == o
       case SetVolume(path, o) =>
         after.DiskSlot? && after.path == path && after.options == o &&
         (before.Some? && before.value.DiskSlot? && before.value.path == path ==>
           after.sizeKiB == before.value.sizeKiB)
       case SetFile(file, o) => Absolute(file) ==> after == FileOf(file + OptionText(o, None))
       case SetTpm(storage, version) => after == TpmSlot(storage, version)
       case SetText(text) => after == TextSlot(text)
       case SetNumber(n) => after == TextSlot(Itoa(n))
  }

  /** The device a passthrough text reads as: its file ends at the first comma. */
  function FileOf(text: string): Slot {
    FileSlot(CutAt(text, ',').0, ParseOptions(Settings.SettingsMap(text)))
  }

  /** A configuration call stages all its deletions and values at once. Of a running guest each
      change takes effect now or stays pending; of a stopped guest all take effect. */
  ghost predicate Configured(h: Site, s: VmState, t: VmState, sets: map<Key, Value>, delete: string) {
    var deleted := NamedIn(delete, s.staged.Keys);
    && (forall k :: k in t.staged <==> k in sets || (k in s.staged && k !in deleted))
    && (forall k | k in sets :: Becomes(h, k, At(s.staged, k), sets[k], t.staged[k]))
    && (forall k | k in s.staged && k !in sets && k !in deleted :: t.staged[k] == s.staged[k])
    && (forall k :: At(t.active, k) == At(s.active, k) || At(t.active, k) == At(t.staged, k))
    && t.running == s.running
    && (!s.running ==> t.active == t.staged)
  }

  predicate MovedSlot(h: Site, before: Slot, after: Slot, storage: string, format: Option<string>) {
    match before
    case DiskSlot(path, size, o) =>
      after.DiskSlot? && after.sizeKiB == size && after.options == o &&
      IsOwnPath(h, after.path, storage, if format.Some? then format.value else ParsePath(path).format)
    case TpmSlot(_, version) => after == TpmSlot(storage, version)
    case _ => false
  }

  lemma MovedIsSound(h: Site, k: Key, before: Slot, after: Slot, storage: string, format: Option<string>)
    requires ValidSite(h) && SoundSlot(h, k, before) && MovedSlot(h, before, after, storage, format)
    ensures SoundSlot(h, k, after)
  {
    if before.DiskSlot? {
      var kept := ParsePath(before.path).format;
      OwnPathIsRead(h, NewVolume(h, storage, if format.Some? then format.value else kept,
                                 ParsePath(after.path).diskId));
    }
  }

  /** One slot is replaced, in effect and staged; the call fails when a change of it is pending. */
  predicate Replaced(s: VmState, t: VmState, k: Key, slot: Slot) {
    && k in s.active && k in s.staged && s.active[k] == s.staged[k]
    && t == VmState(s.active[k := slot], s.staged[k := slot], s.running)
  }

  predicate Moved(h: Site, s: VmState, t: VmState, k: Key, storage: string, format: Option<string>) {
    k in s.staged && k in t.staged && MovedSlot(h, s.staged[k], t.staged[k], storage, format) &&
    Replaced(s, t, k, t.staged[k])
  }

  /** A resize only grows a volume. */
  predicate Resized(s: VmState, t: VmState, k: Key, sizeKiB: nat) {
    && k in s.staged && s.staged[k].DiskSlot? && s.staged[k].sizeKiB < sizeKiB
    && Replaced(s, t, k, s.staged[k].(sizeKiB := sizeKiB))
  }

  // ---------------------------------------------------------------- calls

  datatype Call =
    | MoveDisk(k: Key, to: string, format: Option<string>)
    | ResizeDisk(k: Key, sizeKiB: nat)
    | Configure(sets: map<Key, Value>, delete: string)
    | ListPending
    | Shutdown
    | Start
    | Reboot
    | ReadConfig
    | ReadVersion
    | JoinPool
    | ReadPermissions
    | UpdateHA

  /** Calls that leave the configuration and the power state of the guest as they are. */
  predicate AsksOnly(c: Call) { c.ReadVersion? || c.JoinPool? || c.ReadPermissions? || c.UpdateHA? }

  predicate ChangesPower(c: Call) { c.Shutdown? || c.Start? || c.Reboot? }

  datatype Event = Event(call: Call, before: VmState, after: VmState, ok: bool)

  /** What a call that succeeds does to the guest. */
  ghost predicate Effect(h: Site, c: Call, s: VmState, t: VmState) {
    match c
    case MoveDisk(k, storage, format) => Moved(h, s, t, k, storage, format)
    case ResizeDisk(k, size) => Resized(s, t, k, size)
    case Configure(sets, delete) => Configured(h, s, t, sets, delete)
    case Shutdown => s.running && t == VmState(s.staged, s.staged, false)
    case Start => !s.running && t == s.(running := true)
    case Reboot => s.running && t == VmState(s.staged, s.staged, true)
    case _ => t == s
  }

  ghost predicate Happened(h: Site, e: Event) {
    Sound(h, e.after) && if e.ok then Effect(h, e.call, e.before, e.after) else e.after == e.before
  }

  /** The staged configuration after a configuration call. */
  function StagedAs(s: VmState, results: Layout, deleted: seq<string>): Layout {
    (map k | k in s.staged && Name(k) !in deleted :: s.staged[k]) + results
  }

  /** The configuration in effect, given which changes take effect now. */
  function ActiveAs(s: VmState, staged: Layout, now: Key -> bool): Layout {
    map k | k in s.active.Keys + staged.Keys && (if now(k) then k in staged else k in s.active) ::
      if now(k) then staged[k] else s.active[k]
  }

  lemma IsConfigured(h: Site, s: VmState, t: VmState, sets: map<Key, Value>, delete: string, results: Layout,
                     now: Key -> bool)
    requires Sound(h, s) && results.Keys == sets.Keys
    requires forall k | k in sets :: Becomes(h, k, At(s.staged, k), sets[k], results[k])
    requires t.staged == StagedAs(s, results, Split(delete, ',')) && t.running == s.running
    requires t.active == if s.running then ActiveAs(s, t.staged, now) else t.staged
    ensures Configured(h, s, t, sets, delete) && Sound(h, t)
  {
    forall k
      ensures At(t.active, k) == At(s.active, k) || At(t.active, k) == At(t.staged, k)
    {
    }
    forall k | k in sets
      ensures Becomes(h, k, At(s.staged, k), sets[k], t.staged[k])
    {
      assert t.staged[k] == results[k];
    }
  }

  /** The calls follow each other: each finds the guest as the one before left it, and the last
      one left it as it is. */
  ghost predicate Chained(trace: seq<Event>, s: VmState) {
    && (forall i {:trigger trace[i].before} | 0 < i < |trace| :: trace[i].before == trace[i - 1].after)
    && (trace != [] ==> trace[|trace| - 1].after == s)
  }

  class Guest {
    const site: Site
    var s: VmState
    var trace: seq<Event>

    ghost predicate Valid()
      reads this
    {
      ValidSite(site) && Sound(site, s) && Chained(trace, s)
    }

    constructor (site: Site, s: VmState)
      requires ValidSite(site) && Sound(site, s)
      ensures Valid() && this.site == site && this.s == s && trace == []
    {
      this.site, this.s, trace := site, s, [];
    }

    /** Records a call that was answered. */
    method Log(call: Call, after: VmState, ok: bool)
      requires Valid() && Happened(site, Event(call, s, after, ok))
      modifies this
      ensures Valid() && s == after && trace == old(trace) + [Event(call, old(s), after, ok)]
    {
      trace := trace + [Event(call, s, after, ok)];
      s := after;
    }

    method MoveDisk(k: Key, storage: string, format: Option<string>) returns (ok: bool)
      requires Valid()
      modifies this
      ensures Valid() && trace == old(trace) + [Event(Call.MoveDisk(k, storage, format), old(s), s, ok)]
      ensures Happened(site, Event(Call.MoveDisk(k, storage, format), old(s), s, ok))
      ensures if ok then Moved(site, old(s), s, k, storage, format) else s == old(s)
    {
      var t := s;
      ok := false;
      if k in s.staged && k in s.active && s.active[k] == s.staged[k] {
        var newId: uint := *;
        assert SoundSlot(site, k, s.staged[k]);
        var slot := Target(s.staged[k], storage, format, newId);
        ok := slot.Some? && MovedSlot(site, s.staged[k], slot.value, storage, format);
        if ok {
          MovedIsSound(site, k, s.staged[k], slot.value, storage, format);
          t := Place(k, slot.value);
        }
      }
      ok := Answer(ok);
      if !ok {
        t := s;
      }
      Log(Call.MoveDisk(k, storage, format), t, ok);
    }

    /** What a slot that can be moved becomes. */
    function Target(slot: Slot, storage: string, format: Option<string>, newId: uint): Option<Slot> {
      match slot
      case DiskSlot(path, size, o) =>
        var to := NewVolume(site, storage, if format.Some? then format.value else ParsePath(path).format, newId);
        Some(DiskSlot(PathText(to), size, o))
      case TpmSlot(_, version) => Some(TpmSlot(storage, version))
      case _ => None
    }

    function Place(k: Key, slot: Slot): VmState
      reads this
    {
      VmState(s.active[k := slot], s.staged[k := slot], s.running)
    }

    method ResizeDisk(k: Key, sizeKiB: nat) returns (ok: bool)
      requires Valid()
      modifies this
      ensures Valid() && trace == old(trace) + [Event(Call.ResizeDisk(k, sizeKiB), old(s), s, ok)]
      ensures Happened(site, Event(Call.ResizeDisk(k, sizeKiB), old(s), s, ok))
      ensures if ok then Resized(old(s), s, k, sizeKiB) else s == old(s)
    {
      var t := s;
      ok := false;
      if k in s.staged && k in s.active && s.active[k] == s.staged[k] && s.staged[k].DiskSlot? &&
         s.staged[k].sizeKiB < sizeKiB && FitsInt(sizeKiB)
      {
        ok := true;
        assert SoundSlot(site, k, s.staged[k]);
        t := Place(k, s.staged[k].(sizeKiB := sizeKiB));
      }
      ok := Answer(ok);
      if !ok {
        t := s;
      }
      Log(Call.ResizeDisk(k, sizeKiB), t, ok);
    }

    /** A configuration call, also the one that creates the guest. */
    method Configure(sets: map<Key, Value>, delete: string) returns (ok: bool)
      requires Valid()
      modifies this
      ensures Valid() && trace == old(trace) + [Event(Call.Configure(sets, delete), old(s), s, ok)]
      ensures Happened(site, Event(Call.Configure(sets, delete), old(s), s, ok))
      ensures if ok then Configured(site, old(s), s, sets, delete) else s == old(s)
    {
      var news: Key -> Slot := *;
      var results := map k | k in sets :: Result(sets[k], news(k));
      ok := Answer(forall k | k in sets :: Becomes(site, k, At(s.staged, k), sets[k], results[k]));
      var t := s;
      if ok {
        var names := Split(delete, ',');
        var now: Key -> bool := *;
        var staged := StagedAs(s, results, names);
        t := VmState(if s.running then ActiveAs(s, staged, now) else staged, staged, s.running);
        IsConfigured(site, s, t, sets, delete, results, now);
      }
      Log(Call.Configure(sets, delete), t, ok);
    }

    /** The slot a value leads to, given what the server comes up with. */
    function Result(value: Value, new_: Slot): Slot {
      match value
      case SetCdRom(c) => if PlainCdRom(c) then CdRomSlot(c) else new_
      case SetCloudInit(c) => if PlainCloudInit(c) then CloudInitSlot(c) else new_
      case SetFile(file, o) => if Absolute(file) then FileOf(file + OptionText(o, None)) else new_
      case SetTpm(storage, version) => TpmSlot(storage, version)
      case SetText(text) => TextSlot(text)
      case SetNumber(n) => TextSlot(Itoa(n))
      case _ => new_
    }

    method HasPendingChanges() returns (pending: bool, ok: bool)
      requires Valid()
      modifies this
      ensures Valid() && trace == old(trace) + [Event(ListPending, old(s), s, ok)]
      ensures Happened(site, Event(ListPending, old(s), s, ok))
      ensures s == old(s) && (ok ==> pending == Pending(s))
    {
      ok := Answer(true);
      pending := ok && Pending(s);
      Log(ListPending, s, ok);
    }

    method Shutdown() returns (ok: bool)
      requires Valid()
      modifies this
      ensures Valid() && trace == old(trace) + [Event(Call.Shutdown, old(s), s, ok)]
      ensures Happened(site, Event(Call.Shutdown, old(s), s, ok))
      ensures if ok then old(s).running && s == VmState(old(s).staged, old(s).staged, false) else s == old(s)
    {
      ok := Answer(s.running);
      Log(Call.Shutdown, if ok then VmState(s.staged, s.staged, false) else s, ok);
    }

    method Start() returns (ok: bool)
      requires Valid()
      modifies this
      ensures Valid() && trace == old(trace) + [Event(Call.Start, old(s), s, ok)]
      ensures Happened(site, Event(Call.Start, old(s), s, ok))
      ensures if ok then !old(s).running && s == old(s).(running := true) else s == old(s)
    {
      ok := Answer(!s.running);
      Log(Call.Start, if ok then s.(running := true) else s, ok);
    }

    method Reboot() returns (ok: bool)
      requires Valid()
      modifies this
      ensures Valid() && trace == old(trace) + [Event(Call.Reboot, old(s), s, ok)]
      ensures Happened(site, Event(Call.Reboot, old(s), s, ok))
      ensures if ok then old(s).running && s == VmState(old(s).staged, old(s).staged, true) else s == old(s)
    {
      ok := Answer(s.running);
      Log(Call.Reboot, if ok then VmState(s.staged, s.staged, true) else s, ok);
    }

    /** The configuration with its pending changes. */
    method Read() returns (config: Layout, ok: bool)
      requires Valid()
      modifies this
      ensures Valid() && trace == old(trace) + [Event(ReadConfig, old(s), s, ok)]
      ensures Happened(site, Event(ReadConfig, old(s), s, ok))
      ensures s == old(s) && (ok ==> config == s.staged)
    {
      ok := Answer(true);
      config := if ok then s.staged else map[];
      Log(ReadConfig, s, ok);
    }

    /** A call that leaves the guest as it is. */
    method Ask(call: Call) returns (ok: bool)
      requires Valid() && AsksOnly(call)
      modifies this
      ensures Valid() && trace == old(trace) + [Event(call, old(s), s, ok)]
      ensures Happened(site, Event(call, old(s), s, ok))
      ensures s == old(s)
    {
      ok := Answer(true);
      Log(call, s, ok);
    }

    /** Any call may fail, whether or not it could succeed. */
    method Answer(possible: bool) returns (ok: bool)
      ensures ok ==> possible
    {
      ok := *;
      ok := ok && possible;
    }
  }
}

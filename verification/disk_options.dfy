/** Disk and passthrough option strings: the printer `qemuDisk.mapToApiValues` and the parser
    `qemuDisk.mapToStruct` (proxmox/config_qemu_disk.go). */
module DiskOptions {
  import opened Text
  import opened Keys
  import opened Settings
  import opened DiskPath

  datatype IopsLimit = IopsLimit(concurrent: uint, burst: uint, burstDuration: uint)

  /** The options disks and passthrough devices share. */
  datatype Options = Options(
    asyncIO: string, backup: bool, cache: string, discard: bool, read: IopsLimit, write: IopsLimit,
    ioThread: bool, replicate: bool, readOnly: bool, serial: string, emulateSSD: bool, wwn: string)

  /** `qemuDisk`: a disk when `isDisk`, else a passthrough device that only has a file. */
  datatype QemuDisk = QemuDisk(
    options: Options, isDisk: bool, file: string, fileSyntax: Syntax, format: string, id: uint,
    linkedDiskId: Option<uint>, sizeKiB: uint, storage: string, bus: Bus)

  const MEBIBYTE: nat := 1024
  const GIBIBYTE: nat := 1048576
  const TEBIBYTE: nat := 1073741824
  const MINIMUM_SIZE: nat := 4097

  // ---------------------------------------------------------------- validation

  predicate ValidIops(l: IopsLimit) {
    (l.burst == 0 || l.burst >= 10) && (l.concurrent == 0 || l.concurrent >= 10)
  }

  predicate ValidAsyncIO(s: string) { s in {"", "native", "threads", "io_uring"} }

  predicate ValidCache(s: string) { s in {"", "none", "writethrough", "writeback", "unsafe", "directsync"} }

  predicate ValidSerial(s: string) {
    |s| <= 60 && forall c | c in s :: 'a' <= c <= 'z' || 'A' <= c <= 'Z' || IsDigit(c) || c == '_' || c == '-'
  }

  predicate ValidWwn(s: string) {
    s == "" ||
    (|s| == 18 && s[..2] == "0x" && forall c | c in s[2..] :: IsDigit(c) || 'a' <= c <= 'f' || 'A' <= c <= 'F')
  }

  predicate ValidFormat(s: string) { s in {"cow", "cloop", "qcow", "qcow2", "qed", "vmdk", "raw"} }

  predicate ValidOptions(o: Options) {
    ValidAsyncIO(o.asyncIO) && ValidIops(o.read) && ValidIops(o.write) && ValidCache(o.cache) &&
    ValidSerial(o.serial) && ValidWwn(o.wwn)
  }

  /** `qemuDisk.validate`. */
  predicate ValidDisk(d: QemuDisk) {
    && ValidOptions(d.options)
    && (if d.isDisk then ValidFormat(d.format) && d.sizeKiB >= MINIMUM_SIZE && d.storage != "" else d.file != "")
  }

  // ---------------------------------------------------------------- printing

  /** The options a bus knows: no I/O thread or read-only on IDE and SATA, no SSD emulation on VirtIO. */
  function ForBus(o: Options, bus: Bus): Options {
    o.(ioThread := o.ioThread && (bus == Scsi || bus == VirtIO),
       readOnly := o.readOnly && (bus == Scsi || bus == VirtIO),
       emulateSSD := o.emulateSSD && bus != VirtIO)
  }

  /** The options a device on a bus has when some are asked for: I/O threads and read-only devices exist
      on SCSI and VirtIO, SSD emulation everywhere but on VirtIO, and everything else is as asked for. */
  predicate OptionsFor(r: Options, o: Options, bus: Bus) {
    && r.ioThread == (o.ioThread && bus in {Scsi, VirtIO}) && r.readOnly == (o.readOnly && bus in {Scsi, VirtIO})
    && r.emulateSSD == (o.emulateSSD && bus != VirtIO)
    && r.asyncIO == o.asyncIO && r.backup == o.backup && r.cache == o.cache && r.discard == o.discard
    && r.read == o.read && r.write == o.write && r.replicate == o.replicate && r.serial == o.serial && r.wwn == o.wwn
  }

  lemma ForBusIs(r: Options, o: Options, bus: Bus)
    ensures OptionsFor(r, o, bus) <==> r == ForBus(o, bus)
  {
  }

  // The options, numbered in the order they are printed.
  const AIO: nat := 0
  const BACKUP: nat := 1
  const CACHE: nat := 2
  const DISCARD: nat := 3
  const FORMAT: nat := 4
  const IOPS_RD: nat := 5
  const IOPS_RD_MAX: nat := 6
  const IOPS_RD_MAX_LENGTH: nat := 7
  const IOPS_WR: nat := 8
  const IOPS_WR_MAX: nat := 9
  const IOPS_WR_MAX_LENGTH: nat := 10
  const IOTHREAD: nat := 11
  const REPLICATE: nat := 12
  const RO: nat := 13
  const SERIAL: nat := 14
  const SSD: nat := 15
  const WWN: nat := 16
  const OPTION_COUNT: nat := 17

  /** The name of an option. */
  function OptionName(i: nat): string
    requires i < OPTION_COUNT
  {
    match i
    case 0 => "aio"
    case 1 => "backup"
    case 2 => "cache"
    case 3 => "discard"
    case 4 => "format"
    case 5 => "iops_rd"
    case 6 => "iops_rd_max"
    case 7 => "iops_rd_max_length"
    case 8 => "iops_wr"
    case 9 => "iops_wr_max"
    case 10 => "iops_wr_max_length"
    case 11 => "iothread"
    case 12 => "replicate"
    case 13 => "ro"
    case 14 => "serial"
    case 15 => "ssd"
    case 16 => "wwn"
  }

  function When(present: bool, value: string): Option<string> { if present then Some(value) else None }

  function NumberText(n: uint): Option<string> { When(n != 0, UintText(n)) }

  /** The printed value of an option, absent when the option has its default. */
  function OptionValue(o: Options, format: Option<string>, i: nat): Option<string>
    requires i < OPTION_COUNT
  {
    match i
    case 0 => When(o.asyncIO != "", o.asyncIO)
    case 1 => When(!o.backup, "0")
    case 2 => When(o.cache != "", o.cache)
    case 3 => When(o.discard, "on")
    case 4 => format
    case 5 => NumberText(o.read.concurrent)
    case 6 => NumberText(o.read.burst)
    case 7 => NumberText(o.read.burstDuration)
    case 8 => NumberText(o.write.concurrent)
    case 9 => NumberText(o.write.burst)
    case 10 => NumberText(o.write.burstDuration)
    case 11 => When(o.ioThread, "1")
    case 12 => When(!o.replicate, "0")
    case 13 => When(o.readOnly, "1")
    case 14 => When(o.serial != "", o.serial)
    case 15 => When(o.emulateSSD, "1")
    case 16 => When(o.wwn != "", o.wwn)
  }

  function OptionNames(): (names: seq<string>)
    ensures |names| == OPTION_COUNT && forall i | 0 <= i < |names| :: names[i] == OptionName(i)
  {
    seq(OPTION_COUNT, i requires 0 <= i < OPTION_COUNT => OptionName(i))
  }

  function OptionValues(o: Options, format: Option<string>): (values: seq<Option<string>>)
    ensures |values| == OPTION_COUNT && forall i | 0 <= i < |values| :: values[i] == OptionValue(o, format, i)
  {
    seq(OPTION_COUNT, i requires 0 <= i < OPTION_COUNT => OptionValue(o, format, i))
  }

  function OptionText(o: Options, format: Option<string>): string {
    Leading(Parts(OptionNames(), OptionValues(o, format)))
  }

  /** The size text of a creation: whole gibibytes, or a placeholder that is resized later. */
  function CreationSize(sizeKiB: nat): string {
    if sizeKiB % GIBIBYTE == 0 then Decimal(sizeKiB / GIBIBYTE) else "0.001"
  }

  /** The first part of the string: what the device is backed by. */
  function Head(d: QemuDisk, vmID: uint, linkedVmId: uint, currentStorage: string, currentFormat: string,
                syntax: Syntax, create: bool): string
  {
    if d.file != "" then d.file
    else if d.storage == "" then ""
    else if create then d.storage + ":" + CreationSize(d.sizeKiB)
    else PathText(NamedVolume(d.storage, d.format, d.id, d.linkedDiskId, vmID, linkedVmId,
                              currentStorage, currentFormat, syntax))
  }

  function DiskText(d: QemuDisk, vmID: uint, linkedVmId: uint, currentStorage: string, currentFormat: string,
                    syntax: Syntax, create: bool): string
  {
    Head(d, vmID, linkedVmId, currentStorage, currentFormat, syntax, create) +
    OptionText(ForBus(d.options, d.bus), When(d.format != "" && create, d.format))
  }

  method MapToApiValues(disk: QemuDisk, vmID: uint, linkedVmId: uint, currentStorage: string, currentFormat: string,
                        syntax: Syntax, create: bool)
    returns (settings: string)
    ensures settings == DiskText(disk, vmID, linkedVmId, currentStorage, currentFormat, syntax, create)
  {
    var head := "";
    if disk.storage != "" {
      if create {
        head := disk.storage + ":" + CreationSize(disk.sizeKiB);
      } else {
        head := FormatDisk(disk.storage, disk.format, disk.id, disk.linkedDiskId, vmID, linkedVmId,
                           currentStorage, currentFormat, syntax);
      }
    }
    if disk.file != "" {
      head := disk.file;
    }
    var values := OptionValues(ForBus(disk.options, disk.bus), When(disk.format != "" && create, disk.format));
    settings := AppendOptions(head, OptionNames(), values);
  }

  // ---------------------------------------------------------------- parsing

  function TextOf(m: map<string, string>, key: string): string {
    if key in m then m[key] else ""
  }

  function NumberOf(m: map<string, string>, key: string): uint {
    if key in m then Atou(m[key]) else 0
  }

  predicate FlagOf(m: map<string, string>, key: string, default: bool) {
    if key in m then ParseBool(m[key]) else default
  }

  function ParseOptions(m: map<string, string>): Options {
    Options(
      TextOf(m, OptionName(AIO)), FlagOf(m, OptionName(BACKUP), true), TextOf(m, OptionName(CACHE)),
      TextOf(m, OptionName(DISCARD)) == "on",
      IopsLimit(NumberOf(m, OptionName(IOPS_RD)), NumberOf(m, OptionName(IOPS_RD_MAX)),
                NumberOf(m, OptionName(IOPS_RD_MAX_LENGTH))),
      IopsLimit(NumberOf(m, OptionName(IOPS_WR)), NumberOf(m, OptionName(IOPS_WR_MAX)),
                NumberOf(m, OptionName(IOPS_WR_MAX_LENGTH))),
      FlagOf(m, OptionName(IOTHREAD), false), FlagOf(m, OptionName(REPLICATE), true), FlagOf(m, OptionName(RO), false),
      TextOf(m, OptionName(SERIAL)),
      FlagOf(m, OptionName(SSD), false), TextOf(m, OptionName(WWN)))
  }

  /** `QemuDiskSize.parse`: a number and a unit, in kibibytes, with 64-bit wrap-around. */
  function ParseSize(raw: string): uint
    requires raw != ""
  {
    var n: nat := Atou(raw[..|raw| - 1]);
    var scaled: nat := match raw[|raw| - 1]
      case 'T' => n * TEBIBYTE
      case 'G' => n * GIBIBYTE
      case 'M' => n * MEBIBYTE
      case 'K' => n
      case _ => 0;
    scaled % 0x1_0000_0000_0000_0000
  }

  /** The size a resize call sends is the size its text is read back as. */
  lemma ResizeTextRoundTrip(sizeKiB: nat)
    requires FitsInt(sizeKiB)
    ensures ParseSize(Itoa(sizeKiB) + "K") == sizeKiB
  {
    var raw := Itoa(sizeKiB) + "K";
    assert raw[..|raw| - 1] == Itoa(sizeKiB);
    AtoiItoa(sizeKiB);
  }

  /** A passthrough device has none of the fields a volume path gives. */
  predicate NoVolume(d: QemuDisk) {
    d.storage == "" && d.format == "" && d.id == 0 && d.linkedDiskId.None? && d.fileSyntax == FileSyntax
  }

  /** `qemuDisk.mapToStruct` on a non-empty device text. */
  method MapToStruct(diskData: string, settings: map<string, string>, bus: Bus, linkedVmId: LinkedVm)
    returns (disk: QemuDisk)
    requires diskData != ""
    requires "size" in settings ==> settings["size"] != ""
    modifies linkedVmId
    ensures disk.options == ParseOptions(settings) && disk.bus == bus && disk.isDisk == (disk.file == "")
    ensures disk.sizeKiB == if "size" in settings then ParseSize(settings["size"]) else 0
    ensures diskData[0] == '/' ==> disk.file == diskData && NoVolume(disk) && linkedVmId.id == old(linkedVmId.id)
    ensures diskData[0] != '/' ==>
      var p := ParsePath(diskData);
      && disk.file == "" && disk.id == p.diskId && disk.storage == p.storage && disk.format == p.format
      && disk.linkedDiskId == p.linkedDiskId && disk.fileSyntax == p.syntax
      && linkedVmId.id == (if p.linkedVm.Some? then p.linkedVm.value else old(linkedVmId.id))
  {
    var file, id, storage, format, linkedDiskId, syntax := "", 0, "", "", None, FileSyntax;
    if diskData[0] == '/' {
      file := diskData;
    } else {
      id, storage, format, linkedDiskId, syntax := ParseDisk(diskData, linkedVmId);
    }
    var options := ParseOptions(settings);
    var size := 0;
    if "size" in settings {
      size := ParseSize(settings["size"]);
    }
    disk := QemuDisk(options, file == "", file, syntax, format, id, linkedDiskId, size, storage, bus);
  }

  // ---------------------------------------------------------------- round trip

  function OptionIndex(name: string): int {
    if name == "aio" then 0
    else if name == "backup" then 1
    else if name == "cache" then 2
    else if name == "discard" then 3
    else if name == "format" then 4
    else if name == "iops_rd" then 5
    else if name == "iops_rd_max" then 6
    else if name == "iops_rd_max_length" then 7
    else if name == "iops_wr" then 8
    else if name == "iops_wr_max" then 9
    else if name == "iops_wr_max_length" then 10
    else if name == "iothread" then 11
    else if name == "replicate" then 12
    else if name == "ro" then 13
    else if name == "serial" then 14
    else if name == "ssd" then 15
    else if name == "wwn" then 16
    else -1
  }

  lemma OptionNameIndex(i: nat)
    requires i < OPTION_COUNT
    ensures OptionIndex(OptionName(i)) == i
  {
  }

  predicate NameCharacter(c: char) { 'a' <= c <= 'z' || c == '_' }

  lemma OptionNameCharacters(i: nat)
    requires i < OPTION_COUNT
    ensures forall c | c in OptionName(i) :: NameCharacter(c)
  {
  }

  lemma OptionNameIsPlain(i: nat)
    requires i < OPTION_COUNT
    ensures OptionIndex(OptionName(i)) == i
    ensures forall c | c in OptionName(i) :: c != ',' && c != '=' && c != ':' && c != '/'
  {
    OptionNameIndex(i);
    OptionNameCharacters(i);
    assert forall c | NameCharacter(c) :: c != ',' && c != '=' && c != ':' && c != '/';
  }

  lemma NumberTextIsPlain(n: uint)
    ensures NumberText(n).Some? ==> ',' !in NumberText(n).value
  {
    var i := ToInt(n);
    DecimalHasOnlyDigits(if i < 0 then -i else i, ',');
  }

  lemma IdentityIsPlain(o: Options)
    requires ValidOptions(o)
    ensures ',' !in o.asyncIO && ',' !in o.cache && ',' !in o.serial && ',' !in o.wwn
  {
    AsyncIOIsPlain(o.asyncIO);
    CacheIsPlain(o.cache);
    WwnIsPlain(o.wwn);
  }

  lemma AsyncIOIsPlain(s: string)
    requires ValidAsyncIO(s)
    ensures ',' !in s
  {
  }

  lemma CacheIsPlain(s: string)
    requires ValidCache(s)
    ensures ',' !in s
  {
  }

  lemma WwnIsPlain(s: string)
    requires ValidWwn(s)
    ensures ',' !in s
  {
    if s != "" {
      assert s == s[..2] + s[2..];
    }
  }

  lemma OptionValueIsPlain(o: Options, format: Option<string>, i: nat)
    requires i < OPTION_COUNT
    requires ',' !in o.asyncIO && ',' !in o.cache && ',' !in o.serial && ',' !in o.wwn
    requires format.Some? ==> ',' !in format.value
    ensures OptionValue(o, format, i).Some? ==> ',' !in OptionValue(o, format, i).value
  {
    if 5 <= i <= 10 {
      NumberTextIsPlain(o.read.concurrent);
      NumberTextIsPlain(o.read.burst);
      NumberTextIsPlain(o.read.burstDuration);
      NumberTextIsPlain(o.write.concurrent);
      NumberTextIsPlain(o.write.burst);
      NumberTextIsPlain(o.write.burstDuration);
    }
  }

  lemma OptionsPrintable(o: Options, format: Option<string>)
    requires ValidOptions(o) && (format.Some? ==> ',' !in format.value)
    ensures Settings.Printable(OptionNames(), OptionValues(o, format))
  {
    var names, values := OptionNames(), OptionValues(o, format);
    IdentityIsPlain(o);
    forall i | 0 <= i < OPTION_COUNT
      ensures OptionIndex(names[i]) == i && ',' !in names[i] && '=' !in names[i]
      ensures values[i].Some? ==> ',' !in values[i].value
    {
      OptionNameIsPlain(i);
      OptionValueIsPlain(o, format, i);
    }
    PrintableFrom(names, values);
  }

  lemma PrintableFrom(names: seq<string>, values: seq<Option<string>>)
    requires |names| == |values|
    requires forall i | 0 <= i < |names| :: OptionIndex(names[i]) == i && ',' !in names[i] && '=' !in names[i]
    requires forall i | 0 <= i < |names| :: values[i].Some? ==> ',' !in values[i].value
    ensures Settings.Printable(names, values)
  {
    forall i, j | 0 <= i < j < |names|
      ensures names[i] != names[j]
    {
      assert OptionIndex(names[i]) != OptionIndex(names[j]);
    }
  }

  lemma NoOptionName(key: string)
    requires ':' in key || '/' in key
    ensures key !in OptionNames()
  {
    forall i | 0 <= i < OPTION_COUNT
      ensures OptionName(i) != key
    {
      OptionNameIsPlain(i);
    }
  }

  /** The map gives every option the value it was printed with, and every other option what the
      settings in front of the options give it. */
  ghost predicate ReadsOver(m: map<string, string>, front: map<string, string>, o: Options, format: Option<string>) {
    forall i: nat {:trigger ReadsAt(m, front, o, format, i)} | i < OPTION_COUNT :: ReadsAt(m, front, o, format, i)
  }

  ghost predicate ReadsAt(m: map<string, string>, front: map<string, string>, o: Options, format: Option<string>,
                          i: nat)
    requires i < OPTION_COUNT
  {
    Lookup(m, OptionName(i)) ==
    if OptionValue(o, format, i).Some? then OptionValue(o, format, i) else Lookup(front, OptionName(i))
  }

  lemma PrintedReadsOver(head: string, o: Options, format: Option<string>)
    requires ValidOptions(o) && (format.Some? ==> ',' !in format.value)
    ensures ReadsOver(SettingsMap(head + OptionText(o, format)), SettingsMap(head), o, format)
  {
    var names, values := OptionNames(), OptionValues(o, format);
    OptionsPrintable(o, format);
    ReadPrinted(head, names, values);
    forall i: nat | i < OPTION_COUNT
      ensures ReadsAt(SettingsMap(head + OptionText(o, format)), SettingsMap(head), o, format, i)
    {
      assert names[i] == OptionName(i) && values[i] == OptionValue(o, format, i);
    }
  }

  /** A setting that leaves an option at its default. */
  predicate ReadsDefault(i: nat, setting: Option<string>) {
    setting.Some? ==>
      if i == AIO || i == CACHE || i == SERIAL || i == WWN then setting.value == ""
      else if i == BACKUP || i == REPLICATE then ParseBool(setting.value)
      else if i == DISCARD then setting.value != "on"
      else if i == IOTHREAD || i == RO || i == SSD then !ParseBool(setting.value)
      else if i == FORMAT then true
      else Atou(setting.value) == 0
  }

  /** The text in front of the options gives no option that is not printed another value than its
      default. */
  ghost predicate Undisturbed(head: string, o: Options, format: Option<string>) {
    var front := SettingsMap(head);
    TextsFine(front, o, format) && FlagsFine(front, o, format) && ReadFine(front, o, format) &&
    WriteFine(front, o, format)
  }

  ghost predicate TextsFine(front: map<string, string>, o: Options, format: Option<string>) {
    && Fine(front, o, format, AIO) && Fine(front, o, format, CACHE) && Fine(front, o, format, SERIAL)
    && Fine(front, o, format, WWN) && Fine(front, o, format, DISCARD)
  }

  ghost predicate FlagsFine(front: map<string, string>, o: Options, format: Option<string>) {
    && Fine(front, o, format, BACKUP) && Fine(front, o, format, REPLICATE) && Fine(front, o, format, IOTHREAD)
    && Fine(front, o, format, RO) && Fine(front, o, format, SSD)
  }

  ghost predicate ReadFine(front: map<string, string>, o: Options, format: Option<string>) {
    Fine(front, o, format, IOPS_RD) && Fine(front, o, format, IOPS_RD_MAX) && Fine(front, o, format, IOPS_RD_MAX_LENGTH)
  }

  ghost predicate WriteFine(front: map<string, string>, o: Options, format: Option<string>) {
    Fine(front, o, format, IOPS_WR) && Fine(front, o, format, IOPS_WR_MAX) && Fine(front, o, format, IOPS_WR_MAX_LENGTH)
  }

  /** The option is printed, or left at its default. */
  ghost predicate Fine(front: map<string, string>, o: Options, format: Option<string>, i: nat)
    requires i < OPTION_COUNT
  {
    OptionValue(o, format, i).Some? || ReadsDefault(i, Lookup(front, OptionName(i)))
  }

  lemma ReadText(m: map<string, string>, front: map<string, string>, o: Options, format: Option<string>, i: nat,
                 text: string)
    requires (i == AIO || i == CACHE || i == SERIAL || i == WWN) && ReadsOver(m, front, o, format)
    requires OptionValue(o, format, i) == When(text != "", text)
    ensures TextOf(m, OptionName(i)) == text <==> Fine(front, o, format, i)
  {
    assert ReadsAt(m, front, o, format, i);
  }

  lemma ReadNumber(m: map<string, string>, front: map<string, string>, o: Options, format: Option<string>, i: nat,
                   n: uint)
    requires IOPS_RD <= i <= IOPS_WR_MAX_LENGTH && ReadsOver(m, front, o, format)
    requires OptionValue(o, format, i) == NumberText(n)
    ensures NumberOf(m, OptionName(i)) == n <==> Fine(front, o, format, i)
  {
    UintTextRoundTrip(n);
    assert ReadsAt(m, front, o, format, i);
  }

  lemma ReadFlag(m: map<string, string>, front: map<string, string>, o: Options, format: Option<string>, i: nat,
                 flag: bool, default: bool)
    requires if default then i == BACKUP || i == REPLICATE else i == IOTHREAD || i == RO || i == SSD
    requires ReadsOver(m, front, o, format)
    requires OptionValue(o, format, i) == When(flag != default, if flag then "1" else "0")
    ensures FlagOf(m, OptionName(i), default) == flag <==> Fine(front, o, format, i)
  {
    assert ReadsAt(m, front, o, format, i);
  }

  lemma ReadDiscard(m: map<string, string>, front: map<string, string>, o: Options, format: Option<string>)
    requires ReadsOver(m, front, o, format)
    ensures (TextOf(m, OptionName(DISCARD)) == "on") == o.discard <==> Fine(front, o, format, DISCARD)
  {
    assert ReadsAt(m, front, o, format, DISCARD);
  }

  predicate SameTexts(r: Options, o: Options) {
    r.asyncIO == o.asyncIO && r.cache == o.cache && r.serial == o.serial && r.wwn == o.wwn && r.discard == o.discard
  }

  predicate SameFlags(r: Options, o: Options) {
    && r.backup == o.backup && r.replicate == o.replicate && r.ioThread == o.ioThread && r.readOnly == o.readOnly
    && r.emulateSSD == o.emulateSSD
  }

  lemma ReadTexts(m: map<string, string>, front: map<string, string>, o: Options, format: Option<string>)
    requires ReadsOver(m, front, o, format)
    ensures SameTexts(ParseOptions(m), o) <==> TextsFine(front, o, format)
  {
    ReadText(m, front, o, format, AIO, o.asyncIO);
    ReadText(m, front, o, format, CACHE, o.cache);
    ReadText(m, front, o, format, SERIAL, o.serial);
    ReadText(m, front, o, format, WWN, o.wwn);
    ReadDiscard(m, front, o, format);
  }

  lemma ReadFlags(m: map<string, string>, front: map<string, string>, o: Options, format: Option<string>)
    requires ReadsOver(m, front, o, format)
    ensures SameFlags(ParseOptions(m), o) <==> FlagsFine(front, o, format)
  {
    ReadFlag(m, front, o, format, BACKUP, o.backup, true);
    ReadFlag(m, front, o, format, REPLICATE, o.replicate, true);
    ReadFlag(m, front, o, format, IOTHREAD, o.ioThread, false);
    ReadFlag(m, front, o, format, RO, o.readOnly, false);
    ReadFlag(m, front, o, format, SSD, o.emulateSSD, false);
  }

  lemma ReadReadLimit(m: map<string, string>, front: map<string, string>, o: Options, format: Option<string>)
    requires ReadsOver(m, front, o, format)
    ensures ParseOptions(m).read == o.read <==> ReadFine(front, o, format)
  {
    ReadNumber(m, front, o, format, IOPS_RD, o.read.concurrent);
    ReadNumber(m, front, o, format, IOPS_RD_MAX, o.read.burst);
    ReadNumber(m, front, o, format, IOPS_RD_MAX_LENGTH, o.read.burstDuration);
  }

  lemma ReadWriteLimit(m: map<string, string>, front: map<string, string>, o: Options, format: Option<string>)
    requires ReadsOver(m, front, o, format)
    ensures ParseOptions(m).write == o.write <==> WriteFine(front, o, format)
  {
    ReadNumber(m, front, o, format, IOPS_WR, o.write.concurrent);
    ReadNumber(m, front, o, format, IOPS_WR_MAX, o.write.burst);
    ReadNumber(m, front, o, format, IOPS_WR_MAX_LENGTH, o.write.burstDuration);
  }

  lemma SameOptions(r: Options, o: Options)
    ensures r == o <==> SameTexts(r, o) && SameFlags(r, o) && r.read == o.read && r.write == o.write
  {
  }

  lemma ReadBackExactly(head: string, p: Options, format: Option<string>)
    requires ValidOptions(p) && (format.Some? ==> ',' !in format.value)
    ensures ParseOptions(SettingsMap(head + OptionText(p, format))) == p <==> Undisturbed(head, p, format)
  {
    var m, front := SettingsMap(head + OptionText(p, format)), SettingsMap(head);
    PrintedReadsOver(head, p, format);
    ReadTexts(m, front, p, format);
    ReadFlags(m, front, p, format);
    ReadReadLimit(m, front, p, format);
    ReadWriteLimit(m, front, p, format);
    SameOptions(ParseOptions(m), p);
  }

  /** Every option printed for a validated disk or passthrough device is read back, under the rules
      of its bus and the defaults of the parser, exactly when the text in front leaves the options
      that are not printed alone. */
  lemma OptionsRoundTrip(head: string, o: Options, bus: Bus, format: Option<string>)
    requires ValidOptions(o) && (format.Some? ==> ',' !in format.value)
    ensures OptionsFor(ParseOptions(SettingsMap(head + OptionText(ForBus(o, bus), format))), o, bus) <==>
            Undisturbed(head, ForBus(o, bus), format)
  {
    ReadBackExactly(head, ForBus(o, bus), format);
    ForBusIs(ParseOptions(SettingsMap(head + OptionText(ForBus(o, bus), format))), o, bus);
  }

  // ---------------------------------------------------------------- whole strings

  predicate PlainStorage(storage: string) {
    storage != "" && ':' !in storage && ',' !in storage && '=' !in storage
  }

  predicate Absolute(file: string) { file != "" && file[0] == '/' }

  predicate PlainFile(file: string) { Absolute(file) && ',' !in file }

  /** A head that is one setting under a name no option has. */
  predicate QuietHead(head: string) {
    ',' !in head && (':' in KeyOf(head) || '/' in KeyOf(head))
  }

  lemma QuietIsUndisturbed(head: string, o: Options, format: Option<string>)
    requires QuietHead(head)
    ensures Undisturbed(head, o, format)
  {
    OneSetting(head);
    NoOptionName(KeyOf(head));
    forall i: nat | i < OPTION_COUNT
      ensures OptionName(i) !in SettingsMap(head)
    {
      assert OptionNames()[i] == OptionName(i);
    }
  }

  lemma FileIsQuiet(file: string)
    requires PlainFile(file)
    ensures QuietHead(file)
  {
    var cut := CutAt(file, '=');
    assert cut.0[0] == '/';
  }

  lemma PathIsQuiet(v: Volume)
    requires DiskPath.Printable(v) && PlainStorage(v.storage) && ',' !in v.format
    ensures QuietHead(PathText(v))
  {
    NoCommaInPath(v);
    CutAtSkips(v.storage + ":", Join(Segments(v), '/'), '=');
    assert ':' in v.storage + ":";
  }

  lemma NoCommaInPath(v: Volume)
    requires ',' !in v.storage && ',' !in v.format
    ensures ',' !in PathText(v)
  {
    NoCommaInSegments(v);
    JoinHasNo(Segments(v), '/', ',');
  }

  lemma NoCommaInSegments(v: Volume)
    requires ',' !in v.format
    ensures forall s | s in Segments(v) :: ',' !in s
  {
    UintTextIsPlain(v.owner, ',');
    DiskNameIsPlain("vm", v.owner, v.id, ',');
    if v.base.Some? {
      var b := v.base.value;
      UintTextIsPlain(b.vm, ',');
      DiskNameIsPlain("base", b.vm, b.disk, ',');
    }
  }

  lemma ValidFormatIsPlain(format: string)
    requires ValidFormat(format)
    ensures ':' !in format && '.' !in format && '/' !in format && ',' !in format
  {
  }

  lemma HeadIsCut(head: string, o: Options)
    requires ValidOptions(o)
    ensures CutAt(head + OptionText(o, None), ',').0 == head <==> ',' !in head
  {
    if ',' !in head {
      OptionsPrintable(o, None);
      HeadOf(head, OptionNames(), OptionValues(o, None));
    }
  }

  /** The file a device text is read as: what is in front of the first comma, if it starts with a slash. */
  function FileRead(text: string): string {
    var head := CutAt(text, ',').0;
    if Absolute(head) then head else ""
  }

  lemma HeadIsAbsolute(file: string, o: Options)
    ensures Absolute(CutAt(file + OptionText(o, None), ',').0) ==> Absolute(file)
    ensures Absolute(file) ==> Absolute(CutAt(file + OptionText(o, None), ',').0)
  {
    var text := file + OptionText(o, None);
    var cut := CutAt(text, ',');
    if Absolute(file) {
      assert text[0] == '/';
    } else if file == "" {
      OptionTextIsLed(o);
      assert text == OptionText(o, None);
    } else {
      assert text[0] == file[0];
    }
  }

  lemma OptionTextIsLed(o: Options)
    ensures OptionText(o, None) == "" || OptionText(o, None)[0] == ','
  {
    var parts := Parts(OptionNames(), OptionValues(o, None));
    if parts != [] {
      LeadingIsComma(parts);
    }
  }

  /** A whole non-create string of a passthrough device gives back the file and every option exactly
      when the file is absolute and has no comma. */
  lemma FileRoundTrip(d: QemuDisk, vmID: uint, linkedVmId: uint, currentStorage: string, currentFormat: string,
                      syntax: Syntax)
    requires ValidDisk(d) && !d.isDisk
    ensures var text := DiskText(d, vmID, linkedVmId, currentStorage, currentFormat, syntax, false);
            FileRead(text) == d.file && OptionsFor(ParseOptions(SettingsMap(text)), d.options, d.bus) <==>
            PlainFile(d.file)
  {
    var p := ForBus(d.options, d.bus);
    HeadIsCut(d.file, p);
    HeadIsAbsolute(d.file, p);
    if PlainFile(d.file) {
      FileIsQuiet(d.file);
      QuietIsUndisturbed(d.file, p, None);
      OptionsRoundTrip(d.file, d.options, d.bus, None);
    }
  }

  /** A file with a comma is read as another file, and can set an option that was not asked for:
      `/dev/x,ro=1` is read as `/dev/x`, read-only, with the other options as asked for. */
  lemma FileCanSetOption(front: string, o: Options, bus: Bus)
    requires PlainFile(front) && ValidOptions(o) && !ForBus(o, bus).readOnly
    ensures var text := (front + [','] + (OptionName(RO) + "=" + "1")) + OptionText(ForBus(o, bus), None);
            var read := ParseOptions(SettingsMap(text));
            && CutAt(text, ',').0 == front && read.readOnly
            && OptionsFor(read.(readOnly := false), o.(readOnly := false), bus)
    ensures var text := (front + [','] + (OptionName(RO) + "=" + "1")) + OptionText(ForBus(o, bus), None);
            ParseOptions(SettingsMap(text)) == ForBus(o, bus).(readOnly := true)
  {
    var p, setting := ForBus(o, bus), OptionName(RO) + "=" + "1";
    var q, head := p.(readOnly := true), front + [','] + setting;
    PrintedReadsOver(head, p, None);
    PrintedReadsOver(front, q, None);
    OptionNameIsPlain(RO);
    FrontReads(front, OptionName(RO), "1");
    forall i: nat | i < OPTION_COUNT
      ensures Lookup(SettingsMap(head + OptionText(p, None)), OptionName(i)) ==
              Lookup(SettingsMap(front + OptionText(q, None)), OptionName(i))
    {
      OptionNameIsPlain(i);
      assert ReadsAt(SettingsMap(head + OptionText(p, None)), SettingsMap(head), p, None, i);
      assert ReadsAt(SettingsMap(front + OptionText(q, None)), SettingsMap(front), q, None, i);
      ReadOnlySet(p, i);
    }
    SameLookups(SettingsMap(head + OptionText(p, None)), SettingsMap(front + OptionText(q, None)));
    FileIsQuiet(front);
    QuietReads(front, q);
    CutInFront(front, setting, OptionText(p, None));
  }

  lemma ReadOnlySet(p: Options, i: nat)
    requires i < OPTION_COUNT && !p.readOnly
    ensures OptionValue(p.(readOnly := true), None, i) == if i == RO then Some("1") else OptionValue(p, None, i)
    ensures i == RO ==> OptionValue(p, None, i).None?
  {
  }

  lemma SameLookups(m: map<string, string>, n: map<string, string>)
    requires forall i: nat | i < OPTION_COUNT :: Lookup(m, OptionName(i)) == Lookup(n, OptionName(i))
    ensures ParseOptions(m) == ParseOptions(n)
  {
    forall i: nat | i < OPTION_COUNT
      ensures TextOf(m, OptionName(i)) == TextOf(n, OptionName(i))
      ensures NumberOf(m, OptionName(i)) == NumberOf(n, OptionName(i))
      ensures FlagOf(m, OptionName(i), true) == FlagOf(n, OptionName(i), true)
      ensures FlagOf(m, OptionName(i), false) == FlagOf(n, OptionName(i), false)
    {
      assert Lookup(m, OptionName(i)) == Lookup(n, OptionName(i));
    }
  }

  /** Options behind a quiet head are read back whatever their bus. */
  lemma QuietReads(head: string, o: Options)
    requires QuietHead(head) && ValidOptions(o)
    ensures ParseOptions(SettingsMap(head + OptionText(o, None))) == o
  {
    QuietIsUndisturbed(head, o, None);
    ReadBackExactly(head, o, None);
  }

  lemma CutInFront(a: string, b: string, c: string)
    requires ',' !in a
    ensures CutAt((a + [','] + b) + c, ',').0 == a
  {
    CutAtFirst(a, b + c, ',');
    assert (a + [','] + b) + c == a + [','] + (b + c);
  }

  /** One setting behind a front that is one setting itself. */
  lemma FrontReads(front: string, key: string, value: string)
    requires ',' !in front && ',' !in key && '=' !in key && ',' !in value
    ensures SettingsMap(front + [','] + (key + "=" + value)) == SettingsMap(front)[key := value]
  {
    var part := key + "=" + value;
    SplitFirst(front, part, ',');
    SplitPlain(part, ',');
    SplitPlain(front, ',');
    FoldPart([front], key, value);
  }

  /** A whole non-create string of a disk: its volume path and all its options are read back exactly
      when the storage has neither a colon nor a comma, the numbers of the path fit an `int`, and the
      path does not read as an option that is not printed, which takes a storage with a `=`. */
  lemma DiskRoundTrip(d: QemuDisk, vmID: uint, linkedVmId: uint, currentStorage: string, currentFormat: string,
                      syntax: Syntax)
    requires ValidDisk(d) && d.isDisk && d.file == ""
    ensures var v := NamedVolume(d.storage, d.format, d.id, d.linkedDiskId, vmID, linkedVmId, currentStorage,
                                 currentFormat, syntax);
            var text := DiskText(d, vmID, linkedVmId, currentStorage, currentFormat, syntax, false);
            && (ParsePath(CutAt(text, ',').0) == Meant(v) &&
                OptionsFor(ParseOptions(SettingsMap(text)), d.options, d.bus) <==>
                 ':' !in d.storage && ',' !in d.storage && NumbersFit(v) &&
                 Undisturbed(PathText(v), ForBus(d.options, d.bus), None))
            && (PlainStorage(d.storage) ==> Undisturbed(PathText(v), ForBus(d.options, d.bus), None))
  {
    var p := ForBus(d.options, d.bus);
    var v := NamedVolume(d.storage, d.format, d.id, d.linkedDiskId, vmID, linkedVmId, currentStorage, currentFormat,
                         syntax);
    var head := PathText(v);
    ValidFormatIsPlain(d.format);
    OptionsRoundTrip(head, d.options, d.bus, None);
    if ':' !in d.storage && ',' !in d.storage {
      NoCommaInPath(v);
      HeadIsCut(head, p);
      PathRoundTrip(v);
      if PlainStorage(d.storage) {
        PathIsQuiet(v);
        QuietIsUndisturbed(head, p, None);
      }
    } else {
      StorageIsCut(CutAt(head + OptionText(p, None), ',').0);
    }
  }

  /** The text that creates a disk names the storage, the size in whole gibibytes or the placeholder, and the
      format, and reads as the options. */
  lemma CreationRoundTrip(d: QemuDisk, vmID: uint, linkedVmId: uint, currentStorage: string, currentFormat: string,
                          syntax: Syntax)
    requires ValidDisk(d) && d.isDisk && d.file == "" && PlainStorage(d.storage)
    ensures var text := DiskText(d, vmID, linkedVmId, currentStorage, currentFormat, syntax, true);
            && CutAt(text, ',').0 ==
               d.storage + ":" + (if d.sizeKiB % GIBIBYTE == 0 then Decimal(d.sizeKiB / GIBIBYTE) else "0.001")
            && Lookup(SettingsMap(text), "format") == Some(d.format)
            && OptionsFor(ParseOptions(SettingsMap(text)), d.options, d.bus)
  {
    var head, format := d.storage + ":" + CreationSize(d.sizeKiB), Some(d.format);
    ValidFormatIsPlain(d.format);
    FormatIsNoEmpty(d.format);
    CreationHeadIsQuiet(d.storage, d.sizeKiB);
    QuietIsUndisturbed(head, ForBus(d.options, d.bus), format);
    OptionsRoundTrip(head, d.options, d.bus, format);
    OptionsUnderTheirNames(head, d.options, d.bus, format);
  }

  /** Every option is printed under its own name, in the text the server takes for it; one with its default is
      not printed. */
  lemma OptionsUnderTheirNames(head: string, o: Options, bus: Bus, format: Option<string>)
    requires QuietHead(head) && ValidOptions(o) && (format.Some? ==> ',' !in format.value)
    ensures var text := head + OptionText(ForBus(o, bus), format);
            var m := SettingsMap(text);
            && CutAt(text, ',').0 == head && Lookup(m, "format") == format
            && IdentityNamed(m, o) && LimitsNamed(m, o) && FlagsNamed(m, o, bus)
  {
    var p := ForBus(o, bus);
    var m, front := SettingsMap(head + OptionText(p, format)), SettingsMap(head);
    PrintedReadsOver(head, p, format);
    OptionsPrintable(p, format);
    HeadOf(head, OptionNames(), OptionValues(p, format));
    forall i: nat | i < OPTION_COUNT
      ensures PrintedAt(m, p, format, i)
    {
      QuietHasNoOption(head, i);
      assert ReadsAt(m, front, p, format, i);
    }
    IdentityIsNamed(m, o, bus, format);
    LimitsAreNamed(m, o, bus, format);
    FlagsAreNamed(m, o, bus, format);
  }

  predicate IdentityNamed(m: map<string, string>, o: Options) {
    && Lookup(m, "aio") == When(o.asyncIO != "", o.asyncIO) && Lookup(m, "cache") == When(o.cache != "", o.cache)
    && Lookup(m, "serial") == When(o.serial != "", o.serial) && Lookup(m, "wwn") == When(o.wwn != "", o.wwn)
    && Lookup(m, "discard") == When(o.discard, "on")
  }

  predicate LimitsNamed(m: map<string, string>, o: Options) {
    && Lookup(m, "iops_rd") == NumberText(o.read.concurrent) && Lookup(m, "iops_rd_max") == NumberText(o.read.burst)
    && Lookup(m, "iops_rd_max_length") == NumberText(o.read.burstDuration)
    && Lookup(m, "iops_wr") == NumberText(o.write.concurrent) && Lookup(m, "iops_wr_max") == NumberText(o.write.burst)
    && Lookup(m, "iops_wr_max_length") == NumberText(o.write.burstDuration)
  }

  predicate FlagsNamed(m: map<string, string>, o: Options, bus: Bus) {
    && Lookup(m, "backup") == When(!o.backup, "0") && Lookup(m, "replicate") == When(!o.replicate, "0")
    && Lookup(m, "iothread") == When(o.ioThread && bus in {Scsi, VirtIO}, "1")
    && Lookup(m, "ro") == When(o.readOnly && bus in {Scsi, VirtIO}, "1")
    && Lookup(m, "ssd") == When(o.emulateSSD && bus != VirtIO, "1")
  }

  /** Every option has the value it is printed with. */
  ghost predicate PrintedBy(m: map<string, string>, p: Options, format: Option<string>) {
    forall i: nat | i < OPTION_COUNT :: PrintedAt(m, p, format, i)
  }

  predicate PrintedAt(m: map<string, string>, p: Options, format: Option<string>, i: nat)
    requires i < OPTION_COUNT
  {
    Lookup(m, OptionName(i)) == OptionValue(p, format, i)
  }

  lemma IdentityIsNamed(m: map<string, string>, o: Options, bus: Bus, format: Option<string>)
    requires PrintedBy(m, ForBus(o, bus), format)
    ensures IdentityNamed(m, o)
  {
    assert PrintedAt(m, ForBus(o, bus), format, AIO);
    assert PrintedAt(m, ForBus(o, bus), format, CACHE);
    assert PrintedAt(m, ForBus(o, bus), format, SERIAL);
    assert PrintedAt(m, ForBus(o, bus), format, WWN);
    assert PrintedAt(m, ForBus(o, bus), format, DISCARD);
  }

  lemma LimitsAreNamed(m: map<string, string>, o: Options, bus: Bus, format: Option<string>)
    requires PrintedBy(m, ForBus(o, bus), format)
    ensures LimitsNamed(m, o)
  {
    assert PrintedAt(m, ForBus(o, bus), format, IOPS_RD);
    assert PrintedAt(m, ForBus(o, bus), format, IOPS_RD_MAX);
    assert PrintedAt(m, ForBus(o, bus), format, IOPS_RD_MAX_LENGTH);
    assert PrintedAt(m, ForBus(o, bus), format, IOPS_WR);
    assert PrintedAt(m, ForBus(o, bus), format, IOPS_WR_MAX);
    assert PrintedAt(m, ForBus(o, bus), format, IOPS_WR_MAX_LENGTH);
  }

  lemma FlagsAreNamed(m: map<string, string>, o: Options, bus: Bus, format: Option<string>)
    requires PrintedBy(m, ForBus(o, bus), format)
    ensures FlagsNamed(m, o, bus) && Lookup(m, "format") == format
  {
    assert PrintedAt(m, ForBus(o, bus), format, BACKUP);
    assert PrintedAt(m, ForBus(o, bus), format, REPLICATE);
    assert PrintedAt(m, ForBus(o, bus), format, IOTHREAD);
    assert PrintedAt(m, ForBus(o, bus), format, RO);
    assert PrintedAt(m, ForBus(o, bus), format, SSD);
    assert PrintedAt(m, ForBus(o, bus), format, FORMAT);
  }

  lemma QuietHasNoOption(head: string, i: nat)
    requires QuietHead(head) && i < OPTION_COUNT
    ensures Lookup(SettingsMap(head), OptionName(i)).None?
  {
    OneSetting(head);
    NoOptionName(KeyOf(head));
    assert OptionNames()[i] == OptionName(i);
  }

  lemma FormatIsNoEmpty(format: string)
    requires ValidFormat(format)
    ensures format != ""
  {
  }

  lemma CreationHeadIsQuiet(storage: string, sizeKiB: nat)
    requires PlainStorage(storage)
    ensures QuietHead(storage + ":" + CreationSize(sizeKiB)) && ',' !in CreationSize(sizeKiB)
  {
    if sizeKiB % GIBIBYTE == 0 {
      DecimalHasOnlyDigits(sizeKiB / GIBIBYTE, ',');
    }
    CutAtSkips(storage + ":", CreationSize(sizeKiB), '=');
    assert ':' in storage + ":";
  }

  /** A storage that is read from a text without a comma has neither a comma nor a colon. */
  lemma StorageIsCut(diskData: string)
    requires ',' !in diskData
    ensures ',' !in ParsePath(diskData).storage && ':' !in ParsePath(diskData).storage
  {
    SplitHasNo(diskData, ':', ',');
    var parts := Split(diskData, ':');
    assert parts[0] in parts;
  }

  lemma {:induction false} SplitHasNo(s: string, sep: char, c: char)
    requires c !in s
    ensures forall p | p in Split(s, sep) :: c !in p
  {
    if s != "" {
      SplitHasNo(s[1..], sep, c);
      var rest := Split(s[1..], sep);
      assert forall p | p in rest[1..] :: p in rest;
      assert rest[0] in rest;
    }
  }

  lemma DeviceStringRoundTrip(head: string, o: Options, bus: Bus)
    requires ValidOptions(o) && QuietHead(head)
    ensures var text := head + OptionText(ForBus(o, bus), None);
            CutAt(text, ',').0 == head && ParseOptions(SettingsMap(text)) == ForBus(o, bus)
  {
    var p := ForBus(o, bus);
    ForBusIs(ParseOptions(SettingsMap(head + OptionText(p, None))), o, bus);
    QuietIsUndisturbed(head, p, None);
    OptionsRoundTrip(head, o, bus, None);
    HeadIsCut(head, p);
  }

  /** Two device strings are equal only when they say the same: comparing the printed forms, as
      the planner does, compares the devices. */
  lemma DeviceStringInjective(head: string, o: Options, head': string, o': Options, bus: Bus)
    requires ValidOptions(o) && ValidOptions(o') && QuietHead(head) && QuietHead(head')
    requires head + OptionText(ForBus(o, bus), None) == head' + OptionText(ForBus(o', bus), None)
    ensures head == head' && ForBus(o, bus) == ForBus(o', bus)
  {
    DeviceStringRoundTrip(head, o, bus);
    DeviceStringRoundTrip(head', o', bus);
  }
}

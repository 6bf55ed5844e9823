/** Volume paths of guest disks: the printer `qemuDisk.formatDisk` and the parser
    `qemuDisk.parseDisk` (proxmox/config_qemu_disk.go). */
module DiskPath {
  import opened Text

  datatype Syntax = FileSyntax | VolumeSyntax

  /** The base image a linked clone was made from. */
  datatype Base = Base(vm: uint, disk: uint)

  /** What a volume path says. */
  datatype Volume = Volume(storage: string, owner: uint, id: uint, format: string, base: Option<Base>, syntax: Syntax)

  const RAW := "raw"

  // ---------------------------------------------------------------- printing

  /** `vm-100-disk-0` or `base-110-disk-1`. */
  function DiskName(prefix: string, vm: uint, disk: uint): string {
    prefix + "-" + UintText(vm) + "-disk-" + UintText(disk)
  }

  /** The parts between the slashes, in the four shapes a path can have. */
  function Segments(v: Volume): seq<string> {
    match v.syntax
    case FileSyntax =>
      (match v.base
       case Some(b) => [UintText(b.vm), DiskName("base", b.vm, b.disk) + "." + v.format]
       case None => []) +
      [UintText(v.owner), DiskName("vm", v.owner, v.id) + "." + v.format]
    case VolumeSyntax =>
      (match v.base
       case Some(b) => [DiskName("base", b.vm, b.disk)]
       case None => []) +
      [DiskName("vm", v.owner, v.id)]
  }

  function PathText(v: Volume): string { v.storage + ":" + Join(Segments(v), '/') }

  /** The volume an update names for a disk: its own, linked to the base image of the guest
      when the disk is a linked clone that stays where it is. */
  function NamedVolume(storage: string, format: string, id: uint, linkedDiskId: Option<uint>,
                       vmID: uint, linkedVmId: uint, currentStorage: string, currentFormat: string,
                       syntax: Syntax): Volume
  {
    var linked := linkedDiskId.Some? && storage == currentStorage &&
                  (syntax == FileSyntax ==> format == currentFormat);
    Volume(storage, vmID, id, format, if linked then Some(Base(linkedVmId, linkedDiskId.value)) else None, syntax)
  }

  method FormatDisk(storage: string, format: string, id: uint, linkedDiskId: Option<uint>,
                    vmID: uint, linkedVmId: uint, currentStorage: string, currentFormat: string, syntax: Syntax)
    returns (settings: string)
    ensures settings == PathText(NamedVolume(storage, format, id, linkedDiskId, vmID, linkedVmId,
                                             currentStorage, currentFormat, syntax))
  {
    ghost var v := NamedVolume(storage, format, id, linkedDiskId, vmID, linkedVmId, currentStorage, currentFormat,
                               syntax);
    settings := DiskName("vm", vmID, id);
    match syntax {
      case FileSyntax =>
        settings := UintText(vmID) + "/" + (settings + "." + format);
        if linkedDiskId.Some? && storage == currentStorage && format == currentFormat {
          var base := DiskName("base", linkedVmId, linkedDiskId.value);
          settings := UintText(linkedVmId) + "/" + (base + "." + format) + "/" + settings;
        }
        PathFileText(v);
      case VolumeSyntax =>
        if linkedDiskId.Some? && storage == currentStorage {
          settings := DiskName("base", linkedVmId, linkedDiskId.value) + "/" + settings;
        }
        PathVolumeText(v);
    }
    settings := storage + ":" + settings;
  }

  lemma PathFileText(v: Volume)
    requires v.syntax == FileSyntax
    ensures var own := UintText(v.owner) + "/" + (DiskName("vm", v.owner, v.id) + "." + v.format);
            Join(Segments(v), '/') ==
            match v.base
            case None => own
            case Some(b) => UintText(b.vm) + "/" + (DiskName("base", b.vm, b.disk) + "." + v.format) + "/" + own
  {
    var name := DiskName("vm", v.owner, v.id) + "." + v.format;
    JoinTwo(UintText(v.owner), name);
    if v.base.Some? {
      var b := v.base.value;
      var baseName := DiskName("base", b.vm, b.disk) + "." + v.format;
      JoinTwo(UintText(b.vm), baseName);
      JoinAppend([UintText(b.vm), baseName], [UintText(v.owner), name], '/');
    }
  }

  lemma PathVolumeText(v: Volume)
    requires v.syntax == VolumeSyntax
    ensures var own := DiskName("vm", v.owner, v.id);
            Join(Segments(v), '/') ==
            match v.base
            case None => own
            case Some(b) => DiskName("base", b.vm, b.disk) + "/" + own
  {
    if v.base.Some? {
      var b := v.base.value;
      JoinAppend([DiskName("base", b.vm, b.disk)], [DiskName("vm", v.owner, v.id)], '/');
    }
  }

  /** The four shapes of a path, written out. */
  lemma PathsInFull(v: Volume)
    ensures var own := "vm-" + UintText(v.owner) + "-disk-" + UintText(v.id);
            PathText(v) == v.storage + ":" + (
              match (v.syntax, v.base)
              case (FileSyntax, None) => UintText(v.owner) + "/" + (own + "." + v.format)
              case (FileSyntax, Some(b)) =>
                UintText(b.vm) + "/" + ("base-" + UintText(b.vm) + "-disk-" + UintText(b.disk) + "." + v.format) + "/" +
                (UintText(v.owner) + "/" + (own + "." + v.format))
              case (VolumeSyntax, None) => own
              case (VolumeSyntax, Some(b)) => "base-" + UintText(b.vm) + "-disk-" + UintText(b.disk) + "/" + own)
  {
    NamesInFull(v.owner, v.id);
    if v.base.Some? {
      NamesInFull(v.base.value.vm, v.base.value.disk);
    }
    if v.syntax == FileSyntax {
      PathFileText(v);
    } else {
      PathVolumeText(v);
    }
  }

  lemma NamesInFull(vm: uint, disk: uint)
    ensures DiskName("vm", vm, disk) == "vm-" + UintText(vm) + "-disk-" + UintText(disk)
    ensures DiskName("base", vm, disk) == "base-" + UintText(vm) + "-disk-" + UintText(disk)
  {
    assert "vm" + "-" == "vm-" && "base" + "-" == "base-";
  }

  lemma JoinTwo(a: string, b: string)
    ensures Join([a, b], '/') == a + "/" + b
  {
    assert [a, b][1..] == [b];
  }

  // ---------------------------------------------------------------- parsing

  /** The results of `parseDisk`; `linkedVm` is present when the caller's linked VM id is written. */
  datatype Parsed = Parsed(diskId: uint, storage: string, format: string, linkedDiskId: Option<uint>,
                           syntax: Syntax, linkedVm: Option<uint>)

  /** The variable the caller of the parser passes by reference. */
  class LinkedVm {
    var id: uint
    constructor ()
      ensures id == 0
    {
      id := 0;
    }
  }

  /** The number an `-` separated name ends with, if it has several parts and the last is a number. */
  function TrailingNumber(parts: seq<string>): Option<uint>
    requires |parts| >= 1
  {
    var r := Atoi(parts[|parts| - 1]);
    if |parts| > 1 && r.ok then Some(ToUint(r.value)) else None
  }

  function NameParts(segment: string): seq<string> { Split(Split(segment, '.')[0], '-') }

  /** What the last path segment says: the disk id, and the format, raw unless it is given. */
  function OwnId(segment: string): uint {
    match TrailingNumber(NameParts(segment)) case Some(n) => n case None => 0
  }

  function OwnFormat(segment: string): string {
    var dots := Split(segment, '.');
    if |dots| == 2 then dots[1] else RAW
  }

  function ParsePath(diskData: string): Parsed {
    var parts := Split(diskData, ':');
    if |parts| != 2 then Parsed(0, parts[0], "", None, FileSyntax, None)
    else ParseSegments(parts[0], Split(parts[1], '/'))
  }

  /** The path behind the colon. */
  function ParseSegments(storage: string, path: seq<string>): Parsed
    requires path != []
  {
    var own := path[|path| - 1];
    var result := Parsed(OwnId(own), storage, OwnFormat(own), None, FileSyntax, None);
    if |path| == 1 then result.(syntax := VolumeSyntax)
    else if |path| == 2 && !Atoi(path[0]).ok then
      var name := NameParts(path[0]);
      if |name| <= 1 then result
      else
        var vm := Atoi(name[1]);
        result.(linkedVm := if vm.ok then Some(ToUint(vm.value)) else None,
                linkedDiskId := TrailingNumber(name), syntax := VolumeSyntax)
    else if |path| == 4 then
      var vm := Atoi(path[0]);
      result.(linkedVm := if vm.ok then Some(ToUint(vm.value)) else None,
              linkedDiskId := TrailingNumber(NameParts(path[1])))
    else result
  }

  method ParseDisk(diskData: string, linkedVmId: LinkedVm)
    returns (diskId: uint, storage: string, format: string, linkedDiskId: Option<uint>, syntax: Syntax)
    modifies linkedVmId
    ensures var p := ParsePath(diskData);
            && diskId == p.diskId && storage == p.storage && format == p.format
            && linkedDiskId == p.linkedDiskId && syntax == p.syntax
            && linkedVmId.id == (if p.linkedVm.Some? then p.linkedVm.value else old(linkedVmId.id))
  {
    diskId, format, linkedDiskId, syntax := 0, "", None, FileSyntax;
    var parts := Split(diskData, ':');
    storage := parts[0];
    if |parts| != 2 {
      return;
    }
    var pathParts := Split(parts[1], '/');
    if |pathParts| == 1 {
      syntax := VolumeSyntax;
    } else if |pathParts| == 2 {
      if !Atoi(pathParts[0]).ok { // linked clone
        var tmp := NameParts(pathParts[0]);
        if |tmp| > 1 {
          WriteNumber(tmp[1], linkedVmId);
          linkedDiskId := TrailingNumber(tmp);
          syntax := VolumeSyntax;
        }
      }
    } else if |pathParts| == 4 { // linked clone
      WriteNumber(pathParts[0], linkedVmId);
      linkedDiskId := TrailingNumber(NameParts(pathParts[1]));
    }
    diskId, format := ParseOwn(pathParts[|pathParts| - 1]);
  }

  /** Writes the number through the reference unless the text is no number. */
  method WriteNumber(text: string, target: LinkedVm)
    modifies target
    ensures target.id == if Atoi(text).ok then ToUint(Atoi(text).value) else old(target.id)
  {
    var tmpVmId := Atoi(text);
    if tmpVmId.ok {
      target.id := ToUint(tmpVmId.value);
    }
  }

  method ParseOwn(segment: string) returns (diskId: uint, format: string)
    ensures diskId == OwnId(segment) && format == OwnFormat(segment)
  {
    diskId := 0;
    var diskNameAndFormat := Split(segment, '.');
    var tmp := Split(diskNameAndFormat[0], '-');
    if |tmp| > 1 {
      var tmpDiskId := Atoi(tmp[|tmp| - 1]);
      if tmpDiskId.ok {
        diskId := ToUint(tmpDiskId.value);
      }
    }
    if |diskNameAndFormat| == 2 {
      format := diskNameAndFormat[1];
    } else {
      format := RAW;
    }
  }

  // ---------------------------------------------------------------- round trip

  /** A volume whose names have none of the separators of its path. */
  predicate Printable(v: Volume) {
    ':' !in v.storage && ':' !in v.format && '.' !in v.format && '/' !in v.format
  }

  /** The parts of a number between dashes: one above 2^63 is printed as a negative `int`. */
  function NumberParts(n: uint): seq<string> {
    if ToInt(n) < 0 then ["", Decimal(-ToInt(n))] else [Decimal(ToInt(n))]
  }

  lemma UintTextIsPlain(n: uint, c: char)
    requires !IsDigit(c) && c != '-'
    ensures c !in UintText(n)
  {
    var i := ToInt(n);
    DecimalHasOnlyDigits(if i < 0 then -i else i, c);
  }

  lemma SplitNumber(n: uint)
    ensures Split(UintText(n), '-') == NumberParts(n)
  {
    var i := ToInt(n);
    var digits := Decimal(if i < 0 then -i else i);
    DecimalHasOnlyDigits(if i < 0 then -i else i, '-');
    SplitPlain(digits, '-');
    if i < 0 {
      SplitFirst("", digits, '-');
      assert "" + ['-'] + digits == "-" + digits;
    }
  }

  lemma SplitNumberFirst(n: uint, rest: string)
    ensures Split(UintText(n) + ['-'] + rest, '-') == NumberParts(n) + Split(rest, '-')
  {
    var i := ToInt(n);
    var digits := Decimal(if i < 0 then -i else i);
    DecimalHasOnlyDigits(if i < 0 then -i else i, '-');
    SplitFirst(digits, rest, '-');
    if i < 0 {
      SplitFirst("", digits + ['-'] + rest, '-');
      assert "" + ['-'] + (digits + ['-'] + rest) == ("-" + digits) + ['-'] + rest;
    }
  }

  lemma DiskNameParts(prefix: string, vm: uint, disk: uint)
    requires '-' !in prefix
    ensures Split(DiskName(prefix, vm, disk), '-') == [prefix] + NumberParts(vm) + ["disk"] + NumberParts(disk)
  {
    var last := UintText(disk);
    var behind := "disk" + ['-'] + last;
    SplitNumber(disk);
    SplitFirst("disk", last, '-');
    SplitNumberFirst(vm, behind);
    SplitFirst(prefix, UintText(vm) + ['-'] + behind, '-');
    NameRegrouped(prefix, UintText(vm), last);
  }

  lemma NameRegrouped(prefix: string, vm: string, disk: string)
    ensures prefix + "-" + vm + "-disk-" + disk == prefix + ['-'] + (vm + ['-'] + ("disk" + ['-'] + disk))
  {
    assert "-disk-" == "-" + "disk" + "-";
  }

  /** A disk name contains none of the separators of the surrounding path. */
  lemma DiskNameIsPlain(prefix: string, vm: uint, disk: uint, c: char)
    requires c !in prefix && !IsDigit(c) && c !in "-disk-"
    ensures c !in DiskName(prefix, vm, disk)
  {
    assert "-disk-"[0] == '-';
    UintTextIsPlain(vm, c);
    UintTextIsPlain(disk, c);
  }

  /** What a number at the end of a name is read as: its digits, without the sign in front. */
  function LastNumber(n: uint): Option<uint> {
    if FitsInt(n) then Some(n) else if n == INT_LIMIT then None else Some(2 * INT_LIMIT - n)
  }

  lemma LastNumberIsRead(parts: seq<string>, n: uint)
    requires parts != []
    ensures TrailingNumber(parts + NumberParts(n)) == LastNumber(n)
  {
    var i := ToInt(n);
    var digits := if i < 0 then -i else i;
    var all := parts + NumberParts(n);
    assert all[|all| - 1] == Decimal(digits);
    DecimalValue(digits);
    DecimalHasOnlyDigits(digits, '-');
    DecimalHasOnlyDigits(digits, '+');
    assert Decimal(digits)[0] in Decimal(digits);
  }

  /** The parts of a name, and the two dot separated parts of a named segment in file syntax. */
  lemma FileSegment(prefix: string, vm: uint, disk: uint, format: string)
    requires prefix == "vm" || prefix == "base"
    requires '.' !in format
    ensures var s := DiskName(prefix, vm, disk) + "." + format;
            TrailingNumber(NameParts(s)) == LastNumber(disk) && OwnFormat(s) == format
  {
    var name := DiskName(prefix, vm, disk);
    DiskNameIsPlain(prefix, vm, disk, '.');
    SplitFirst(name, format, '.');
    SplitPlain(format, '.');
    DiskNameParts(prefix, vm, disk);
    LastNumberIsRead([prefix] + NumberParts(vm) + ["disk"], disk);
  }

  lemma VolumeSegment(prefix: string, vm: uint, disk: uint)
    requires prefix == "vm" || prefix == "base"
    ensures var s := DiskName(prefix, vm, disk);
            && |NameParts(s)| > 1 && NameParts(s)[1] == NumberParts(vm)[0]
            && TrailingNumber(NameParts(s)) == LastNumber(disk)
            && OwnFormat(s) == RAW
            && !Atoi(s).ok
  {
    var name := DiskName(prefix, vm, disk);
    DiskNameIsPlain(prefix, vm, disk, '.');
    SplitPlain(name, '.');
    DiskNameParts(prefix, vm, disk);
    LastNumberIsRead([prefix] + NumberParts(vm) + ["disk"], disk);
    assert name[0] == prefix[0] && prefix[0] != '-' && prefix[0] != '+' && !IsDigit(prefix[0]);
  }

  lemma SegmentsArePlain(v: Volume, c: char)
    requires c == '/' || c == ':'
    requires Printable(v)
    ensures forall s | s in Segments(v) :: c !in s
  {
    UintTextIsPlain(v.owner, c);
    DiskNameIsPlain("vm", v.owner, v.id, c);
    if v.base.Some? {
      var b := v.base.value;
      UintTextIsPlain(b.vm, c);
      DiskNameIsPlain("base", b.vm, b.disk, c);
    }
  }

  lemma {:induction false} JoinHasNo(parts: seq<string>, sep: char, c: char)
    requires c != sep && forall p | p in parts :: c !in p
    ensures c !in Join(parts, sep)
  {
    if |parts| > 1 {
      JoinHasNo(parts[1..], sep, c);
    }
  }

  lemma PathSplits(v: Volume)
    requires Printable(v)
    ensures Split(PathText(v), ':') == [v.storage, Join(Segments(v), '/')]
    ensures Split(Join(Segments(v), '/'), '/') == Segments(v)
  {
    SegmentsArePlain(v, ':');
    SegmentsArePlain(v, '/');
    JoinHasNo(Segments(v), '/', ':');
    SplitFirst(v.storage, Join(Segments(v), '/'), ':');
    SplitPlain(Join(Segments(v), '/'), ':');
    SplitJoin(Segments(v), '/');
  }

  /** What a printed path is read as, whatever its numbers. A linked VM id from 2^63 on is read in
      file syntax only. */
  function ReadBack(v: Volume): Parsed {
    Parsed(
      match LastNumber(v.id) case Some(n) => n case None => 0,
      v.storage, if v.syntax == FileSyntax then v.format else RAW,
      if v.base.Some? then LastNumber(v.base.value.disk) else None, v.syntax,
      if v.base.Some? && (v.syntax == FileSyntax || FitsInt(v.base.value.vm)) then Some(v.base.value.vm) else None)
  }

  /** What the path says. */
  function Meant(v: Volume): Parsed {
    Parsed(
      v.id, v.storage, if v.syntax == FileSyntax then v.format else RAW,
      if v.base.Some? then Some(v.base.value.disk) else None, v.syntax,
      if v.base.Some? then Some(v.base.value.vm) else None)
  }

  lemma AtoiUintText(n: uint)
    ensures Atoi(UintText(n)) == AtoiResult(ToInt(n), true) && ToUint(ToInt(n)) == n
  {
    AtoiItoa(ToInt(n));
  }

  lemma FirstPart(n: uint)
    ensures Atoi(NumberParts(n)[0]).ok <==> FitsInt(n)
    ensures FitsInt(n) ==> Atoi(NumberParts(n)[0]).value == n
  {
    if FitsInt(n) {
      AtoiItoa(n);
    }
  }

  lemma PathIsRead(v: Volume)
    requires Printable(v)
    ensures ParsePath(PathText(v)) == ReadBack(v)
  {
    PathSplits(v);
    if v.syntax == FileSyntax {
      FilePathIsRead(v);
    } else {
      VolumePathIsRead(v);
    }
  }

  lemma FilePathIsRead(v: Volume)
    requires Printable(v) && v.syntax == FileSyntax
    ensures ParseSegments(v.storage, Segments(v)) == ReadBack(v)
  {
    AtoiUintText(v.owner);
    FileSegment("vm", v.owner, v.id, v.format);
    if v.base.Some? {
      LinkedFileIsRead(v, v.base.value);
    }
  }

  lemma LinkedFileIsRead(v: Volume, b: Base)
    requires Printable(v) && v.syntax == FileSyntax && v.base == Some(b)
    ensures var p := ParseSegments(v.storage, Segments(v));
            p.linkedVm == Some(b.vm) && p.linkedDiskId == LastNumber(b.disk) && p.syntax == FileSyntax
  {
    FileSegment("base", b.vm, b.disk, v.format);
    AtoiUintText(b.vm);
  }

  lemma VolumePathIsRead(v: Volume)
    requires Printable(v) && v.syntax == VolumeSyntax
    ensures ParseSegments(v.storage, Segments(v)) == ReadBack(v)
  {
    VolumeSegment("vm", v.owner, v.id);
    if v.base.Some? {
      var b := v.base.value;
      VolumeSegment("base", b.vm, b.disk);
      FirstPart(b.vm);
    }
  }

  /** The numbers that are read back fit the `int` they are read into; the owner is not read. */
  predicate NumbersFit(v: Volume) {
    && FitsInt(v.id)
    && (v.base.Some? ==> FitsInt(v.base.value.disk) && (v.syntax == VolumeSyntax ==> FitsInt(v.base.value.vm)))
  }

  /** Parsing a printed path gives back the id, the storage, the linked disk and the syntax in
      all four shapes; the format in file syntax and raw in volume syntax; and it writes the
      linked VM id exactly when the path is linked. It does so exactly when the numbers fit. */
  lemma PathRoundTrip(v: Volume)
    requires Printable(v)
    ensures ParsePath(PathText(v)) == Meant(v) <==> NumbersFit(v)
  {
    PathIsRead(v);
  }

  /** A disk id is read back exactly when it fits an `int`. */
  lemma IdReadsBack(v: Volume)
    requires Printable(v)
    ensures ParsePath(PathText(v)).diskId == v.id <==> FitsInt(v.id)
  {
    PathIsRead(v);
  }

  /** A storage name is read back exactly when it has no colon, whatever the rest of the path says. */
  lemma StorageReadsBack(v: Volume)
    requires Printable(v.(storage := ""))
    ensures ParsePath(PathText(v)).storage == v.storage <==> ':' !in v.storage
  {
    if ':' !in v.storage {
      PathIsRead(v);
    } else {
      var parts := Split(PathText(v), ':');
      assert parts[0] in parts;
    }
  }

  // ---------------------------------------------------------------- injectivity

  /** A path names one volume: two volumes have the same path exactly when they are equal, up to
      the format, which volume syntax does not print. */
  lemma PathInjective(u: Volume, v: Volume)
    requires Printable(u) && Printable(v)
    ensures PathText(u) == PathText(v) <==> u == if u.syntax == VolumeSyntax then v.(format := u.format) else v
  {
    assert u == (if u.syntax == VolumeSyntax then v.(format := u.format) else v) ==> Segments(u) == Segments(v);
    if PathText(u) == PathText(v) {
      PathSplits(u);
      PathSplits(v);
      PathIsRead(u);
      PathIsRead(v);
      SameSegments(u, v);
    }
  }

  lemma SameSegments(u: Volume, v: Volume)
    requires Printable(u) && Printable(v)
    requires Segments(u) == Segments(v) && u.syntax == v.syntax
    ensures u.owner == v.owner && u.id == v.id && u.base == v.base
    ensures u.syntax == FileSyntax ==> u.format == v.format
  {
    var n := |Segments(u)|;
    assert Segments(u)[n - 1] == Segments(v)[n - 1];
    if u.syntax == FileSyntax {
      SameFile("vm", u.owner, u.id, u.format, v.owner, v.id, v.format);
      if n == 4 {
        assert Segments(u)[1] == Segments(v)[1];
        SameFile("base", u.base.value.vm, u.base.value.disk, u.format, v.base.value.vm, v.base.value.disk, v.format);
      }
    } else {
      SameName("vm", u.owner, u.id, v.owner, v.id);
      if n == 2 {
        assert Segments(u)[0] == Segments(v)[0];
        SameName("base", u.base.value.vm, u.base.value.disk, v.base.value.vm, v.base.value.disk);
      }
    }
  }

  lemma SameFile(prefix: string, vm: uint, disk: uint, format: string, vm': uint, disk': uint, format': string)
    requires prefix == "vm" || prefix == "base"
    requires DiskName(prefix, vm, disk) + "." + format == DiskName(prefix, vm', disk') + "." + format'
    ensures vm == vm' && disk == disk' && format == format'
  {
    DiskNameIsPlain(prefix, vm, disk, '.');
    DiskNameIsPlain(prefix, vm', disk', '.');
    CutUnique(DiskName(prefix, vm, disk), format, DiskName(prefix, vm', disk'), format', '.');
    SameName(prefix, vm, disk, vm', disk');
  }

  /** The first `d` of a name is that of `disk`: the numbers around it are the same. */
  lemma SameName(prefix: string, vm: uint, disk: uint, vm': uint, disk': uint)
    requires prefix == "vm" || prefix == "base"
    requires DiskName(prefix, vm, disk) == DiskName(prefix, vm', disk')
    ensures vm == vm' && disk == disk'
  {
    UintTextIsPlain(vm, 'd');
    UintTextIsPlain(vm', 'd');
    var a, c := prefix + "-" + UintText(vm) + "-", prefix + "-" + UintText(vm') + "-";
    CutAtDisk(prefix + "-" + UintText(vm), UintText(disk));
    CutAtDisk(prefix + "-" + UintText(vm'), UintText(disk'));
    CutUnique(a, "isk-" + UintText(disk), c, "isk-" + UintText(disk'), 'd');
    SameMiddle(prefix + "-", UintText(vm), UintText(vm'), "-");
    SameMiddle("isk-", UintText(disk), UintText(disk'), "");
    UintTextRoundTrip(vm);
    UintTextRoundTrip(vm');
    UintTextRoundTrip(disk);
    UintTextRoundTrip(disk');
  }

  lemma CutAtDisk(a: string, b: string)
    ensures a + "-disk-" + b == (a + "-") + ['d'] + ("isk-" + b)
  {
    assert "-disk-" == "-" + ['d'] + "isk-";
  }

  lemma SameMiddle(a: string, b: string, c: string, d: string)
    requires a + b + d == a + c + d || (d == "" && a + b == a + c)
    ensures b == c
  {
    assert |b| == |c|;
    assert b == (a + b)[|a|..] && c == (a + c)[|a|..];
    if a + b + d == a + c + d {
      assert a + b == (a + b + d)[..|a| + |b|] && a + c == (a + c + d)[..|a| + |c|];
    }
  }
}

/** The parameters of a configuration call: the values that are set, and the comma-separated
    list of names to delete (`params` and `itemsToDelete` in proxmox/config_qemu.go). */
module ApiParams {
  import opened Text
  import opened Keys
  import Settings
  import opened DiskOptions

  datatype IsoFile = IsoFile(storage: string, file: string)

  datatype CdRom = CdRom(iso: Option<IsoFile>, passthrough: bool)

  datatype CloudInitDisk = CloudInitDisk(format: string, storage: string)

  /** What a parameter is set to. `ValueText` is the text that is sent for it. */
  datatype Value =
    | SetCdRom(cdRom: CdRom)
    | SetCloudInit(cloudInit: CloudInitDisk)
    | SetNewDisk(storage: string, sizeKiB: nat, format: string, options: Options)
    | SetVolume(path: string, options: Options)
    | SetFile(file: string, options: Options)
    | SetTpm(storage: string, version: string)
    | SetText(text: string)
    | SetNumber(number: int)

  /** `QemuCdRom.mapToApiValues`. */
  function CdRomText(c: CdRom): string {
    if c.passthrough then "cdrom,media=cdrom"
    else match c.iso
      case Some(iso) => iso.storage + ":iso/" + iso.file + ",media=cdrom"
      case None => "none,media=cdrom"
  }

  /** `QemuCloudInitDisk.mapToApiValues`. */
  function CloudInitText(c: CloudInitDisk): string {
    c.storage + ":cloudinit,format=" + c.format
  }

  function ValueText(v: Value): string {
    match v
    case SetCdRom(c) => CdRomText(c)
    case SetCloudInit(c) => CloudInitText(c)
    case SetNewDisk(storage, size, format, options) =>
      storage + ":" + CreationSize(size) + OptionText(options, When(format != "", format))
    case SetVolume(path, options) => path + OptionText(options, None)
    case SetFile(file, options) => file + OptionText(options, None)
    case SetTpm(storage, version) => storage + ":1,version=" + version
    case SetText(text) => text
    case SetNumber(n) => Itoa(n)
  }

  /** A CD-ROM whose text says no more than its ISO file: the storage ends at the colon, and the text has
      only the comma in front of the media. */
  predicate PlainCdRom(c: CdRom) {
    c.iso.Some? ==> !c.passthrough && ':' !in c.iso.value.storage && ',' !in c.iso.value.storage &&
                    ',' !in c.iso.value.file
  }

  /** A CD-ROM whose text has more settings than the ISO file and the media. */
  predicate CommaCdRom(c: CdRom) {
    c.iso.Some? && !c.passthrough && (',' in c.iso.value.storage || ',' in c.iso.value.file)
  }

  predicate PlainCloudInit(c: CloudInitDisk) { ':' !in c.storage && ',' !in c.storage && ValidFormat(c.format) }

  /** It never reads like one whose text has none. */
  lemma CommaCdRomDiffers(c: CdRom, d: CdRom)
    requires CommaCdRom(c) && PlainCdRom(d)
    ensures CdRomText(c) != CdRomText(d)
  {
    var mine, media := c.iso.value.storage + ":iso/" + c.iso.value.file, ",media=cdrom";
    var its := if d.passthrough then "cdrom" else if d.iso.Some? then d.iso.value.storage + ":iso/" + d.iso.value.file
               else "none";
    assert CdRomText(c) == mine + media && CdRomText(d) == its + media;
    assert ',' in mine && ',' !in its;
    SameFront(mine, its, media);
  }

  lemma SameFront(a: string, b: string, behind: string)
    ensures a + behind == b + behind ==> a == b
  {
    if a + behind == b + behind {
      assert a == (a + behind)[..|a|] && b == (b + behind)[..|b|];
    }
  }

  /** The text of a CD-ROM says what it is, the drive of the host, nothing or an ISO file, and that it is one. */
  lemma CdRomTextReads(c: CdRom)
    requires PlainCdRom(c)
    ensures CutAt(CdRomText(c), ',').0 ==
            if c.passthrough then "cdrom"
            else match c.iso case Some(iso) => iso.storage + ":iso/" + iso.file case None => "none"
    ensures Settings.Lookup(Settings.SettingsMap(CdRomText(c)), "media") == Some("cdrom")
  {
    var head := if c.passthrough then "cdrom"
                else match c.iso case Some(iso) => iso.storage + ":iso/" + iso.file case None => "none";
    assert ",media=cdrom" == [','] + ("media" + "=" + "cdrom");
    assert CdRomText(c) == head + [','] + ("media" + "=" + "cdrom");
    FrontReads(head, "media", "cdrom");
    CutAtFirst(head, "media" + "=" + "cdrom", ',');
  }

  /** The text of a cloud-init disk names its storage and its format. */
  lemma CloudInitTextReads(c: CloudInitDisk)
    requires PlainCloudInit(c)
    ensures CutAt(CloudInitText(c), ',').0 == c.storage + ":cloudinit"
    ensures Settings.Lookup(Settings.SettingsMap(CloudInitText(c)), "format") == Some(c.format)
  {
    var head := c.storage + ":cloudinit";
    ValidFormatIsPlain(c.format);
    assert ":cloudinit,format=" == ":cloudinit" + [','] + ("format" + "=");
    assert CloudInitText(c) == head + [','] + ("format" + "=" + c.format);
    FrontReads(head, "format", c.format);
    CutAtFirst(head, "format" + "=" + c.format, ',');
  }

  /** The text of a TPM state gives back its storage and its version. */
  lemma TpmTextReads(storage: string, version: string)
    requires ':' !in storage && ',' !in storage && ',' !in version && ':' !in version
    ensures var text := ValueText(SetTpm(storage, version));
            && Split(text, ':')[0] == storage && |Split(text, ':')| > 1
            && Settings.Lookup(Settings.SettingsMap(text), "version") == Some(version)
  {
    var head, setting := storage + ":1", "version" + "=" + version;
    assert ":1,version=" == ":1" + [','] + ("version" + "=");
    assert ValueText(SetTpm(storage, version)) == head + [','] + setting;
    FrontReads(head, "version", version);
    assert head + [','] + setting == storage + [':'] + ("1" + [','] + setting);
    SplitFirst(storage, "1" + [','] + setting, ':');
  }

  /** The text of a CD-ROM keeps the storage and the file. */
  lemma CdRomTextInjective(c: CdRom, d: CdRom)
    requires PlainCdRom(c) && PlainCdRom(d) && CdRomText(c) == CdRomText(d)
    ensures c == d
  {
    IsoHasColon(c);
    IsoHasColon(d);
    if c.iso.Some? && d.iso.Some? {
      var a, b := c.iso.value, d.iso.value;
      IsoTextCuts(a.storage, a.file);
      IsoTextCuts(b.storage, b.file);
      CutUnique(a.storage, "iso/" + a.file + ",media=cdrom", b.storage, "iso/" + b.file + ",media=cdrom", ':');
      SameBetween("iso/", a.file, b.file, ",media=cdrom");
    } else {
      BareTexts();
    }
  }

  lemma IsoHasColon(c: CdRom)
    requires PlainCdRom(c)
    ensures c.iso.Some? <==> ':' in CdRomText(c)
  {
    BareTexts();
    if c.iso.Some? {
      IsoTextCuts(c.iso.value.storage, c.iso.value.file);
      assert CdRomText(c)[|c.iso.value.storage|] == ':';
    }
  }

  lemma BareTexts()
    ensures ':' !in "cdrom,media=cdrom" && ':' !in "none,media=cdrom" && "cdrom,media=cdrom" != "none,media=cdrom"
  {
    assert "cdrom,media=cdrom"[0] != "none,media=cdrom"[0];
  }

  lemma IsoTextCuts(storage: string, file: string)
    ensures storage + ":iso/" + file + ",media=cdrom" == storage + [':'] + ("iso/" + file + ",media=cdrom")
  {
    assert ":iso/" == [':'] + "iso/";
  }

  lemma SameBetween(front: string, a: string, b: string, behind: string)
    requires front + a + behind == front + b + behind
    ensures a == b
  {
    assert a == (front + a + behind)[|front|..|front| + |a|];
    assert b == (front + b + behind)[|front|..|front| + |b|];
  }

  /** The text of a cloud-init disk keeps the storage and the format. */
  lemma CloudInitTextInjective(c: CloudInitDisk, d: CloudInitDisk)
    requires ':' !in c.storage && ':' !in d.storage && CloudInitText(c) == CloudInitText(d)
    ensures c == d
  {
    var rest := "cloudinit,format=";
    assert CloudInitText(c) == c.storage + [':'] + (rest + c.format);
    assert CloudInitText(d) == d.storage + [':'] + (rest + d.format);
    CutUnique(c.storage, rest + c.format, d.storage, rest + d.format, ':');
    assert c.format == (rest + c.format)[|rest|..] && d.format == (rest + d.format)[|rest|..];
  }

  // ---------------------------------------------------------------- texts on the server

  /** The text under a parameter name, absent when there is none. */
  function TextAt(texts: map<Key, string>, k: Key): Option<string> { if k in texts then Some(texts[k]) else None }

  /** The number under a parameter name. */
  function NumberAt(texts: map<Key, string>, w: Word): Option<nat> {
    match TextAt(texts, Plain(w))
    case Some(text) => Some(if AllDigits(text) then DigitsValue(text) else 0)
    case None => None
  }

  /** A call sets, deletes or leaves a parameter. */
  predicate Patched(before: map<Key, string>, after: map<Key, string>, k: Key, set_: Option<Value>, deleted: bool) {
    TextAt(after, k) == if set_.Some? then Some(ValueText(set_.value)) else if deleted then None else TextAt(before, k)
  }

  predicate Unchanged(before: map<Key, string>, after: map<Key, string>, k: Key) {
    TextAt(after, k) == TextAt(before, k)
  }

  /** The Go map every `mapToAPI` writes its parameters into. */
  class Params {
    var values: map<Key, Value>

    constructor ()
      ensures values == map[]
    {
      values := map[];
    }
  }

  // ---------------------------------------------------------------- delete list

  /** `AddToList` (proxmox/util.go). */
  function AddToList(list: string, newItem: string): string {
    if list != "" then list + "," + newItem else newItem
  }

  function Names(keys: seq<Key>): (names: seq<string>)
    ensures |names| == |keys| && forall i | 0 <= i < |keys| :: names[i] == Name(keys[i])
  {
    if keys == [] then [] else Names(keys[..|keys| - 1]) + [Name(keys[|keys| - 1])]
  }

  /** The well-formed list of the names of some keys. */
  function ListText(keys: seq<Key>): string { Join(Names(keys), ',') }

  /** The same names, each with a comma in front. */
  function CommaText(keys: seq<Key>): string { Settings.Leading(Names(keys)) }

  /** The text under assembly: a well-formed list, possibly still with the comma that the
      concatenation of `",name"` items leaves in front. */
  ghost predicate Assembles(text: string, keys: seq<Key>) {
    if keys == [] then text == "" else text == ListText(keys) || text == "," + ListText(keys)
  }

  /** `strings.TrimPrefix(text, ",")`. */
  function TrimComma(text: string): string {
    if text != "" && text[0] == ',' then text[1..] else text
  }

  lemma {:induction false} NamesAppend(a: seq<Key>, b: seq<Key>)
    ensures Names(a + b) == Names(a) + Names(b)
  {
    var both, joined := Names(a + b), Names(a) + Names(b);
    assert forall i | 0 <= i < |both| :: both[i] == joined[i];
  }

  lemma NamesArePlain(keys: seq<Key>)
    ensures forall n | n in Names(keys) :: n != "" && ',' !in n
  {
    forall i | 0 <= i < |keys|
      ensures Names(keys)[i] != "" && ',' !in Names(keys)[i]
    {
      NameIsListItem(keys[i]);
    }
  }

  lemma ListTextNonEmpty(keys: seq<Key>)
    requires keys != []
    ensures ListText(keys) != "" && ListText(keys)[0] != ','
  {
    NamesArePlain(keys);
    assert Names(keys)[0] in Names(keys);
  }

  /** The list splits into exactly the names it was made from. */
  lemma ListTextSplits(keys: seq<Key>)
    requires keys != []
    ensures Split(ListText(keys), ',') == Names(keys)
  {
    NamesArePlain(keys);
    SplitJoin(Names(keys), ',');
  }

  lemma ListTextAppend(a: seq<Key>, b: seq<Key>)
    requires a != [] && b != []
    ensures ListText(a + b) == ListText(a) + "," + ListText(b)
  {
    NamesAppend(a, b);
    JoinAppend(Names(a), Names(b), ',');
  }

  lemma CommaTextIsList(keys: seq<Key>)
    requires keys != []
    ensures CommaText(keys) == "," + ListText(keys)
  {
    Settings.LeadingIsComma(Names(keys));
  }

  lemma CommaSnoc(keys: seq<Key>, k: Key)
    ensures CommaText(keys + [k]) == CommaText(keys) + ("," + Name(k))
  {
    NamesAppend(keys, [k]);
    assert Names([k]) == [Name(k)];
    var names := Names(keys);
    assert (names + [Name(k)])[..|names|] == names;
    assert CommaText(keys) + "," + Name(k) == CommaText(keys) + ("," + Name(k));
  }

  lemma CommaAppend(a: seq<Key>, b: seq<Key>)
    ensures CommaText(a + b) == CommaText(a) + CommaText(b)
  {
    NamesAppend(a, b);
    Settings.LeadingAppend(Names(a), Names(b));
  }

  /** Exactly the keys for which `sets` holds were written. */
  ghost predicate Wrote(before: map<Key, Value>, after: map<Key, Value>, sets: Key -> bool) {
    && (forall k :: k in after <==> k in before || sets(k))
    && (forall k | k in before && !sets(k) :: after[k] == before[k])
  }

  /** Appends `,name` when the item has to go. */
  method Drop(text: string, ghost keys: seq<Key>, when_: bool, w: Word) returns (longer: string)
    requires text == CommaText(keys)
    ensures longer == CommaText(keys + if when_ then [Plain(w)] else [])
  {
    longer := text;
    if when_ {
      CommaSnoc(keys, Plain(w));
      longer := longer + ("," + WordText(w));
      assert WordText(w) + "" == WordText(w);
    } else {
      assert keys + [] == keys;
    }
  }

  /** `AddToList` adds a non-empty list of names to the text under assembly. */
  lemma AddToListAssembles(text: string, keys: seq<Key>, more: seq<Key>)
    requires Assembles(text, keys) && more != []
    ensures Assembles(AddToList(text, ListText(more)), keys + more)
  {
    if keys == [] {
      assert keys + more == more;
    } else {
      ListTextAppend(keys, more);
      ListTextNonEmpty(keys);
      CommaInFront(ListText(keys), ListText(more));
    }
  }

  lemma CommaInFront(a: string, b: string)
    ensures AddToList("," + a, b) == "," + (a + "," + b)
  {
  }

  /** Concatenating comma-prefixed names does the same. */
  lemma ConcatAssembles(text: string, keys: seq<Key>, more: seq<Key>)
    requires Assembles(text, keys)
    ensures Assembles(text + CommaText(more), keys + more)
  {
    if more == [] {
      assert keys + more == keys && text + "" == text;
    } else {
      CommaTextIsList(more);
      if keys == [] {
        assert keys + more == more && "" + CommaText(more) == CommaText(more);
      } else {
        ListTextAppend(keys, more);
        Reassociate(ListText(keys), ListText(more));
      }
    }
  }

  lemma Reassociate(a: string, b: string)
    ensures a + ("," + b) == a + "," + b
    ensures ("," + a) + ("," + b) == "," + (a + "," + b)
  {
  }

  lemma TrimAssembled(text: string, keys: seq<Key>)
    requires Assembles(text, keys)
    ensures TrimComma(text) == ListText(keys)
    ensures text == "" <==> keys == []
  {
    if keys == [] {
    } else {
      ListTextNonEmpty(keys);
      if text == "," + ListText(keys) {
        assert text[1..] == ListText(keys);
      }
    }
  }

  /** The keys a delete list names, among some candidates. */
  ghost function NamedIn(list: string, candidates: set<Key>): set<Key> {
    set k | k in candidates && Name(k) in Split(list, ',')
  }

  /** The server deletes exactly the keys the list was assembled from. */
  lemma NamedInList(keys: seq<Key>, candidates: set<Key>)
    ensures NamedIn(ListText(keys), candidates) == set k | k in candidates && k in keys
  {
    if keys == [] {
      assert Split(ListText(keys), ',') == [""];
    } else {
      ListTextSplits(keys);
    }
    forall k | k in candidates
      ensures Name(k) in Split(ListText(keys), ',') <==> k in keys
    {
      NameIsListItem(k);
      if keys != [] {
        NamedOnce(keys, k);
      }
    }
  }

  lemma NamedOnce(keys: seq<Key>, k: Key)
    ensures Name(k) in Names(keys) <==> k in keys
  {
    if Name(k) in Names(keys) {
      var i :| 0 <= i < |keys| && Names(keys)[i] == Name(k);
      NameInjective(keys[i], k);
    }
    if k in keys {
      var i :| 0 <= i < |keys| && keys[i] == k;
      assert Names(keys)[i] == Name(k);
    }
  }

  // ---------------------------------------------------------------- each item once

  predicate Once(keys: seq<Key>) { forall i, j | 0 <= i < j < |keys| :: keys[i] != keys[j] }

  lemma OnceAppend(a: seq<Key>, b: seq<Key>)
    requires Once(a) && Once(b) && forall k | k in a :: k !in b
    ensures Once(a + b)
  {
    var both := a + b;
    forall i, j | 0 <= i < j < |both|
      ensures both[i] != both[j]
    {
      if i < |a| <= j {
        assert both[i] in a && both[j] in b;
      }
    }
  }

  /** Every item of the list is named once. */
  lemma NamedAtMostOnce(keys: seq<Key>)
    requires keys != [] && Once(keys)
    ensures var items := Split(ListText(keys), ','); forall i, j | 0 <= i < j < |items| :: items[i] != items[j]
  {
    ListTextSplits(keys);
    var items := Names(keys);
    forall i, j | 0 <= i < j < |items|
      ensures items[i] != items[j]
    {
      if items[i] == items[j] {
        NameInjective(keys[i], keys[j]);
      }
    }
  }
}

/** The parameter names of a guest configuration. A key is structured here; its name is the
    text the server sees, and distinct keys have distinct names. */
module Keys {
  import opened Text

  datatype Bus = Ide | Sata | Scsi | VirtIO

  /** The number of slots of each bus (config_qemu_disk_*.go). */
  function SlotCount(bus: Bus): nat {
    match bus
    case Ide => 4
    case Sata => 6
    case Scsi => 31
    case VirtIO => 16
  }

  function Prefix(bus: Bus): string {
    match bus
    case Ide => "ide"
    case Sata => "sata"
    case Scsi => "scsi"
    case VirtIO => "virtio"
  }

  datatype Word =
    | Affinity | Cores | CpuLimit | Numa | Sockets | Cpu | CpuUnits | Vcpus
    | CiCustom | CiUser | CiPassword | SearchDomain | NameServer | SshKeys | CiUpgrade
    | Memory | Balloon | Shares

  function WordText(w: Word): string {
    match w
    case Affinity => "affinity"
    case Cores => "cores"
    case CpuLimit => "cpulimit"
    case Numa => "numa"
    case Sockets => "sockets"
    case Cpu => "cpu"
    case CpuUnits => "cpuunits"
    case Vcpus => "vcpus"
    case CiCustom => "cicustom"
    case CiUser => "ciuser"
    case CiPassword => "cipassword"
    case SearchDomain => "searchdomain"
    case NameServer => "nameserver"
    case SshKeys => "sshkeys"
    case CiUpgrade => "ciupgrade"
    case Memory => "memory"
    case Balloon => "balloon"
    case Shares => "shares"
  }

  datatype Key =
    | Drive(bus: Bus, slot: nat)
    | TpmState
    | IpConfig(id: nat)
    | Serial(id: nat)
    | Plain(word: Word)

  /** The letters a name starts with. */
  function Letters(k: Key): string {
    match k
    case Drive(bus, _) => Prefix(bus)
    case TpmState => "tpmstate"
    case IpConfig(_) => "ipconfig"
    case Serial(_) => "serial"
    case Plain(word) => WordText(word)
  }

  /** The number a name ends with, if any. */
  function Index(k: Key): Option<nat> {
    match k
    case Drive(_, slot) => Some(slot)
    case TpmState => Some(0)
    case IpConfig(id) => Some(id)
    case Serial(id) => Some(id)
    case Plain(_) => None
  }

  function Name(k: Key): string {
    Letters(k) + match Index(k) case Some(n) => Decimal(n) case None => ""
  }

  /** Every parameter is sent under the name the server knows. */
  lemma NamesInFull(n: nat)
    ensures Name(Drive(Ide, n)) == "ide" + Decimal(n) && Name(Drive(Sata, n)) == "sata" + Decimal(n)
    ensures Name(Drive(Scsi, n)) == "scsi" + Decimal(n) && Name(Drive(VirtIO, n)) == "virtio" + Decimal(n)
    ensures Name(IpConfig(n)) == "ipconfig" + Decimal(n) && Name(Serial(n)) == "serial" + Decimal(n)
    ensures Name(TpmState) == "tpmstate0"
    ensures forall w :: Name(Plain(w)) ==
              match w
              case Affinity => "affinity" case Cores => "cores" case CpuLimit => "cpulimit" case Numa => "numa"
              case Sockets => "sockets" case Cpu => "cpu" case CpuUnits => "cpuunits" case Vcpus => "vcpus"
              case CiCustom => "cicustom" case CiUser => "ciuser" case CiPassword => "cipassword"
              case SearchDomain => "searchdomain" case NameServer => "nameserver" case SshKeys => "sshkeys"
              case CiUpgrade => "ciupgrade" case Memory => "memory" case Balloon => "balloon" case Shares => "shares"
  {
    assert Decimal(0) == "0";
    forall w
      ensures Name(Plain(w)) == WordText(w)
    {
      assert WordText(w) + "" == WordText(w);
    }
  }

  // ---------------------------------------------------------------- injectivity

  /** The longest prefix without a digit. */
  function LetterPrefix(s: string): string {
    if s == "" || IsDigit(s[0]) then "" else [s[0]] + LetterPrefix(s[1..])
  }

  predicate NoDigit(s: string) { forall c | c in s :: !IsDigit(c) }

  lemma {:induction false} LetterPrefixOf(letters: string, digits: string)
    requires NoDigit(letters) && AllDigits(digits)
    ensures LetterPrefix(letters + digits) == letters
  {
    if letters == "" {
      assert letters + digits == digits;
    } else {
      assert (letters + digits)[1..] == letters[1..] + digits;
      LetterPrefixOf(letters[1..], digits);
      assert [letters[0]] + letters[1..] == letters;
    }
  }

  lemma WordsHaveNoDigit(w: Word)
    ensures NoDigit(WordText(w)) && |WordText(w)| > 0 && ',' !in WordText(w)
  {
    match w
    case Affinity => case Cores => case CpuLimit => case Numa => case Sockets => case Cpu =>
    case CpuUnits => case Vcpus => case CiCustom => case CiUser => case CiPassword =>
    case SearchDomain => case NameServer => case SshKeys => case CiUpgrade =>
    case Memory => case Balloon => case Shares =>
  }

  lemma LettersHaveNoDigit(k: Key)
    ensures NoDigit(Letters(k)) && |Letters(k)| > 0 && ',' !in Letters(k)
  {
    match k
    case Drive(bus, _) =>
      match bus { case Ide => case Sata => case Scsi => case VirtIO => }
    case TpmState =>
    case IpConfig(_) =>
    case Serial(_) =>
    case Plain(w) => WordsHaveNoDigit(w);
  }

  /** The key kind a name's letters stand for; a witness that the letters differ. */
  function KindOf(letters: string): int {
    if letters == "ide" then 0
    else if letters == "sata" then 1
    else if letters == "scsi" then 2
    else if letters == "virtio" then 3
    else if letters == "tpmstate" then 4
    else if letters == "ipconfig" then 5
    else if letters == "serial" then 6
    else if letters == "affinity" then 10
    else if letters == "cores" then 11
    else if letters == "cpulimit" then 12
    else if letters == "numa" then 13
    else if letters == "sockets" then 14
    else if letters == "cpu" then 15
    else if letters == "cpuunits" then 16
    else if letters == "vcpus" then 17
    else if letters == "cicustom" then 18
    else if letters == "ciuser" then 19
    else if letters == "cipassword" then 20
    else if letters == "searchdomain" then 21
    else if letters == "nameserver" then 22
    else if letters == "sshkeys" then 23
    else if letters == "ciupgrade" then 24
    else if letters == "memory" then 25
    else if letters == "balloon" then 26
    else if letters == "shares" then 27
    else -1
  }

  function WordNumber(w: Word): int {
    match w
    case Affinity => 10
    case Cores => 11
    case CpuLimit => 12
    case Numa => 13
    case Sockets => 14
    case Cpu => 15
    case CpuUnits => 16
    case Vcpus => 17
    case CiCustom => 18
    case CiUser => 19
    case CiPassword => 20
    case SearchDomain => 21
    case NameServer => 22
    case SshKeys => 23
    case CiUpgrade => 24
    case Memory => 25
    case Balloon => 26
    case Shares => 27
  }

  function KindNumber(k: Key): int {
    match k
    case Drive(Ide, _) => 0
    case Drive(Sata, _) => 1
    case Drive(Scsi, _) => 2
    case Drive(VirtIO, _) => 3
    case TpmState => 4
    case IpConfig(_) => 5
    case Serial(_) => 6
    case Plain(w) => WordNumber(w)
  }

  lemma WordNumberOf(w: Word)
    ensures KindOf(WordText(w)) == WordNumber(w)
  {
  }

  lemma BusNumberOf(bus: Bus)
    ensures KindOf(Prefix(bus)) == KindNumber(Drive(bus, 0))
  {
  }

  lemma KindNumberOf(k: Key)
    ensures KindOf(Letters(k)) == KindNumber(k)
  {
    match k
    case Drive(bus, _) => BusNumberOf(bus);
    case Plain(w) => WordNumberOf(w);
    case _ =>
  }

  lemma KindNumberDecides(a: Key, b: Key)
    requires KindNumber(a) == KindNumber(b)
    ensures Index(a) == Index(b) ==> a == b
    ensures Index(a).Some? <==> Index(b).Some?
  {
  }

  lemma LettersDecideKind(a: Key, b: Key)
    requires Letters(a) == Letters(b)
    ensures Index(a) == Index(b) ==> a == b
    ensures Index(a).Some? <==> Index(b).Some?
  {
    KindNumberOf(a);
    KindNumberOf(b);
    KindNumberDecides(a, b);
  }

  /** Distinct keys have distinct names, over all four buses and every other parameter. */
  lemma NameInjective(a: Key, b: Key)
    requires Name(a) == Name(b)
    ensures a == b
  {
    var da := match Index(a) case Some(n) => Decimal(n) case None => "";
    var db := match Index(b) case Some(n) => Decimal(n) case None => "";
    LettersHaveNoDigit(a);
    LettersHaveNoDigit(b);
    LetterPrefixOf(Letters(a), da);
    LetterPrefixOf(Letters(b), db);
    LettersDecideKind(a, b);
    assert da == Name(a)[|Letters(a)|..] && db == Name(b)[|Letters(b)|..];
    if Index(a).Some? {
      DecimalInjective(Index(a).value, Index(b).value);
    }
  }

  /** A name is never empty and never contains the separator of the delete list. */
  lemma NameIsListItem(k: Key)
    ensures Name(k) != "" && ',' !in Name(k)
  {
    LettersHaveNoDigit(k);
    if Index(k).Some? {
      DecimalHasOnlyDigits(Index(k).value, ',');
    }
  }
}

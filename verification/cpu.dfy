/** The CPU parameters of a guest and their delete list (`QemuCPU.mapToApi`, proxmox/config_qemu_cpu.go). */
module Cpu {
  import opened Text
  import opened Keys
  import opened ApiParams
  import opened CpuAffinity
  import opened CpuFlags

  /** `cpuType` is the printed name of a recognised type. */
  datatype QemuCpu = QemuCpu(
    affinity: Option<seq<uint>>, cores: Option<nat>, flags: Option<Flags>, limit: Option<nat>, numa: Option<bool>,
    sockets: Option<nat>, cpuType: Option<string>, units: Option<nat>, virtualCores: Option<nat>)

  function AffinityText(affinity: seq<uint>): string
    requires affinity != []
  {
    SortSorts(affinity);
    Encoded(Scan(Sort(affinity), |affinity|))
  }

  /** The text of the `cpu` parameter, absent when neither flags nor type are named. */
  function CpuTypeText(c: QemuCpu, current: Option<QemuCpu>): Option<string> {
    if c.flags.None? && c.cpuType.None? then None
    else match current
      case None =>
        var values := EffectiveFlags(c.flags, None);
        CpuText(EffectiveType(c.cpuType, None), AnySet(values) && PrintedFlags(values) != "", PrintedFlags(values))
      case Some(old_) =>
        var values := EffectiveFlags(c.flags, old_.flags);
        CpuText(EffectiveType(c.cpuType, old_.cpuType), AnySet(values), PrintedFlags(values))
  }

  function NumberValue(n: Option<nat>): Option<Value> { if n.Some? then Some(SetNumber(n.value)) else None }

  function NonZero(n: Option<nat>): Option<nat> { if n == Some(0) then None else n }

  /** What each CPU parameter is set to, if it is. */
  function WordValue(c: QemuCpu, current: Option<QemuCpu>, w: Word): Option<Value> {
    match w
    case Affinity =>
      if c.affinity.None? then None
      else if c.affinity.value != [] then Some(SetText(AffinityText(c.affinity.value)))
      else if current.Some? && current.value.affinity.Some? then Some(SetText(""))
      else None
    case Cores => NumberValue(c.cores)
    case CpuLimit => NumberValue(NonZero(c.limit))
    case Numa => if c.numa.Some? then Some(SetNumber(if c.numa.value then 1 else 0)) else None
    case Sockets => NumberValue(c.sockets)
    case Cpu =>
      var text := CpuTypeText(c, current);
      if text.Some? then Some(SetText(text.value)) else None
    case CpuUnits => NumberValue(NonZero(c.units))
    case Vcpus => NumberValue(NonZero(c.virtualCores))
    case _ => None
  }

  /** Zero deletes a limit, the units and the virtual cores of an existing guest. */
  function DeletedKeys(c: QemuCpu, current: Option<QemuCpu>): seq<Key> {
    if current.None? then []
    else
      (if c.limit == Some(0) && current.value.limit.Some? then [Plain(CpuLimit)] else []) +
      (if c.units == Some(0) then [Plain(CpuUnits)] else []) +
      (if c.virtualCores == Some(0) && current.value.virtualCores.Some? then [Plain(Vcpus)] else [])
  }

  ghost predicate SetsKey(c: QemuCpu, current: Option<QemuCpu>, k: Key) {
    k.Plain? && WordValue(c, current, k.word).Some?
  }

  method PrintAffinity(affinity: seq<uint>) returns (text: string)
    requires affinity != []
    ensures text == AffinityText(affinity)
  {
    var copy := new uint[|affinity|](i requires 0 <= i < |affinity| => affinity[i]);
    assert copy[..] == affinity;
    text := MapToApiAffinity(copy);
    SortSorts(affinity);
  }

  method PrintCpu(c: QemuCpu, current: Option<QemuCpu>) returns (text: Option<string>)
    ensures text == CpuTypeText(c, current)
  {
    if c.flags.None? && c.cpuType.None? {
      return None;
    }
    if current.None? {
      text := CreateCpu(c.flags, c.cpuType);
    } else {
      text := UpdateCpu(c.flags, c.cpuType, current.value.flags, current.value.cpuType);
    }
  }

  /** The parameters after some of the words. */
  ghost predicate WroteWords(c: QemuCpu, current: Option<QemuCpu>, words: set<Word>, base: map<Key, Value>,
                             values: map<Key, Value>) {
    && (forall k :: k in values <==> k in base || (SetsKey(c, current, k) && k.word in words))
    && (forall k | k in values ::
         values[k] == if SetsKey(c, current, k) && k.word in words then WordValue(c, current, k.word).value
         else base[k])
  }

  /** Sets the parameter when it is given. */
  method SetWord(c: QemuCpu, current: Option<QemuCpu>, w: Word, when_: bool, value: Value, params: Params,
                 ghost words: set<Word>, ghost base: map<Key, Value>)
    requires WordValue(c, current, w) == if when_ then Some(value) else None
    requires WroteWords(c, current, words, base, params.values)
    modifies params
    ensures WroteWords(c, current, words + {w}, base, params.values)
  {
    ghost var values := params.values;
    if when_ {
      params.values := params.values[Plain(w) := value];
    }
    WroteOneMore(c, current, words, w, base, values, params.values);
  }

  lemma WroteOneMore(c: QemuCpu, current: Option<QemuCpu>, words: set<Word>, w: Word,
                     base: map<Key, Value>, values: map<Key, Value>, values': map<Key, Value>)
    requires WroteWords(c, current, words, base, values)
    requires var value := WordValue(c, current, w);
             values' == if value.Some? then values[Plain(w) := value.value] else values
    ensures WroteWords(c, current, words + {w}, base, values')
  {
    forall k: Key
      ensures SetsKey(c, current, k) && k.word in words + {w} <==>
              (SetsKey(c, current, k) && k.word in words) || (k == Plain(w) && SetsKey(c, current, k))
    {
    }
  }

  lemma WroteAll(c: QemuCpu, current: Option<QemuCpu>, words: set<Word>, base: map<Key, Value>, values: map<Key, Value>)
    requires WroteWords(c, current, words, base, values)
    requires words == {Affinity, Cores, CpuLimit, Numa, Sockets, Word.Cpu, CpuUnits, Vcpus}
    ensures Wrote(base, values, (k: Key) => SetsKey(c, current, k))
    ensures forall k | SetsKey(c, current, k) :: values[k] == WordValue(c, current, k.word).value
  {
    assert forall k | SetsKey(c, current, k) :: k.word in words;
  }

  /** `QemuCPU.mapToApi`. */
  method MapToApi(c: QemuCpu, current: Option<QemuCpu>, params: Params) returns (delete: string)
    modifies params
    ensures delete == CommaText(DeletedKeys(c, current))
    ensures Wrote(old(params.values), params.values, (k: Key) => SetsKey(c, current, k))
    ensures forall k | SetsKey(c, current, k) :: params.values[k] == WordValue(c, current, k.word).value
  {
    ghost var base, first, words := params.values, {Affinity, Cores, CpuLimit, Numa, Sockets}, {};
    SetTopology(c, current, params);
    words := first;
    SetType(c, current, params, words, base);
    words := words + {Word.Cpu};
    SetWord(c, current, CpuUnits, NonZero(c.units).Some?, NumberOf(c.units), params, words, base);
    words := words + {CpuUnits};
    SetWord(c, current, Vcpus, NonZero(c.virtualCores).Some?, NumberOf(c.virtualCores), params, words, base);
    words := words + {Vcpus};
    WroteAll(c, current, words, base, params.values);
    delete := DeleteZero(c, current);
  }

  function NumberOf(n: Option<nat>): Value { SetNumber(if n.Some? then n.value else 0) }

  /** The parameters from the affinity to the sockets. */
  method SetTopology(c: QemuCpu, current: Option<QemuCpu>, params: Params)
    modifies params
    ensures WroteWords(c, current, {Affinity, Cores, CpuLimit, Numa, Sockets}, old(params.values), params.values)
  {
    ghost var base, words := params.values, {};
    SetAffinity(c, current, params);
    words := {Affinity};
    SetWord(c, current, Cores, c.cores.Some?, NumberOf(c.cores), params, words, base);
    words := words + {Cores};
    SetWord(c, current, CpuLimit, NonZero(c.limit).Some?, NumberOf(c.limit), params, words, base);
    words := words + {CpuLimit};
    SetWord(c, current, Numa, c.numa.Some?, SetNumber(if c.numa == Some(true) then 1 else 0), params, words, base);
    words := words + {Numa};
    SetWord(c, current, Sockets, c.sockets.Some?, NumberOf(c.sockets), params, words, base);
    assert words + {Sockets} == {Affinity, Cores, CpuLimit, Numa, Sockets};
  }

  method SetType(c: QemuCpu, current: Option<QemuCpu>, params: Params, ghost words: set<Word>,
                 ghost base: map<Key, Value>)
    requires WroteWords(c, current, words, base, params.values)
    modifies params
    ensures WroteWords(c, current, words + {Word.Cpu}, base, params.values)
  {
    var cpu := PrintCpu(c, current);
    SetWord(c, current, Word.Cpu, cpu.Some?, SetText(if cpu.Some? then cpu.value else ""), params, words, base);
  }

  /** An empty list clears an affinity that is set. */
  method SetAffinity(c: QemuCpu, current: Option<QemuCpu>, params: Params)
    modifies params
    ensures WroteWords(c, current, {Affinity}, old(params.values), params.values)
  {
    ghost var base := params.values;
    var given, text := false, "";
    if c.affinity.Some? {
      if c.affinity.value != [] {
        given := true;
        text := PrintAffinity(c.affinity.value);
      } else {
        given := current.Some? && current.value.affinity.Some?;
      }
    }
    SetWord(c, current, Affinity, given, SetText(text), params, {}, base);
    assert {} + {Affinity} == {Affinity};
  }

  /** Zero deletes what is set; the units are deleted of every existing guest. */
  method DeleteZero(c: QemuCpu, current: Option<QemuCpu>) returns (delete: string)
    ensures delete == CommaText(DeletedKeys(c, current))
  {
    delete := "";
    if current.None? {
      return;
    }
    ghost var k0: seq<Key> := [];
    var noLimit, noUnits := c.limit == Some(0) && current.value.limit.Some?, c.units == Some(0);
    delete := Drop(delete, k0, noLimit, CpuLimit);
    ghost var k1 := k0 + if noLimit then [Plain(CpuLimit)] else [];
    delete := Drop(delete, k1, noUnits, CpuUnits);
    ghost var k2 := k1 + if noUnits then [Plain(CpuUnits)] else [];
    delete := Drop(delete, k2, c.virtualCores == Some(0) && current.value.virtualCores.Some?, Vcpus);
  }

  // ---------------------------------------------------------------- on the server

  const CPU_WORDS: set<Word> := {Affinity, Cores, CpuLimit, Numa, Sockets, Word.Cpu, CpuUnits, Vcpus}

  /** The type the `cpu` parameter reads as. */
  function TypeAt(texts: map<Key, string>): string {
    match TextAt(texts, Plain(Word.Cpu)) case Some(text) => ReadCpu(text).0 case None => ""
  }

  /** One of the twelve flags it reads as. */
  function FlagAt(texts: map<Key, string>, i: nat): Option<TriBool>
    requires i < FLAG_COUNT
  {
    match TextAt(texts, Plain(Word.Cpu))
    case Some(text) => FlagOf(FlagMap(ReadCpu(text).1), FlagName(i))
    case None => None
  }

  /** `QemuCPU.mapToSDK`. An affinity whose decoding never ends counts as empty here. */
  function Read(texts: map<Key, string>): QemuCpu {
    var affinity := TextAt(texts, Plain(Affinity));
    var cpu := TextAt(texts, Plain(Word.Cpu));
    QemuCpu(
      match affinity
      case Some(text) =>
        Some(if text == "" then [] else match Decode(text) case Some(list) => list case None => [])
      case None => None,
      NumberAt(texts, Cores),
      if cpu.Some? && ReadCpu(cpu.value).1 != []
      then Some(seq(FLAG_COUNT, i requires 0 <= i < FLAG_COUNT => FlagAt(texts, i))) else None,
      NumberAt(texts, CpuLimit),
      match TextAt(texts, Plain(Numa)) case Some(text) => Some(text == "1") case None => None,
      NumberAt(texts, Sockets), if cpu.Some? then Some(TypeAt(texts)) else None, NumberAt(texts, CpuUnits),
      NumberAt(texts, Vcpus))
  }

  /** The CPU parameters are as asked for, in terms of the fields of the configuration. */
  ghost predicate AsAsked(c: QemuCpu, before: map<Key, string>, after: map<Key, string>) {
    && Given(c.cores, Cores, before, after) && Given(c.sockets, Sockets, before, after)
    && ZeroClears(c.limit, CpuLimit, before, after) && ZeroClears(c.units, CpuUnits, before, after)
    && ZeroClears(c.virtualCores, Vcpus, before, after)
    && (match c.numa
        case Some(on) => TextAt(after, Plain(Numa)) == Some(if on then "1" else "0")
        case None => Unchanged(before, after, Plain(Numa)))
    && AffinityAsAsked(c.affinity, before, after) && CpuAsAsked(c.flags, c.cpuType, before, after)
  }

  /** A number is set when it is given. */
  predicate Given(n: Option<nat>, w: Word, before: map<Key, string>, after: map<Key, string>) {
    if n.Some? then TextAt(after, Plain(w)) == Some(Decimal(n.value)) else Unchanged(before, after, Plain(w))
  }

  /** A number is set when it is given, and zero removes it. */
  predicate ZeroClears(n: Option<nat>, w: Word, before: map<Key, string>, after: map<Key, string>) {
    if n == Some(0) then TextAt(after, Plain(w)).None? else Given(n, w, before, after)
  }

  /** A list that is given is decoded to its CPUs in increasing order; an empty one clears what is set. */
  ghost predicate AffinityAsAsked(affinity: Option<seq<uint>>, before: map<Key, string>, after: map<Key, string>) {
    var text := TextAt(after, Plain(Affinity));
    match affinity
    case None => Unchanged(before, after, Plain(Affinity))
    case Some(list) =>
      if list == [] then text == if Plain(Affinity) in before then Some("") else None
      else text.Some? && ((forall x | x in list :: FitsInt(x)) ==> DecodesTo(Decode(text.value), list))
  }

  /** Decoding ends unless both of the two largest values of an `int` are there. */
  ghost predicate DecodesTo(decoded: Option<seq<uint>>, list: seq<uint>) {
    && (decoded.Some? <==> !(MAX_INT in list && MAX_INT - 1 in list))
    && (decoded.Some? ==> Increasing(decoded.value) && forall x :: x in decoded.value <==> x in list)
  }

  /** The value a flag is to have: the new one if one is named, else that on the server. */
  function FlagWanted(flags: Option<Flags>, before: map<Key, string>, i: nat): Option<TriBool>
    requires i < FLAG_COUNT
  {
    if flags.Some? && flags.value[i].Some? then flags.value[i] else FlagAt(before, i)
  }

  /** Every flag reads as wanted, where neither on nor off reads as unset. The type is the new one if there
      is one, else it stays; so it does when the new one is empty and no flag is wanted. */
  ghost predicate CpuAsAsked(flags: Option<Flags>, cpuType: Option<string>, before: map<Key, string>,
                             after: map<Key, string>) {
    if flags.None? && cpuType.None? then Unchanged(before, after, Plain(Word.Cpu))
    else
      && (forall i: nat | i < FLAG_COUNT ::
           FlagAt(after, i) ==
           if FlagWanted(flags, before, i) == Some(Neither) then None else FlagWanted(flags, before, i))
      && TypeAt(after) == (
           if cpuType.None? then TypeAt(before)
           else if cpuType.value == "" && forall i: nat | i < FLAG_COUNT :: FlagWanted(flags, before, i).None?
           then TypeAt(before) else cpuType.value)
  }

  /** What a call leaves of the CPU parameters. */
  ghost predicate CallPatches(c: QemuCpu, current: Option<QemuCpu>, before: map<Key, string>, after: map<Key, string>) {
    forall w | w in CPU_WORDS :: PatchedBy(c, current, before, after, w)
  }

  /** The client read the parameters, or the guest is new. */
  ghost predicate IsCurrent(current: Option<QemuCpu>, before: map<Key, string>) {
    && (current.None? ==> before == map[])
    && NumbersRead(current, before) && AffinityRead(current, before)
    && TypeIsRead(CurrentType(current), before) && FlagsRead(CurrentFlags(current), before)
    && (current.Some? && current.value.cpuType.Some? <==> Plain(Word.Cpu) in before)
  }

  lemma ReadIsCurrent(texts: map<Key, string>)
    ensures IsCurrent(Some(Read(texts)), texts)
  {
  }

  lemma CallIsAsAsked(c: QemuCpu, current: Option<QemuCpu>, before: map<Key, string>, after: map<Key, string>)
    requires IsCurrent(current, before) && CallPatches(c, current, before, after)
    requires c.cpuType.Some? ==> ',' !in c.cpuType.value
    ensures AsAsked(c, before, after)
  {
    NumbersAsAsked(c, current, before, after);
    AffinityIsAsAsked(c, current, before, after);
    assert Word.Cpu in CPU_WORDS;
    TextReadsAsAsked(c, current, before, after);
  }

  predicate NumbersRead(current: Option<QemuCpu>, before: map<Key, string>) {
    && (current.None? ==> Plain(CpuLimit) !in before && Plain(CpuUnits) !in before && Plain(Vcpus) !in before)
    && (current.Some? ==>
         && (current.value.limit.Some? <==> Plain(CpuLimit) in before)
         && (current.value.virtualCores.Some? <==> Plain(Vcpus) in before))
  }

  predicate AffinityRead(current: Option<QemuCpu>, before: map<Key, string>) {
    (current.Some? && current.value.affinity.Some?) <==> Plain(Affinity) in before
  }

  function CurrentFlags(current: Option<QemuCpu>): Option<Flags> {
    if current.Some? then current.value.flags else None
  }

  function CurrentType(current: Option<QemuCpu>): Option<string> {
    if current.Some? then current.value.cpuType else None
  }

  predicate TypeIsRead(cpuType: Option<string>, before: map<Key, string>) {
    ',' !in TypeAt(before) && (if cpuType.Some? then cpuType.value else "") == TypeAt(before)
  }

  ghost predicate FlagsRead(flags: Option<Flags>, before: map<Key, string>) {
    forall i: nat | i < FLAG_COUNT :: FlagAt(before, i) == if flags.Some? then flags.value[i] else None
  }

  lemma NumbersAsAsked(c: QemuCpu, current: Option<QemuCpu>, before: map<Key, string>, after: map<Key, string>)
    requires NumbersRead(current, before) && CallPatches(c, current, before, after)
    ensures Given(c.cores, Cores, before, after) && Given(c.sockets, Sockets, before, after)
    ensures ZeroClears(c.limit, CpuLimit, before, after) && ZeroClears(c.units, CpuUnits, before, after)
    ensures ZeroClears(c.virtualCores, Vcpus, before, after)
    ensures match c.numa
            case Some(on) => TextAt(after, Plain(Numa)) == Some(if on then "1" else "0")
            case None => Unchanged(before, after, Plain(Numa))
  {
    assert Cores in CPU_WORDS && Sockets in CPU_WORDS && CpuLimit in CPU_WORDS && CpuUnits in CPU_WORDS;
    assert Vcpus in CPU_WORDS && Numa in CPU_WORDS;
    NumberIsAsAsked(c, current, before, after, Cores);
    NumberIsAsAsked(c, current, before, after, Sockets);
    LimitIsAsAsked(c, current, before, after, CpuLimit);
    LimitIsAsAsked(c, current, before, after, CpuUnits);
    LimitIsAsAsked(c, current, before, after, Vcpus);
    NumaIsAsAsked(c, current, before, after);
  }

  /** What a call leaves of one CPU parameter. */
  predicate PatchedBy(c: QemuCpu, current: Option<QemuCpu>, before: map<Key, string>, after: map<Key, string>,
                      w: Word) {
    Patched(before, after, Plain(w), WordValue(c, current, w), Plain(w) in DeletedKeys(c, current))
  }

  lemma NumberIsAsAsked(c: QemuCpu, current: Option<QemuCpu>, before: map<Key, string>, after: map<Key, string>,
                        w: Word)
    requires w == Cores || w == Sockets
    requires PatchedBy(c, current, before, after, w)
    ensures Given(if w == Cores then c.cores else c.sockets, w, before, after)
  {
    DeletedWords(c, current);
    GivenIsAsAsked(if w == Cores then c.cores else c.sockets, w, before, after);
  }

  lemma LimitIsAsAsked(c: QemuCpu, current: Option<QemuCpu>, before: map<Key, string>, after: map<Key, string>,
                       w: Word)
    requires w == CpuLimit || w == CpuUnits || w == Vcpus
    requires NumbersRead(current, before) && PatchedBy(c, current, before, after, w)
    ensures ZeroClears(if w == CpuLimit then c.limit else if w == CpuUnits then c.units else c.virtualCores, w, before,
                       after)
  {
    DeletedWords(c, current);
    ZeroIsAsAsked(if w == CpuLimit then c.limit else if w == CpuUnits then c.units else c.virtualCores, w, before,
                  after, Plain(w) in DeletedKeys(c, current));
  }

  lemma NumaIsAsAsked(c: QemuCpu, current: Option<QemuCpu>, before: map<Key, string>, after: map<Key, string>)
    requires PatchedBy(c, current, before, after, Numa)
    ensures match c.numa
            case Some(on) => TextAt(after, Plain(Numa)) == Some(if on then "1" else "0")
            case None => Unchanged(before, after, Plain(Numa))
  {
    DeletedWords(c, current);
    FlagIsAsAsked(c.numa, before, after);
  }

  lemma DeletedWords(c: QemuCpu, current: Option<QemuCpu>)
    ensures Plain(Cores) !in DeletedKeys(c, current) && Plain(Sockets) !in DeletedKeys(c, current)
    ensures Plain(Numa) !in DeletedKeys(c, current)
    ensures Plain(CpuLimit) in DeletedKeys(c, current) <==>
            c.limit == Some(0) && current.Some? && current.value.limit.Some?
    ensures Plain(CpuUnits) in DeletedKeys(c, current) <==> c.units == Some(0) && current.Some?
    ensures Plain(Vcpus) in DeletedKeys(c, current) <==>
            c.virtualCores == Some(0) && current.Some? && current.value.virtualCores.Some?
  {
  }

  lemma GivenIsAsAsked(n: Option<nat>, w: Word, before: map<Key, string>, after: map<Key, string>)
    requires Patched(before, after, Plain(w), NumberValue(n), false)
    ensures Given(n, w, before, after)
  {
  }

  lemma ZeroIsAsAsked(n: Option<nat>, w: Word, before: map<Key, string>, after: map<Key, string>, deleted: bool)
    requires Patched(before, after, Plain(w), NumberValue(NonZero(n)), deleted)
    requires if n == Some(0) then deleted || Plain(w) !in before else !deleted
    ensures ZeroClears(n, w, before, after)
  {
  }

  lemma FlagIsAsAsked(on: Option<bool>, before: map<Key, string>, after: map<Key, string>)
    requires Patched(before, after, Plain(Numa),
                     if on.Some? then Some(SetNumber(if on.value then 1 else 0)) else None, false)
    ensures match on
            case Some(b) => TextAt(after, Plain(Numa)) == Some(if b then "1" else "0")
            case None => Unchanged(before, after, Plain(Numa))
  {
    assert Decimal(1) == "1" && Decimal(0) == "0";
  }

  lemma AffinityIsAsAsked(c: QemuCpu, current: Option<QemuCpu>, before: map<Key, string>, after: map<Key, string>)
    requires AffinityRead(current, before) && CallPatches(c, current, before, after)
    ensures AffinityAsAsked(c.affinity, before, after)
  {
    assert Affinity in CPU_WORDS;
    AffinityIsKept(c, current);
    AffinityIsPatched(c, current, before, after);
    if c.affinity.Some? && c.affinity.value != [] {
      AffinityDecodes(c.affinity.value);
    }
  }

  lemma AffinityIsKept(c: QemuCpu, current: Option<QemuCpu>)
    ensures Plain(Affinity) !in DeletedKeys(c, current)
  {
  }

  lemma AffinityIsPatched(c: QemuCpu, current: Option<QemuCpu>, before: map<Key, string>, after: map<Key, string>)
    requires AffinityRead(current, before)
    requires Patched(before, after, Plain(Affinity), WordValue(c, current, Affinity), false)
    ensures match c.affinity
            case None => Unchanged(before, after, Plain(Affinity))
            case Some(list) =>
              TextAt(after, Plain(Affinity)) ==
              if list != [] then Some(AffinityText(list)) else if Plain(Affinity) in before then Some("") else None
  {
  }

  lemma AffinityDecodes(list: seq<uint>)
    requires list != []
    ensures (forall x | x in list :: FitsInt(x)) ==> DecodesTo(Decode(AffinityText(list)), list)
  {
    SortSorts(list);
    if forall x | x in list :: FitsInt(x) {
      AffinityRoundTrip(list);
    }
  }

  /** Without flags on the server an empty list of flags is as good as none. */
  lemma NewFlags(flags: Option<Flags>, cpuType: Option<string>)
    requires ',' !in EffectiveType(cpuType, None)
    ensures var values := EffectiveFlags(flags, None);
            match CpuText(EffectiveType(cpuType, None), AnySet(values) && PrintedFlags(values) != "",
                          PrintedFlags(values))
            case Some(text) => ReadsAs(text, EffectiveType(cpuType, None), values)
            case None =>
              EffectiveType(cpuType, None) == "" && forall i: nat | i < FLAG_COUNT :: !Signed(values[i])
  {
    var values := EffectiveFlags(flags, None);
    if !AnySet(values) {
      NoneSetPrintsNothing(FlagNames(FLAG_COUNT), values);
    }
    CpuReadsBack(EffectiveType(cpuType, None), values, AnySet(values) && PrintedFlags(values) != "");
    if PrintedFlags(values) == "" {
      NothingSigned(values);
    }
  }

  lemma NothingSigned(values: Flags)
    requires PrintedFlags(values) == ""
    ensures forall i: nat | i < FLAG_COUNT :: !Signed(values[i])
  {
    var texts := FlagTexts(FlagNames(FLAG_COUNT), values);
    if texts != [] {
      SemicolonsIsJoin(texts);
    }
    forall i: nat | i < FLAG_COUNT
      ensures !Signed(values[i])
    {
      SignedOrNone(FlagNames(FLAG_COUNT), values, i);
    }
  }

  lemma TextReadsAsAsked(c: QemuCpu, current: Option<QemuCpu>, before: map<Key, string>, after: map<Key, string>)
    requires TypeIsRead(CurrentType(current), before) && FlagsRead(CurrentFlags(current), before)
    requires current.None? ==> Plain(Word.Cpu) !in before
    requires c.cpuType.Some? ==> ',' !in c.cpuType.value
    requires Patched(before, after, Plain(Word.Cpu), WordValue(c, current, Word.Cpu), false)
    ensures CpuAsAsked(c.flags, c.cpuType, before, after)
  {
    var text := CpuTypeText(c, current);
    TypeIsPatched(c, current, before, after);
    if c.flags.Some? || c.cpuType.Some? {
      PrintedCpu(c, current);
      if text.Some? {
        PrintedIsAsAsked(c, current, before, after, text.value);
      } else {
        NothingIsAsAsked(c, current, before, after);
      }
    }
  }

  lemma TypeIsPatched(c: QemuCpu, current: Option<QemuCpu>, before: map<Key, string>, after: map<Key, string>)
    requires Patched(before, after, Plain(Word.Cpu), WordValue(c, current, Word.Cpu), false)
    ensures var text := CpuTypeText(c, current);
            TextAt(after, Plain(Word.Cpu)) == if text.Some? then text else TextAt(before, Plain(Word.Cpu))
  {
  }

  /** Nothing is printed when nothing is there and nothing is asked for. */
  lemma NothingIsAsAsked(c: QemuCpu, current: Option<QemuCpu>, before: map<Key, string>, after: map<Key, string>)
    requires TypeIsRead(CurrentType(current), before) && FlagsRead(CurrentFlags(current), before)
    requires current.None? ==> Plain(Word.Cpu) !in before
    requires (c.flags.Some? || c.cpuType.Some?) && Unchanged(before, after, Plain(Word.Cpu))
    requires EffectiveType(c.cpuType, CurrentType(current)) == ""
    requires var values := EffectiveFlags(c.flags, CurrentFlags(current));
             forall i: nat | i < FLAG_COUNT :: !Signed(values[i]) && (current.Some? ==> values[i].None?)
    ensures CpuAsAsked(c.flags, c.cpuType, before, after)
  {
    var values := EffectiveFlags(c.flags, CurrentFlags(current));
    forall i: nat | i < FLAG_COUNT
      ensures values[i] == FlagWanted(c.flags, before, i)
      ensures FlagAt(after, i) == if values[i] == Some(Neither) then None else values[i]
    {
      WantedIsEffective(c.flags, CurrentFlags(current), before, i);
      OnlyNeitherIsLost(values[i]);
    }
    if current.None? {
      assert TypeAt(before) == "";
    }
  }

  lemma WantedIsEffective(flags: Option<Flags>, current: Option<Flags>, before: map<Key, string>, i: nat)
    requires FlagsRead(current, before) && i < FLAG_COUNT
    ensures EffectiveFlags(flags, current)[i] == FlagWanted(flags, before, i)
  {
    EffectiveIsOverlay(flags, current);
    assert EffectiveFlags(flags, current)[i] == Overlaid(flags, current, i);
  }

  /** What the printed parameter reads as. */
  lemma PrintedCpu(c: QemuCpu, current: Option<QemuCpu>)
    requires (c.flags.Some? || c.cpuType.Some?) && ',' !in EffectiveType(c.cpuType, CurrentType(current))
    ensures var values := EffectiveFlags(c.flags, CurrentFlags(current));
            var cpuType := EffectiveType(c.cpuType, CurrentType(current));
            match CpuTypeText(c, current)
            case Some(text) =>
              && ReadsAs(text, cpuType, values)
              && (cpuType != "" || current.None? || exists i: nat :: i < FLAG_COUNT && values[i].Some?)
            case None =>
              cpuType == "" && forall i: nat | i < FLAG_COUNT ::
                !Signed(values[i]) && (current.Some? ==> values[i].None?)
  {
    if current.None? {
      NewFlags(c.flags, c.cpuType);
    } else {
      FlagsOverlay(c.flags, CurrentFlags(current), c.cpuType, CurrentType(current));
    }
  }

  lemma OnlyNeitherIsLost(value: Option<TriBool>)
    ensures ReadBack(value) == if value == Some(Neither) then None else value
  {
    match value
    case None =>
    case Some(Yes) =>
    case Some(No) =>
    case Some(Neither) =>
  }

  lemma PrintedIsAsAsked(c: QemuCpu, current: Option<QemuCpu>, before: map<Key, string>, after: map<Key, string>,
                         text: string)
    requires TypeIsRead(CurrentType(current), before) && FlagsRead(CurrentFlags(current), before)
    requires (c.flags.Some? || c.cpuType.Some?) && TextAt(after, Plain(Word.Cpu)) == Some(text)
    requires EffectiveType(c.cpuType, CurrentType(current)) != "" || current.None? ||
             exists i: nat :: i < FLAG_COUNT && EffectiveFlags(c.flags, CurrentFlags(current))[i].Some?
    requires ReadsAs(text, EffectiveType(c.cpuType, CurrentType(current)),
                     EffectiveFlags(c.flags, CurrentFlags(current)))
    ensures CpuAsAsked(c.flags, c.cpuType, before, after)
  {
    var values := EffectiveFlags(c.flags, CurrentFlags(current));
    forall i: nat | i < FLAG_COUNT
      ensures values[i] == FlagWanted(c.flags, before, i)
      ensures FlagAt(after, i) == if values[i] == Some(Neither) then None else values[i]
    {
      WantedIsEffective(c.flags, CurrentFlags(current), before, i);
      assert FlagAt(after, i) == FlagOf(FlagMap(ReadCpu(text).1), FlagName(i)) == ReadBack(values[i]);
      OnlyNeitherIsLost(values[i]);
    }
    assert TypeAt(after) == EffectiveType(c.cpuType, CurrentType(current));
    if c.cpuType == Some("") && (forall i: nat | i < FLAG_COUNT :: FlagWanted(c.flags, before, i).None?) {
      assert forall i: nat | i < FLAG_COUNT :: values[i].None?;
      assert current.None?;
    }
  }

  /** An empty type, which the validation accepts, is not sent on its own: the guest keeps its type. */
  lemma EmptyTypeIsNotSent(c: QemuCpu, cpuType: string)
    requires c.cpuType == Some("") && c.flags.None? && ',' !in cpuType
    ensures var before := map[Plain(Word.Cpu) := cpuType];
            WordValue(c, Some(Read(before)), Word.Cpu).None? && TypeAt(before) == cpuType
  {
    var before := map[Plain(Word.Cpu) := cpuType];
    CutAtPlain(cpuType, ',');
    assert Read(before).flags.None?;
    var values := EffectiveFlags(None, None);
    assert !AnySet(values);
  }

  /** No CPU parameter is both set and deleted. */
  lemma SetsAndDeletesAreDisjoint(c: QemuCpu, current: Option<QemuCpu>, k: Key)
    requires k in DeletedKeys(c, current)
    ensures !SetsKey(c, current, k)
    ensures k.Plain? && k.word in {CpuLimit, CpuUnits, Vcpus}
  {
  }
}

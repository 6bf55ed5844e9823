/** CPU flags and the `cpu` parameter, such as `host,flags=+aes;-pcid` (proxmox/config_qemu_cpu.go). */
module CpuFlags {
  import opened Text

  /** `TriBool`. */
  datatype TriBool = Yes | No | Neither

  const FLAG_COUNT: nat := 12

  /** The flags in the order in which the printer lists them, each nil or a `TriBool`. */
  type Flags = s: seq<Option<TriBool>> | |s| == FLAG_COUNT
    witness [None, None, None, None, None, None, None, None, None, None, None, None]

  /** No flag is named. */
  function Unset(n: nat): (values: seq<Option<TriBool>>)
    ensures |values| == n && forall i | 0 <= i < n :: values[i].None?
  {
    if n == 0 then [] else Unset(n - 1) + [None]
  }

  function FlagName(i: nat): string
    requires i < FLAG_COUNT
  {
    match i
    case 0 => "aes"
    case 1 => "amd-no-ssb"
    case 2 => "amd-ssbd"
    case 3 => "hv-evmcs"
    case 4 => "hv-tlbflush"
    case 5 => "ibpb"
    case 6 => "md-clear"
    case 7 => "pcid"
    case 8 => "pdpe1gb"
    case 9 => "ssbd"
    case 10 => "spec-ctrl"
    case 11 => "virt-ssbd"
  }

  function FlagIndex(name: string): int {
    if name == "aes" then 0
    else if name == "amd-no-ssb" then 1
    else if name == "amd-ssbd" then 2
    else if name == "hv-evmcs" then 3
    else if name == "hv-tlbflush" then 4
    else if name == "ibpb" then 5
    else if name == "md-clear" then 6
    else if name == "pcid" then 7
    else if name == "pdpe1gb" then 8
    else if name == "ssbd" then 9
    else if name == "spec-ctrl" then 10
    else if name == "virt-ssbd" then 11
    else -1
  }

  lemma FlagNameIsPlain(i: nat)
    requires i < FLAG_COUNT
    ensures FlagIndex(FlagName(i)) == i && ';' !in FlagName(i)
  {
  }

  function FlagNames(n: nat): (names: seq<string>)
    requires n <= FLAG_COUNT
    ensures |names| == n && forall i | 0 <= i < n :: names[i] == FlagName(i)
  {
    if n == 0 then [] else FlagNames(n - 1) + [FlagName(n - 1)]
  }

  // ---------------------------------------------------------------- printing

  /** An update keeps the current value of every flag it does not name. */
  function Effective(flags: Flags, current: Flags): (e: Flags)
    ensures forall i | 0 <= i < FLAG_COUNT :: e[i] == if flags[i].Some? then flags[i] else current[i]
  {
    seq(FLAG_COUNT, i requires 0 <= i < FLAG_COUNT => if flags[i].Some? then flags[i] else current[i])
  }

  predicate Signed(value: Option<TriBool>) { value == Some(Yes) || value == Some(No) }

  /** The text of a flag that is on or off. */
  function FlagText(value: Option<TriBool>, name: string): string {
    [if value == Some(Yes) then '+' else '-'] + name
  }

  /** The signed names of the flags that are on or off. */
  function FlagTexts(names: seq<string>, values: seq<Option<TriBool>>): seq<string>
    requires |names| == |values|
  {
    if names == [] then []
    else
      var n := |names| - 1;
      FlagTexts(names[..n], values[..n]) + (if Signed(values[n]) then [FlagText(values[n], names[n])] else [])
  }

  /** Every text with a semicolon in front. */
  function Semicolons(texts: seq<string>): string {
    if texts == [] then "" else Semicolons(texts[..|texts| - 1]) + (";" + texts[|texts| - 1])
  }

  predicate AnySet(values: seq<Option<TriBool>>) { exists i :: 0 <= i < |values| && values[i].Some? }

  lemma PrintStep(names: seq<string>, values: seq<Option<TriBool>>, i: nat)
    requires |names| == |values| && i < |names|
    ensures Semicolons(FlagTexts(names[..i + 1], values[..i + 1])) ==
            Semicolons(FlagTexts(names[..i], values[..i])) +
            if Signed(values[i]) then ";" + FlagText(values[i], names[i]) else ""
  {
    assert names[..i + 1][..i] == names[..i] && values[..i + 1][..i] == values[..i];
    var before := FlagTexts(names[..i], values[..i]);
    if Signed(values[i]) {
      assert (before + [FlagText(values[i], names[i])])[..|before|] == before;
    } else {
      assert before + [] == before;
      assert Semicolons(before) + "" == Semicolons(before);
    }
  }

  /** The printing loop over any table of names. */
  method PrintFlags(names: seq<string>, values: seq<Option<TriBool>>) returns (text: string, isSet: bool)
    requires |names| == |values|
    ensures text == Semicolons(FlagTexts(names, values))
    ensures isSet <==> AnySet(values)
  {
    text, isSet := "", false;
    for i := 0 to |names|
      invariant text == Semicolons(FlagTexts(names[..i], values[..i]))
      invariant isSet <==> exists j :: 0 <= j < i && values[j].Some?
    {
      PrintStep(names, values, i);
      if values[i].Some? {
        match values[i].value {
          case Yes => text := text + (";" + FlagText(Some(Yes), names[i]));
          case No => text := text + (";" + FlagText(Some(No), names[i]));
          case Neither => assert text + "" == text;
        }
        isSet := true;
      } else {
        assert text + "" == text;
      }
    }
    assert names[..|names|] == names && values[..|values|] == values;
  }

  /** `CpuFlags.mapToApi`. */
  method MapToApi(flags: Flags, current: Flags) returns (text: string, isSet: bool)
    ensures text == Semicolons(FlagTexts(FlagNames(FLAG_COUNT), Effective(flags, current)))
    ensures isSet <==> AnySet(Effective(flags, current))
  {
    text, isSet := PrintFlags(FlagNames(FLAG_COUNT), Effective(flags, current));
  }

  // ---------------------------------------------------------------- parsing

  /** The map from the rest of each text to its first character. */
  function FlagMap(texts: seq<string>): map<string, char>
  {
    if texts == [] then map[]
    else
      var last, earlier := texts[|texts| - 1], FlagMap(texts[..|texts| - 1]);
      if last == "" then earlier else earlier[last[1..] := last[0]]
  }

  /** `mapToSdkSubroutine`. */
  function FlagOf(flags: map<string, char>, flag: string): Option<TriBool> {
    if flag !in flags then None
    else Some(if flags[flag] == '+' then Yes else if flags[flag] == '-' then No else Neither)
  }

  /** `CpuFlags.mapToSDK`, on texts the program accepts: it fails on an empty one. */
  method MapToSdk(flags: seq<string>) returns (values: Flags)
    requires forall t | t in flags :: |t| > 0
    ensures forall i | 0 <= i < FLAG_COUNT :: values[i] == FlagOf(FlagMap(flags), FlagName(i))
  {
    var flagMap := map[];
    for i := 0 to |flags|
      invariant flagMap == FlagMap(flags[..i])
    {
      var e := flags[i];
      assert e in flags;
      flagMap := flagMap[e[1..] := e[0]];
      assert flags[..i + 1][..i] == flags[..i];
    }
    assert flags[..|flags|] == flags;
    values := seq(FLAG_COUNT, i requires 0 <= i < FLAG_COUNT => FlagOf(flagMap, FlagName(i)));
  }

  // ---------------------------------------------------------------- round trip

  predicate Distinct(names: seq<string>) { forall i, j | 0 <= i < j < |names| :: names[i] != names[j] }

  /** What is read back for a value that was printed: neither on nor off reads as unset. */
  function ReadBack(value: Option<TriBool>): Option<TriBool> {
    if Signed(value) then value else None
  }

  lemma {:induction false} FlagTextsArePlain(names: seq<string>, values: seq<Option<TriBool>>)
    requires |names| == |values| && forall n | n in names :: ';' !in n
    ensures forall t | t in FlagTexts(names, values) :: t != "" && ';' !in t
  {
    if names != [] {
      var n := |names| - 1;
      assert names[n] in names;
      FlagTextsArePlain(names[..n], values[..n]);
    }
  }

  lemma FlagMapSnoc(earlier: seq<string>, value: Option<TriBool>, name: string)
    requires Signed(value)
    ensures var m := FlagMap(earlier + [FlagText(value, name)]);
            FlagOf(m, name) == value && forall k | k != name :: FlagOf(m, k) == FlagOf(FlagMap(earlier), k)
  {
    var text := FlagText(value, name);
    assert (earlier + [text])[..|earlier|] == earlier;
    assert text[1..] == name;
  }

  /** One more name: it is read with its own sign, every other flag as before. */
  lemma FlagMapStep(names: seq<string>, values: seq<Option<TriBool>>, flag: string)
    requires |names| == |values| && names != []
    ensures var n := |names| - 1;
            var before := FlagMap(FlagTexts(names[..n], values[..n]));
            var after := FlagMap(FlagTexts(names, values));
            && (flag != names[n] ==> FlagOf(after, flag) == FlagOf(before, flag))
            && (Signed(values[n]) ==> FlagOf(after, names[n]) == values[n])
            && (!Signed(values[n]) ==> after == before)
  {
    var n := |names| - 1;
    var shorter := FlagTexts(names[..n], values[..n]);
    if Signed(values[n]) {
      assert FlagTexts(names, values) == shorter + [FlagText(values[n], names[n])];
      FlagMapSnoc(shorter, values[n], names[n]);
    } else {
      assert FlagTexts(names, values) == shorter;
    }
  }

  lemma {:induction false} FlagMapOther(names: seq<string>, values: seq<Option<TriBool>>, flag: string)
    requires |names| == |values| && flag !in names
    ensures FlagOf(FlagMap(FlagTexts(names, values)), flag).None?
  {
    if names != [] {
      var n := |names| - 1;
      FlagMapOther(names[..n], values[..n], flag);
      FlagMapStep(names, values, flag);
      assert names[n] in names;
    }
  }

  lemma {:induction false} FlagMapHas(names: seq<string>, values: seq<Option<TriBool>>, i: nat)
    requires |names| == |values| && Distinct(names) && i < |names|
    ensures FlagOf(FlagMap(FlagTexts(names, values)), names[i]) == ReadBack(values[i])
  {
    var n := |names| - 1;
    DistinctPrefix(names);
    if i < n {
      FlagMapHas(names[..n], values[..n], i);
      assert names[..n][i] == names[i] && values[..n][i] == values[i];
      FlagMapStep(names, values, names[i]);
    } else {
      FlagMapLast(names, values);
    }
  }

  lemma FlagMapLast(names: seq<string>, values: seq<Option<TriBool>>)
    requires |names| == |values| && names != [] && names[|names| - 1] !in names[..|names| - 1]
    ensures FlagOf(FlagMap(FlagTexts(names, values)), names[|names| - 1]) == ReadBack(values[|names| - 1])
  {
    var n := |names| - 1;
    FlagMapOther(names[..n], values[..n], names[n]);
    FlagMapStep(names, values, names[n]);
  }

  lemma DistinctPrefix(names: seq<string>)
    requires Distinct(names) && names != []
    ensures var n := |names| - 1; Distinct(names[..n]) && names[n] !in names[..n] && forall i | 0 <= i < n ::
            names[i] != names[n]
  {
  }

  lemma {:induction false} SemicolonsIsJoin(texts: seq<string>)
    requires texts != []
    ensures Semicolons(texts) == ";" + Join(texts, ';')
  {
    var n := |texts| - 1;
    if n == 0 {
      assert texts[..0] == [];
      assert Semicolons([]) == "";
    } else {
      SemicolonsIsJoin(texts[..n]);
      JoinAppend(texts[..n], [texts[n]], ';');
      assert texts[..n] + [texts[n]] == texts;
      Reassociate(Join(texts[..n], ';'), texts[n]);
    }
  }

  lemma Reassociate(a: string, b: string)
    ensures (";" + a) + (";" + b) == ";" + (a + [';'] + b)
  {
  }

  // ---------------------------------------------------------------- the cpu parameter

  /** The `cpu` parameter, given the printed type ("" when there is none). */
  function CpuText(cpuType: string, flagsSet: bool, flags: string): Option<string> {
    if flagsSet then Some(if flags != "" then cpuType + ",flags=" + flags[1..] else cpuType + ",flags=")
    else if cpuType != "" then Some(cpuType)
    else None
  }

  /** The flags the parameter is printed from. */
  function EffectiveFlags(flags: Option<Flags>, current: Option<Flags>): Flags {
    Effective(if flags.Some? then flags.value else Unset(FLAG_COUNT), if current.Some? then current.value
              else Unset(FLAG_COUNT))
  }

  function PrintedFlags(values: Flags): string { Semicolons(FlagTexts(FlagNames(FLAG_COUNT), values)) }

  /** The part of `QemuCPU.mapToApi` that writes the `cpu` parameter when a guest is created: an
      empty flag text counts as no flags. */
  method CreateCpu(flags: Option<Flags>, newType: Option<string>) returns (text: Option<string>)
    ensures var values := EffectiveFlags(flags, None);
            text == CpuText(EffectiveType(newType, None), AnySet(values) && PrintedFlags(values) != "",
                            PrintedFlags(values))
  {
    var flagText, flagsSet := MapToApi(if flags.Some? then flags.value else Unset(FLAG_COUNT), Unset(FLAG_COUNT));
    if flagsSet && flagText == "" {
      flagsSet := false;
    }
    text := CpuText(if newType.Some? then newType.value else "", flagsSet, flagText);
  }

  /** The same when a guest is updated: current flags and the current type stand in for what is
      not named, and an empty flag text clears the flags. */
  method UpdateCpu(flags: Option<Flags>, newType: Option<string>, currentFlags: Option<Flags>,
                   currentType: Option<string>)
    returns (text: Option<string>)
    ensures var values := EffectiveFlags(flags, currentFlags);
            text == CpuText(EffectiveType(newType, currentType), AnySet(values), PrintedFlags(values))
  {
    var flagText, flagsSet := MapToApi(if flags.Some? then flags.value else Unset(FLAG_COUNT),
                                       if currentFlags.Some? then currentFlags.value else Unset(FLAG_COUNT));
    var cpuType := "";
    if newType.Some? {
      cpuType := newType.value;
    } else if currentType.Some? {
      cpuType := currentType.value;
    }
    text := CpuText(cpuType, flagsSet, flagText);
  }

  /** The printed type an update results in: the new one, else the current one. */
  function EffectiveType(newType: Option<string>, currentType: Option<string>): string {
    if newType.Some? then newType.value else if currentType.Some? then currentType.value else ""
  }

  /** `QemuCPU.mapToSDK` on the `cpu` parameter: the type, and the texts of the flags if any.
      The first six characters of what follows the comma are taken to be `flags=`. */
  function ReadCpu(text: string): (string, seq<string>) {
    var (cpuType, rest) := CutAt(text, ',');
    if rest.Some? && |rest.value| > 6 then (cpuType, Split(rest.value[6..], ';')) else (cpuType, [])
  }

  lemma {:induction false} SignedOrNone(names: seq<string>, values: seq<Option<TriBool>>, i: nat)
    requires |names| == |values| && i < |values|
    requires FlagTexts(names, values) == []
    ensures ReadBack(values[i]).None?
  {
    var n := |names| - 1;
    var shorter := FlagTexts(names[..n], values[..n]);
    assert |FlagTexts(names, values)| == |shorter| + if Signed(values[n]) then 1 else 0;
    if i < n {
      SignedOrNone(names[..n], values[..n], i);
    }
  }

  lemma FlagNamesArePlain()
    ensures Distinct(FlagNames(FLAG_COUNT)) && forall n | n in FlagNames(FLAG_COUNT) :: ';' !in n
  {
    var names := FlagNames(FLAG_COUNT);
    forall i | 0 <= i < FLAG_COUNT
      ensures FlagIndex(names[i]) == i && ';' !in names[i]
    {
      FlagNameIsPlain(i);
    }
    IndexedNamesAreDistinct(names);
  }

  lemma IndexedNamesAreDistinct(names: seq<string>)
    requires forall i | 0 <= i < |names| :: FlagIndex(names[i]) == i
    ensures Distinct(names)
  {
    forall i, j | 0 <= i < j < |names|
      ensures names[i] != names[j]
    {
      assert FlagIndex(names[i]) != FlagIndex(names[j]);
    }
  }

  /** What the reader makes of the `cpu` parameter: the type and the twelve flags. */
  ghost predicate ReadsAs(text: string, cpuType: string, values: Flags) {
    var (readType, texts) := ReadCpu(text);
    && readType == cpuType
    && (forall t | t in texts :: t != "")
    && forall i: nat | i < FLAG_COUNT :: FlagOf(FlagMap(texts), FlagName(i)) == ReadBack(values[i])
  }

  /** The `cpu` parameter reads back as its type and the value of every flag, including the text
      with an empty flag list and the text without one. */
  lemma CpuReadsBack(cpuType: string, values: Flags, flagsSet: bool)
    requires ',' !in cpuType
    requires flagsSet || PrintedFlags(values) == ""
    ensures var text := CpuText(cpuType, flagsSet, PrintedFlags(values));
            text.Some? ==> ReadsAs(text.value, cpuType, values)
  {
    if FlagTexts(FlagNames(FLAG_COUNT), values) == [] {
      assert PrintedFlags(values) == "";
      NoFlagsRead(cpuType, values);
    } else {
      SomeFlagsRead(cpuType, values);
    }
  }

  lemma NoFlagsRead(cpuType: string, values: Flags)
    requires ',' !in cpuType && FlagTexts(FlagNames(FLAG_COUNT), values) == []
    ensures ReadsAs(cpuType, cpuType, values) && ReadsAs(cpuType + ",flags=", cpuType, values)
  {
    NoFlagsSplit(cpuType);
    forall i: nat | i < FLAG_COUNT
      ensures FlagOf(FlagMap([]), FlagName(i)) == ReadBack(values[i])
    {
      SignedOrNone(FlagNames(FLAG_COUNT), values, i);
    }
  }

  lemma NoFlagsSplit(cpuType: string)
    requires ',' !in cpuType
    ensures ReadCpu(cpuType) == (cpuType, []) && ReadCpu(cpuType + ",flags=") == (cpuType, [])
  {
    CutAtPlain(cpuType, ',');
    assert cpuType + ",flags=" == cpuType + [','] + "flags=";
    CutAtFirst(cpuType, "flags=", ',');
  }

  lemma SomeFlagsRead(cpuType: string, values: Flags)
    requires ',' !in cpuType && FlagTexts(FlagNames(FLAG_COUNT), values) != []
    ensures PrintedFlags(values) != ""
    ensures ReadsAs(cpuType + ",flags=" + PrintedFlags(values)[1..], cpuType, values)
  {
    var names := FlagNames(FLAG_COUNT);
    var texts := FlagTexts(names, values);
    FlagNamesArePlain();
    FlagTextsArePlain(names, values);
    SemicolonsIsJoin(texts);
    FlagsRead(cpuType, texts);
    forall i: nat | i < FLAG_COUNT
      ensures FlagOf(FlagMap(texts), FlagName(i)) == ReadBack(values[i])
    {
      FlagMapHas(names, values, i);
      assert names[i] == FlagName(i);
    }
  }

  lemma FlagsRead(cpuType: string, texts: seq<string>)
    requires ',' !in cpuType && texts != [] && forall t | t in texts :: t != "" && ';' !in t
    ensures ReadCpu(cpuType + ",flags=" + (";" + Join(texts, ';'))[1..]) == (cpuType, texts)
  {
    var joined := Join(texts, ';');
    assert (";" + joined)[1..] == joined;
    assert cpuType + ",flags=" + joined == cpuType + [','] + ("flags=" + joined);
    CutAtFirst(cpuType, "flags=" + joined, ',');
    assert ("flags=" + joined)[6..] == joined;
    assert texts[0] in texts;
    SplitJoin(texts, ';');
  }

  /** The new value of a flag if one is named, else its current value. */
  function Overlaid(flags: Option<Flags>, current: Option<Flags>, i: nat): Option<TriBool>
    requires i < FLAG_COUNT
  {
    if flags.Some? && flags.value[i].Some? then flags.value[i]
    else if current.Some? then current.value[i]
    else None
  }

  lemma EffectiveIsOverlay(flags: Option<Flags>, current: Option<Flags>)
    ensures forall i: nat | i < FLAG_COUNT :: EffectiveFlags(flags, current)[i] == Overlaid(flags, current, i)
  {
  }

  /** An update leaves every flag with its new value if one is named, else its current value;
      neither on nor off reads back as unset. Without a `cpu` parameter nothing was set at all. */
  lemma FlagsOverlay(flags: Option<Flags>, current: Option<Flags>, newType: Option<string>, currentType: Option<string>)
    requires ',' !in EffectiveType(newType, currentType)
    ensures var values := EffectiveFlags(flags, current);
            var cpuType := EffectiveType(newType, currentType);
            && (forall i: nat | i < FLAG_COUNT :: values[i] == Overlaid(flags, current, i))
            && match CpuText(cpuType, AnySet(values), PrintedFlags(values))
               case Some(text) => ReadsAs(text, cpuType, values)
               case None => cpuType == "" && forall i: nat | i < FLAG_COUNT :: values[i].None?
  {
    var values := EffectiveFlags(flags, current);
    if !AnySet(values) {
      NoneSetPrintsNothing(FlagNames(FLAG_COUNT), values);
      assert PrintedFlags(values) == "";
    }
    EffectiveIsOverlay(flags, current);
    CpuReadsBack(EffectiveType(newType, currentType), values, AnySet(values));
  }

  lemma {:induction false} NoneSetPrintsNothing(names: seq<string>, values: seq<Option<TriBool>>)
    requires |names| == |values| && !AnySet(values)
    ensures FlagTexts(names, values) == []
  {
    if names != [] {
      var n := |names| - 1;
      assert values[n].None?;
      assert forall i | 0 <= i < n :: values[..n][i] == values[i];
      NoneSetPrintsNothing(names[..n], values[..n]);
    }
  }
}

/** The `key=value,key=value` texts in which the server stores a device, and the function
    that takes them apart (proxmox/util.go). */
module Settings {
  import opened Text

  /** One comma-separated part as a key and its value; a part without `=` has value "". */
  function KeyOf(part: string): string { CutAt(part, '=').0 }

  function ValueOf(part: string): string {
    match CutAt(part, '=').1
    case Some(v) => v
    case None => ""
  }

  /** The map built from the parts, a later part overwriting an earlier one. */
  function FoldParts(parts: seq<string>): map<string, string> {
    if parts == [] then map[]
    else
      var last := parts[|parts| - 1];
      FoldParts(parts[..|parts| - 1])[KeyOf(last) := ValueOf(last)]
  }

  function SettingsMap(settings: string): map<string, string> {
    FoldParts(Split(settings, ','))
  }

  method SplitStringOfSettings(settings: string) returns (settingMap: map<string, string>)
    ensures settingMap == SettingsMap(settings)
  {
    var settingValuePairs := Split(settings, ',');
    settingMap := map[];
    for i := 0 to |settingValuePairs|
      invariant settingMap == FoldParts(settingValuePairs[..i])
    {
      var e := settingValuePairs[i];
      var (key, rest) := CutAt(e, '=');
      var value := "";
      if rest.Some? {
        value := rest.value;
      }
      settingMap := settingMap[key := value];
      assert settingValuePairs[..i + 1][..i] == settingValuePairs[..i];
    }
    assert settingValuePairs[..|settingValuePairs|] == settingValuePairs;
  }

  /** The value of a setting, absent when the key is not in the text. */
  function Lookup(m: map<string, string>, key: string): Option<string> {
    if key in m then Some(m[key]) else None
  }

  // ---------------------------------------------------------------- printing

  /** The `key=value` parts of the options that are present, in the order of `names`. */
  function Parts(names: seq<string>, values: seq<Option<string>>): (parts: seq<string>)
    requires |names| == |values|
    ensures |parts| <= |names|
  {
    if names == [] then []
    else
      var n := |names| - 1;
      Parts(names[..n], values[..n]) +
      (if values[n].Some? then [names[n] + "=" + values[n].value] else [])
  }

  /** How the printers append options: a comma in front of every part. */
  function Leading(parts: seq<string>): string {
    if parts == [] then ""
    else Leading(parts[..|parts| - 1]) + "," + parts[|parts| - 1]
  }

  lemma {:induction false} LeadingIsJoin(head: string, parts: seq<string>)
    ensures head + Leading(parts) == Join([head] + parts, ',')
  {
    if parts == [] {
      assert [head] + parts == [head];
    } else {
      var n := |parts| - 1;
      LeadingIsJoin(head, parts[..n]);
      JoinAppend([head] + parts[..n], [parts[n]], ',');
      assert [head] + parts == ([head] + parts[..n]) + [parts[n]];
    }
  }

  lemma {:induction false} LeadingAppend(a: seq<string>, b: seq<string>)
    ensures Leading(a + b) == Leading(a) + Leading(b)
  {
    if b == [] {
      assert a + b == a;
    } else {
      var n := |b| - 1;
      LeadingAppend(a, b[..n]);
      assert (a + b)[..|a + b| - 1] == a + b[..n];
    }
  }

  lemma LeadingIsComma(parts: seq<string>)
    requires parts != []
    ensures Leading(parts) == "," + Join(parts, ',')
  {
    LeadingIsJoin("", parts);
    JoinCons("", parts, ',');
    var leading, joined := Leading(parts), Join(parts, ',');
    assert "" + leading == leading && "" + [','] + joined == "," + joined;
  }

  /** Printing options is appending one part after the other. */
  lemma LeadingSnoc(names: seq<string>, values: seq<Option<string>>, i: nat)
    requires |names| == |values| && i < |names|
    ensures Leading(Parts(names[..i + 1], values[..i + 1])) ==
            Leading(Parts(names[..i], values[..i])) + OptionText(names[i], values[i])
  {
    assert names[..i + 1][..i] == names[..i] && values[..i + 1][..i] == values[..i];
    var shorter := Parts(names[..i], values[..i]);
    if values[i].Some? {
      var part := names[i] + "=" + values[i].value;
      assert Parts(names[..i + 1], values[..i + 1]) == shorter + [part];
      assert (shorter + [part])[..|shorter|] == shorter;
    } else {
      assert Parts(names[..i + 1], values[..i + 1]) == shorter;
    }
  }

  /** One option with its comma, or nothing. */
  function OptionText(name: string, value: Option<string>): string {
    if value.Some? then "," + (name + "=" + value.value) else ""
  }

  /** The texts of the first `i` options, one behind the other. */
  function FirstTexts(names: seq<string>, values: seq<Option<string>>, i: nat): string
    requires |names| == |values| && i <= |names|
  {
    if i == 0 then "" else FirstTexts(names, values, i - 1) + OptionText(names[i - 1], values[i - 1])
  }

  lemma {:induction false} FirstTextsAreLeading(names: seq<string>, values: seq<Option<string>>, i: nat)
    requires |names| == |values| && i <= |names|
    ensures FirstTexts(names, values, i) == Leading(Parts(names[..i], values[..i]))
  {
    if i > 0 {
      FirstTextsAreLeading(names, values, i - 1);
      LeadingSnoc(names, values, i - 1);
    }
  }

  lemma FirstFour(names: seq<string>, values: seq<Option<string>>, a: string, b: string, c: string, d: string)
    requires |names| == |values| == 4
    requires a == OptionText(names[0], values[0]) && b == OptionText(names[1], values[1])
    requires c == OptionText(names[2], values[2]) && d == OptionText(names[3], values[3])
    ensures FirstTexts(names, values, 4) == (a + b) + (c + d)
  {
    var l1, l2, l3 := FirstTexts(names, values, 1), FirstTexts(names, values, 2), FirstTexts(names, values, 3);
    FourTexts(FirstTexts(names, values, 0), l1, l2, l3, a, b, c, d);
  }

  lemma FourTexts(l0: string, l1: string, l2: string, l3: string, a: string, b: string, c: string, d: string)
    requires l0 == "" && l1 == l0 + a && l2 == l1 + b && l3 == l2 + c
    ensures l3 + d == (a + b) + (c + d)
  {
    EmptyInFront(a);
    Regroup(a + b, c, d);
  }

  lemma FourOptions(names: seq<string>, values: seq<Option<string>>)
    requires |names| == |values| == 4
    ensures Leading(Parts(names, values)) ==
            (OptionText(names[0], values[0]) + OptionText(names[1], values[1])) +
            (OptionText(names[2], values[2]) + OptionText(names[3], values[3]))
  {
    FirstTextsAreLeading(names, values, 4);
    AllNames(names, values);
    FirstFour(names, values, OptionText(names[0], values[0]), OptionText(names[1], values[1]),
              OptionText(names[2], values[2]), OptionText(names[3], values[3]));
  }

  lemma AllNames(names: seq<string>, values: seq<Option<string>>)
    requires |names| == |values|
    ensures Parts(names[..|names|], values[..|values|]) == Parts(names, values)
  {
    assert names[..|names|] == names && values[..|values|] == values;
  }

  lemma EmptyInFront(a: string)
    ensures "" + a == a
  {
  }

  lemma Regroup(a: string, b: string, c: string)
    ensures (a + b) + c == a + (b + c)
  {
  }

  /** Appends every option that is present, each with its comma, to `head`. */
  method AppendOptions(head: string, names: seq<string>, values: seq<Option<string>>) returns (settings: string)
    requires |names| == |values|
    ensures settings == head + Leading(Parts(names, values))
  {
    settings := head;
    for i := 0 to |names|
      invariant settings == head + Leading(Parts(names[..i], values[..i]))
    {
      LeadingSnoc(names, values, i);
      Regroup(head, Leading(Parts(names[..i], values[..i])), OptionText(names[i], values[i]));
      settings := settings + OptionText(names[i], values[i]);
    }
    assert head + "" == head;
    assert names[..|names|] == names && values[..|names|] == values;
  }

  /** The head of a text and its options: the text before the first comma is the head. */
  lemma HeadOf(head: string, names: seq<string>, values: seq<Option<string>>)
    requires ',' !in head && Printable(names, values)
    ensures CutAt(head + Leading(Parts(names, values)), ',').0 == head
  {
    var parts := Parts(names, values);
    PartsArePlain(names, values);
    LeadingIsJoin(head, parts);
    if parts == [] {
      SplitPlain(head, ',');
    } else {
      var rest := Join(parts, ',');
      assert ([head] + parts)[1..] == parts;
      CutAtFirst(head, rest, ',');
    }
  }

  predicate Distinct(names: seq<string>) {
    forall i, j | 0 <= i < j < |names| :: names[i] != names[j]
  }

  /** Names and values that survive the text form: keys without separators, values
      without a comma. */
  predicate Printable(names: seq<string>, values: seq<Option<string>>) {
    && |names| == |values|
    && Distinct(names)
    && (forall k | k in names :: ',' !in k && '=' !in k)
    && (forall v | v in values :: v.Some? ==> ',' !in v.value)
  }

  lemma {:induction false} PartsArePlain(names: seq<string>, values: seq<Option<string>>)
    requires Printable(names, values)
    ensures forall p | p in Parts(names, values) :: ',' !in p
  {
    if names != [] {
      var n := |names| - 1;
      assert names[n] in names && values[n] in values;
      assert forall k | k in names[..n] :: k in names;
      assert forall v | v in values[..n] :: v in values;
      PartsArePlain(names[..n], values[..n]);
    }
  }

  /** One step of folding: the last option is written over what the earlier ones gave. */
  lemma FoldLastPart(before: seq<string>, names: seq<string>, values: seq<Option<string>>)
    requires Printable(names, values) && names != []
    ensures var n := |names| - 1;
            var m := FoldParts(before + Parts(names[..n], values[..n]));
            FoldParts(before + Parts(names, values)) ==
            if values[n].Some? then m[names[n] := values[n].value] else m
  {
    var n := |names| - 1;
    var earlier := before + Parts(names[..n], values[..n]);
    if values[n].None? {
      assert Parts(names, values) == Parts(names[..n], values[..n]);
    } else {
      var part := names[n] + "=" + values[n].value;
      assert before + Parts(names, values) == earlier + [part];
      assert names[n] in names;
      FoldPart(earlier, names[n], values[n].value);
    }
  }

  lemma FoldPart(earlier: seq<string>, key: string, value: string)
    requires '=' !in key
    ensures FoldParts(earlier + [key + "=" + value]) == FoldParts(earlier)[key := value]
  {
    var all := earlier + [key + "=" + value];
    CutAtFirst(key, value, '=');
    assert all[..|all| - 1] == earlier;
  }

  lemma {:induction false} FoldPartsOther(before: seq<string>, names: seq<string>, values: seq<Option<string>>,
                                          k: string)
    requires Printable(names, values) && k !in names
    ensures Lookup(FoldParts(before + Parts(names, values)), k) == Lookup(FoldParts(before), k)
  {
    if names == [] {
      assert before + Parts(names, values) == before;
    } else {
      var n := |names| - 1;
      PrintablePrefix(names, values);
      FoldPartsOther(before, names[..n], values[..n], k);
      FoldLastPart(before, names, values);
      assert names[n] in names;
    }
  }

  lemma PrintablePrefix(names: seq<string>, values: seq<Option<string>>)
    requires Printable(names, values) && names != []
    ensures Printable(names[..|names| - 1], values[..|names| - 1])
    ensures names[|names| - 1] !in names[..|names| - 1]
  {
    var n := |names| - 1;
    assert forall k | k in names[..n] :: k in names;
    assert forall v | v in values[..n] :: v in values;
  }

  /** Folding the printed parts gives back the options that were present; for the others, what was
      there before. */
  lemma {:induction false} FoldPartsLookup(before: seq<string>, names: seq<string>, values: seq<Option<string>>, i: nat)
    requires Printable(names, values) && i < |names|
    ensures Lookup(FoldParts(before + Parts(names, values)), names[i]) ==
            if values[i].Some? then values[i] else Lookup(FoldParts(before), names[i])
  {
    var n := |names| - 1;
    PrintablePrefix(names, values);
    FoldLastPart(before, names, values);
    if i < n {
      FoldPartsLookup(before, names[..n], values[..n], i);
    } else {
      FoldPartsOther(before, names[..n], values[..n], names[n]);
    }
  }

  /** The parts of a head come before the printed ones. */
  lemma SplitBehind(head: string, names: seq<string>, values: seq<Option<string>>)
    requires Printable(names, values)
    ensures Split(head + Leading(Parts(names, values)), ',') == Split(head, ',') + Parts(names, values)
  {
    var first, parts := Split(head, ','), Parts(names, values);
    PartsArePlain(names, values);
    LeadingIsJoin(head, parts);
    JoinSplit(head, ',');
    if parts == [] {
      assert first + parts == first;
    } else {
      JoinAppend(first, parts, ',');
      JoinAppend([head], parts, ',');
    }
    SplitJoin(first + parts, ',');
  }

  /** Reading the text `head,key=value,...` gives every printed option its value, and every other key
      what the head alone gives it. */
  lemma ReadPrinted(head: string, names: seq<string>, values: seq<Option<string>>)
    requires Printable(names, values)
    ensures forall i | 0 <= i < |names| ::
              Lookup(SettingsMap(head + Leading(Parts(names, values))), names[i]) ==
              if values[i].Some? then values[i] else Lookup(SettingsMap(head), names[i])
    ensures forall key | key !in names ::
              Lookup(SettingsMap(head + Leading(Parts(names, values))), key) == Lookup(SettingsMap(head), key)
  {
    var parts, first := Parts(names, values), Split(head, ',');
    SplitBehind(head, names, values);
    forall key | key !in names
      ensures Lookup(SettingsMap(head + Leading(parts)), key) == Lookup(SettingsMap(head), key)
    {
      FoldPartsOther(first, names, values, key);
    }
    forall i | 0 <= i < |names|
      ensures Lookup(SettingsMap(head + Leading(parts)), names[i]) ==
              if values[i].Some? then values[i] else Lookup(SettingsMap(head), names[i])
    {
      FoldPartsLookup(first, names, values, i);
    }
  }

  /** A head without a comma is one setting. */
  lemma OneSetting(head: string)
    requires ',' !in head
    ensures SettingsMap(head) == map[KeyOf(head) := ValueOf(head)]
  {
    SplitPlain(head, ',');
    assert [head][..0] == [];
  }

  /** The same for a text that starts with its first option, the leading comma cut off. */
  lemma ReadPrintedBare(names: seq<string>, values: seq<Option<string>>)
    requires Printable(names, values) && Parts(names, values) != []
    ensures |Leading(Parts(names, values))| > 0
    ensures forall i | 0 <= i < |names| ::
              Lookup(SettingsMap(Leading(Parts(names, values))[1..]), names[i]) == values[i]
  {
    var parts := Parts(names, values);
    PartsArePlain(names, values);
    LeadingIsComma(parts);
    var joined := Join(parts, ',');
    SplitJoin(parts, ',');
    assert [] + parts == parts;
    forall i | 0 <= i < |names|
      ensures Lookup(SettingsMap(joined), names[i]) == values[i]
    {
      FoldPartsLookup([], names, values, i);
    }
  }
}

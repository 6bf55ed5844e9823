/** Cloud-init parameters: the network interfaces of a guest as a whole, and the rest of
    `CloudInit.mapToAPI` with its delete list (proxmox/config_qemu_cloudinit.go). */
module CloudInit {
  import opened Text
  import opened Keys
  import Settings
  import opened ApiParams
  import opened CloudInitNet

  // ---------------------------------------------------------------- network interfaces

  ghost predicate Visits(order: seq<nat>, interfaces: Interfaces) {
    && (forall i :: i in order <==> i in interfaces)
    && (forall a, b | 0 <= a < b < |order| :: order[a] != order[b])
  }

  function CurrentOf(current: Interfaces, i: nat): Option<Network> {
    if i in current then Some(current[i]) else None
  }

  /** The text of an interface after the update, with its leading comma. */
  function After(interfaces: Interfaces, current: Interfaces, i: nat): string
    requires i in interfaces
  {
    NetworkText(Overlay(interfaces[i], CurrentOf(current, i)))
  }

  predicate Cleared(interfaces: Interfaces, current: Interfaces, i: nat) {
    i in interfaces && After(interfaces, current, i) == "" && i in current
  }

  /** The interfaces that are deleted because nothing is left of them, in the order of the visit. */
  function InterfaceDeletes(interfaces: Interfaces, current: Interfaces, order: seq<nat>): seq<Key> {
    if order == [] then []
    else
      var i := order[|order| - 1];
      InterfaceDeletes(interfaces, current, order[..|order| - 1]) +
      (if Cleared(interfaces, current, i) then [IpConfig(i)] else [])
  }

  /** The parameter of an interface is written. */
  ghost predicate Sets(interfaces: Interfaces, current: Interfaces, k: Key) {
    k.IpConfig? && k.id in interfaces && After(interfaces, current, k.id) != ""
  }

  /** The parameters after some of the interfaces. */
  ghost predicate Written(interfaces: Interfaces, current: Interfaces, visited: seq<nat>,
                          base: map<Key, Value>, values: map<Key, Value>)
  {
    && (forall k :: k in values <==> k in base || (Sets(interfaces, current, k) && k.id in visited))
    && (forall k | Sets(interfaces, current, k) && k.id in visited ::
        values[k] == SetText(After(interfaces, current, k.id)[1..]))
    && (forall k | k in base && !(Sets(interfaces, current, k) && k.id in visited) :: values[k] == base[k])
  }

  lemma DeleteInterface(interfaces: Interfaces, current: Interfaces, visited: seq<nat>, i: nat)
    ensures CommaText(InterfaceDeletes(interfaces, current, visited + [i])) ==
            CommaText(InterfaceDeletes(interfaces, current, visited)) +
            if Cleared(interfaces, current, i) then "," + Name(IpConfig(i)) else ""
    ensures CommaText(InterfaceDeletes(interfaces, current, visited)) + "" ==
            CommaText(InterfaceDeletes(interfaces, current, visited))
  {
    var keys := InterfaceDeletes(interfaces, current, visited);
    assert (visited + [i])[..|visited|] == visited;
    if Cleared(interfaces, current, i) {
      CommaSnoc(keys, IpConfig(i));
    } else {
      assert keys + [] == keys;
      assert CommaText(keys) + "" == CommaText(keys);
    }
  }

  lemma WriteStep(interfaces: Interfaces, current: Interfaces, visited: seq<nat>, i: nat,
                  base: map<Key, Value>, values: map<Key, Value>, values': map<Key, Value>)
    requires i in interfaces && Written(interfaces, current, visited, base, values)
    requires var param := After(interfaces, current, i);
             values' == if param != "" then values[IpConfig(i) := SetText(param[1..])] else values
    ensures Written(interfaces, current, visited + [i], base, values')
  {
  }

  /** What the loop has produced after some of the interfaces. */
  ghost predicate Passed(interfaces: Interfaces, current: Interfaces, visited: seq<nat>,
                         base: map<Key, Value>, values: map<Key, Value>, delete: string)
  {
    Written(interfaces, current, visited, base, values) &&
    delete == CommaText(InterfaceDeletes(interfaces, current, visited))
  }

  lemma NonePassed(interfaces: Interfaces, current: Interfaces, base: map<Key, Value>)
    ensures Passed(interfaces, current, [], base, base, "")
  {
  }

  lemma PassStep(interfaces: Interfaces, current: Interfaces, visited: seq<nat>, i: nat, base: map<Key, Value>,
                 values: map<Key, Value>, delete: string, values': map<Key, Value>, delete': string)
    requires i in interfaces && Passed(interfaces, current, visited, base, values, delete)
    requires var param := After(interfaces, current, i);
             values' == if param != "" then values[IpConfig(i) := SetText(param[1..])] else values
    requires delete' == delete + if Cleared(interfaces, current, i) then "," + Name(IpConfig(i)) else ""
    ensures Passed(interfaces, current, visited + [i], base, values', delete')
  {
    WriteStep(interfaces, current, visited, i, base, values, values');
    DeleteInterface(interfaces, current, visited, i);
  }

  /** One round of the loop: the interface is set, or deleted when nothing is left of it. */
  method MapInterfaceToApi(interfaces: Interfaces, current: Interfaces, i: nat, params: Params, delete: string)
    returns (deleted: string)
    modifies params
    requires i in interfaces
    ensures var param := After(interfaces, current, i);
            && params.values == (if param != "" then old(params.values)[IpConfig(i) := SetText(param[1..])]
                                 else old(params.values))
            && deleted == delete + if Cleared(interfaces, current, i) then "," + Name(IpConfig(i)) else ""
  {
    deleted := delete;
    var tmpCurrent := CurrentOf(current, i);
    var param := MapNetworkToApi(interfaces[i], tmpCurrent);
    if param != "" {
      params.values := params.values[IpConfig(i) := SetText(param[1..])];
    } else if tmpCurrent.Some? {
      deleted := deleted + ("," + Name(IpConfig(i)));
      return;
    }
    assert delete + "" == delete;
  }

  method MapNextToApi(interfaces: Interfaces, current: Interfaces, i: nat, params: Params, delete: string,
                      ghost visited: seq<nat>, ghost base: map<Key, Value>)
    returns (deleted: string)
    requires i in interfaces && Passed(interfaces, current, visited, base, params.values, delete)
    modifies params
    ensures Passed(interfaces, current, visited + [i], base, params.values, deleted)
  {
    ghost var values := params.values;
    deleted := MapInterfaceToApi(interfaces, current, i, params, delete);
    PassStep(interfaces, current, visited, i, base, values, delete, params.values, deleted);
  }

  /** `CloudInitNetworkInterfaces.mapToAPI`: the interfaces are visited in the unspecified order
      of a Go map. */
  method MapInterfacesToApi(interfaces: Interfaces, current: Interfaces, params: Params)
    returns (delete: string, ghost order: seq<nat>)
    modifies params
    ensures Visits(order, interfaces)
    ensures Passed(interfaces, current, order, old(params.values), params.values, delete)
  {
    delete, order := "", [];
    var todo := interfaces.Keys;
    ghost var base := params.values;
    NonePassed(interfaces, current, base);
    while todo != {}
      invariant todo <= interfaces.Keys
      invariant forall i :: i in order <==> i in interfaces && i !in todo
      invariant forall a, b | 0 <= a < b < |order| :: order[a] != order[b]
      invariant Passed(interfaces, current, order, base, params.values, delete)
    {
      var i :| i in todo;
      delete := MapNextToApi(interfaces, current, i, params, delete, order, base);
      order := order + [i];
      todo := todo - {i};
    }
  }

  /** Texts of at most one character count as absent. */
  predicate Present(texts: map<Key, string>, i: nat) {
    i < INTERFACE_COUNT && IpConfig(i) in texts && |texts[IpConfig(i)]| > 1
  }

  /** `CloudInitNetworkInterfaces.mapToSDK`. */
  function ReadInterfaces(texts: map<Key, string>): Interfaces {
    map i: nat | i < INTERFACE_COUNT && Present(texts, i) :: ReadNetwork(texts[IpConfig(i)])
  }

  method MapInterfacesToSdk(texts: map<Key, string>) returns (ci: Interfaces)
    ensures ci == ReadInterfaces(texts)
  {
    ci := map[];
    for i := 0 to INTERFACE_COUNT
      invariant forall j: nat :: j in ci <==> j < i && Present(texts, j)
      invariant forall j: nat | j in ci :: ci[j] == ReadNetwork(texts[IpConfig(j)])
    {
      if IpConfig(i) in texts {
        var tmp := texts[IpConfig(i)];
        if |tmp| > 1 {
          var network := MapNetworkToSdk(tmp);
          ci := ci[i := network];
        }
      }
    }
  }

  lemma {:induction false} InterfaceDeleted(interfaces: Interfaces, current: Interfaces, order: seq<nat>, k: Key)
    ensures k in InterfaceDeletes(interfaces, current, order) <==>
            k.IpConfig? && k.id in order && Cleared(interfaces, current, k.id)
  {
    if order != [] {
      var n := |order| - 1;
      InterfaceDeleted(interfaces, current, order[..n], k);
      assert order == order[..n] + [order[n]];
    }
  }

  /** The texts after a call. */
  ghost function Patch(texts: map<Key, string>, sets: map<Key, Value>, deletes: seq<Key>): map<Key, string> {
    (map k | k in texts && k !in deletes :: texts[k]) + (map k | k in sets :: ValueText(sets[k]))
  }

  /** What the client sees of an interface, nothing when there is no text. */
  function InterfaceAt(texts: map<Key, string>, i: nat): Network {
    if Present(texts, i) then ReadNetwork(texts[IpConfig(i)]) else NOTHING
  }

  /** Every interface is as asked for, field by field; an interface that is not named has its text. */
  predicate InterfaceAsAsked(interfaces: Interfaces, before: map<Key, string>, after: map<Key, string>, i: nat) {
    if i in interfaces then
      NetworkAsAsked(interfaces[i], InterfaceAt(before, i), InterfaceAt(after, i)) &&
      (Present(after, i) <==> InterfaceAt(after, i) != NOTHING)
    else Unchanged(before, after, IpConfig(i))
  }

  /** What a call leaves of an interface. */
  predicate InterfacePatches(interfaces: Interfaces, current: Interfaces, before: map<Key, string>,
                             after: map<Key, string>, i: nat) {
    Patched(before, after, IpConfig(i),
            if i in interfaces && After(interfaces, current, i) != ""
            then Some(SetText(After(interfaces, current, i)[1..])) else None, Cleared(interfaces, current, i))
  }

  lemma InterfaceIsAsAsked(interfaces: Interfaces, before: map<Key, string>, after: map<Key, string>, i: nat)
    requires InterfacePatches(interfaces, ReadInterfaces(before), before, after, i)
    requires i in interfaces ==> i < INTERFACE_COUNT && PlainNetwork(interfaces[i])
    requires PlainNetwork(InterfaceAt(before, i))
    ensures InterfaceAsAsked(interfaces, before, after, i)
    ensures i in interfaces ==>
              var n := Overlay(interfaces[i], CurrentOf(ReadInterfaces(before), i));
              InterfaceAt(after, i) == n && (Present(after, i) <==> n != NOTHING)
  {
    var current := ReadInterfaces(before);
    if i in interfaces {
      var n := Overlay(interfaces[i], CurrentOf(current, i));
      OverlayIsSettled(interfaces[i], CurrentOf(current, i));
      OverlayIsAsAsked(interfaces[i], CurrentOf(current, i));
      NetworkReadsBack(n);
      AfterIsRead(interfaces, before, after, i, n);
    }
  }

  lemma AfterIsRead(interfaces: Interfaces, before: map<Key, string>, after: map<Key, string>, i: nat, n: Network)
    requires InterfacePatches(interfaces, ReadInterfaces(before), before, after, i)
    requires i in interfaces && i < INTERFACE_COUNT && n == Overlay(interfaces[i], CurrentOf(ReadInterfaces(before), i))
    requires NetworkText(n) == "" <==> n == NOTHING
    requires n != NOTHING ==> |NetworkText(n)| > 2 && ReadNetwork(NetworkText(n)[1..]) == n
    ensures InterfaceAt(after, i) == n && (Present(after, i) <==> n != NOTHING)
  {
    var current := ReadInterfaces(before);
    assert After(interfaces, current, i) == NetworkText(n);
    assert i in current <==> Present(before, i);
  }

  /** Reading back after an update gives every named interface as asked for, field by field; one with
      nothing left is gone; the others are unchanged. */
  lemma InterfacesReadBack(interfaces: Interfaces, texts: map<Key, string>, order: seq<nat>, sets: map<Key, Value>)
    requires ValidInterfaces(interfaces) && Visits(order, interfaces)
    requires forall i | i in ReadInterfaces(texts) :: PlainNetwork(ReadInterfaces(texts)[i])
    requires Written(interfaces, ReadInterfaces(texts), order, map[], sets)
    ensures var after := Patch(texts, sets, InterfaceDeletes(interfaces, ReadInterfaces(texts), order));
            forall i :: InterfaceAsAsked(interfaces, texts, after, i)
  {
    var current := ReadInterfaces(texts);
    var patched := Patch(texts, sets, InterfaceDeletes(interfaces, current, order));
    forall i: nat
      ensures InterfaceAsAsked(interfaces, texts, patched, i)
    {
      PatchedAt(interfaces, current, texts, order, sets, i);
      assert i in current <==> Present(texts, i);
      InterfaceIsAsAsked(interfaces, texts, patched, i);
    }
  }

  lemma PatchLookup(texts: map<Key, string>, sets: map<Key, Value>, deletes: seq<Key>, k: Key)
    ensures k in sets ==> k in Patch(texts, sets, deletes) && Patch(texts, sets, deletes)[k] == ValueText(sets[k])
    ensures k !in sets && k in deletes ==> k !in Patch(texts, sets, deletes)
    ensures k !in sets && k !in deletes ==>
              && (k in Patch(texts, sets, deletes) <==> k in texts)
              && (k in texts ==> Patch(texts, sets, deletes)[k] == texts[k])
  {
  }

  /** The text of one interface after the call. */
  lemma PatchedAt(interfaces: Interfaces, current: Interfaces, texts: map<Key, string>, order: seq<nat>,
                  sets: map<Key, Value>, i: nat)
    requires Visits(order, interfaces) && Written(interfaces, current, order, map[], sets)
    ensures var patched := Patch(texts, sets, InterfaceDeletes(interfaces, current, order));
            InterfacePatches(interfaces, current, texts, patched, i)
  {
    var k := IpConfig(i);
    var deletes := InterfaceDeletes(interfaces, current, order);
    InterfaceDeleted(interfaces, current, order, k);
    PatchLookup(texts, sets, deletes, k);
    IsWritten(interfaces, current, order, sets, i);
  }

  lemma IsWritten(interfaces: Interfaces, current: Interfaces, order: seq<nat>, sets: map<Key, Value>, i: nat)
    requires Visits(order, interfaces) && Written(interfaces, current, order, map[], sets)
    ensures var text := if i in interfaces then After(interfaces, current, i) else "";
            if text != "" then IpConfig(i) in sets && sets[IpConfig(i)] == SetText(text[1..]) else IpConfig(i) !in sets
  {
    assert Sets(interfaces, current, IpConfig(i)) ==> i in order;
  }

  /** No interface is deleted twice. */
  lemma {:induction false} InterfacesDeletedOnce(interfaces: Interfaces, current: Interfaces, order: seq<nat>)
    requires forall a, b | 0 <= a < b < |order| :: order[a] != order[b]
    ensures Once(InterfaceDeletes(interfaces, current, order))
  {
    if order != [] {
      var n := |order| - 1;
      InterfacesDeletedOnce(interfaces, current, order[..n]);
      InterfaceDeleted(interfaces, current, order[..n], IpConfig(order[n]));
    }
  }

  // ---------------------------------------------------------------- the other parameters

  datatype Dns = Dns(searchDomain: Option<string>, nameServers: Option<seq<string>>)

  /** `custom` and `sshKeys` carry the texts their own printers produce. */
  datatype CloudInit = CloudInit(
    custom: Option<string>, dns: Option<Dns>, networkInterfaces: Interfaces, sshKeys: Option<seq<string>>,
    upgradePackages: Option<bool>, userPassword: Option<string>, username: Option<string>)

  predicate Blank(s: Option<string>) { s == Some("") }

  predicate Given(s: Option<string>) { s.Some? && s.value != "" }

  function Domain(c: CloudInit): Option<string> { if c.dns.Some? then c.dns.value.searchDomain else None }

  function Servers(c: CloudInit): Option<seq<string>> { if c.dns.Some? then c.dns.value.nameServers else None }

  /** The encoded keys one behind the other. */
  function Concatenated(texts: seq<string>): string {
    if texts == [] then "" else Concatenated(texts[..|texts| - 1]) + texts[|texts| - 1]
  }

  lemma {:induction false} ConcatenatedAppend(a: seq<string>, b: seq<string>)
    ensures Concatenated(a + b) == Concatenated(a) + Concatenated(b)
    ensures |a| == 1 ==> Concatenated(a) == a[0]
  {
    if b == [] {
      assert a + b == a;
    } else {
      var n := |b| - 1;
      ConcatenatedAppend(a, b[..n]);
      assert (a + b)[..|a + b| - 1] == a + b[..n];
    }
  }

  /** What the update of an existing cloud-init configuration deletes in front of and behind the
      network interfaces. */
  function DeletesBefore(c: CloudInit): seq<Key> {
    (if Blank(c.username) then [Plain(CiUser)] else []) +
    (if Blank(c.userPassword) then [Plain(CiPassword)] else []) +
    (if Blank(Domain(c)) then [Plain(SearchDomain)] else []) +
    (if Servers(c) == Some([]) then [Plain(NameServer)] else [])
  }

  function DeletesBehind(c: CloudInit): seq<Key> {
    if c.sshKeys == Some([]) then [Plain(SshKeys)] else []
  }

  /** Everything that is deleted, in order. */
  function Deletes(c: CloudInit, current: Option<CloudInit>, order: seq<nat>): seq<Key> {
    match current
    case None => []
    case Some(old_) =>
      DeletesBefore(c) + InterfaceDeletes(c.networkInterfaces, old_.networkInterfaces, order) + DeletesBehind(c)
  }

  /** The words that are set. */
  ghost predicate SetsWord(c: CloudInit, version8: bool, w: Word) { WordValue(c, version8, w).Some? }

  ghost predicate SetsKey(c: CloudInit, current: Option<CloudInit>, version8: bool, k: Key) {
    match k
    case Plain(w) => SetsWord(c, version8, w)
    case IpConfig(i) => i in c.networkInterfaces && After(c.networkInterfaces, InterfacesOf(current), i) != ""
    case _ => false
  }

  /** Every parameter of the call that belongs to cloud-init has its value. */
  ghost predicate Valued(c: CloudInit, current: Option<CloudInit>, version8: bool, values: map<Key, Value>) {
    && (forall w | SetsWord(c, version8, w) ::
        Plain(w) in values && values[Plain(w)] == WordValue(c, version8, w).value)
    && (forall i | i in c.networkInterfaces && After(c.networkInterfaces, InterfacesOf(current), i) != "" ::
         IpConfig(i) in values && values[IpConfig(i)] ==
         SetText(After(c.networkInterfaces, InterfacesOf(current), i)[1..]))
  }

  function InterfacesOf(current: Option<CloudInit>): Interfaces {
    if current.Some? then current.value.networkInterfaces else map[]
  }

  /** `CloudInit.mapToAPI`. Creating and updating set the same parameters, only an update deletes. */
  method MapToApi(config: CloudInit, current: Option<CloudInit>, params: Params, version8: bool)
    returns (delete: string, ghost order: seq<nat>)
    modifies params
    ensures Visits(order, config.networkInterfaces)
    ensures delete == CommaText(Deletes(config, current, order))
    ensures Wrote(old(params.values), params.values, (k: Key) => SetsKey(config, current, version8, k))
    ensures Valued(config, current, version8, params.values)
  {
    delete := "";
    ghost var v0 := params.values;
    SetDetails(config, params, version8);
    ghost var v1 := params.values;
    var interfaces;
    var now := InterfacesOf(current);
    interfaces, order := MapInterfacesToApi(config.networkInterfaces, now, params);
    WroteBoth(v0, v1, params.values, config, current, version8, order);
    if current.Some? {
      delete := DeleteBlank(config, interfaces,
                            InterfaceDeletes(config.networkInterfaces, current.value.networkInterfaces, order));
    }
  }

  lemma WroteBoth(v0: map<Key, Value>, v1: map<Key, Value>, v2: map<Key, Value>, c: CloudInit,
                  current: Option<CloudInit>,
                  version8: bool, order: seq<nat>)
    requires Wrote(v0, v1, (k: Key) => k.Plain? && SetsWord(c, version8, k.word))
    requires forall w | SetsWord(c, version8, w) :: v1[Plain(w)] == WordValue(c, version8, w).value
    requires Visits(order, c.networkInterfaces) && Written(c.networkInterfaces, InterfacesOf(current), order, v1, v2)
    ensures Wrote(v0, v2, (k: Key) => SetsKey(c, current, version8, k))
    ensures Valued(c, current, version8, v2)
  {
    var now := InterfacesOf(current);
    forall k
      ensures SetsKey(c, current, version8, k) <==>
              (k.Plain? && SetsWord(c, version8, k.word)) || Sets(c.networkInterfaces, now, k)
      ensures Sets(c.networkInterfaces, now, k) ==> k.id in order
    {
    }
    ValuedBoth(v1, v2, c, current, version8, order);
  }

  lemma ValuedBoth(v1: map<Key, Value>, v2: map<Key, Value>, c: CloudInit, current: Option<CloudInit>, version8: bool,
                   order: seq<nat>)
    requires forall w | SetsWord(c, version8, w) :: Plain(w) in v1 && v1[Plain(w)] == WordValue(c, version8, w).value
    requires Visits(order, c.networkInterfaces) && Written(c.networkInterfaces, InterfacesOf(current), order, v1, v2)
    ensures Valued(c, current, version8, v2)
  {
    var now := InterfacesOf(current);
    forall w | SetsWord(c, version8, w)
      ensures Plain(w) in v2 && v2[Plain(w)] == WordValue(c, version8, w).value
    {
      assert !Sets(c.networkInterfaces, now, Plain(w));
    }
    forall i | i in c.networkInterfaces && After(c.networkInterfaces, now, i) != ""
      ensures IpConfig(i) in v2 && v2[IpConfig(i)] == SetText(After(c.networkInterfaces, now, i)[1..])
    {
      assert Sets(c.networkInterfaces, now, IpConfig(i)) && i in order;
    }
  }

  /** The value of a parameter other than the network interfaces. */
  function WordValue(c: CloudInit, version8: bool, w: Word): Option<Value> {
    match w
    case CiCustom => if c.custom.Some? then Some(SetText(c.custom.value)) else None
    case CiUser => if Given(c.username) then Some(SetText(c.username.value)) else None
    case SearchDomain => if Given(Domain(c)) then Some(SetText(Domain(c).value)) else None
    case NameServer =>
      if Servers(c).Some? && Servers(c).value != [] then Some(SetText(Join(Servers(c).value, ' '))) else None
    case SshKeys =>
      if c.sshKeys.Some? && c.sshKeys.value != [] then Some(SetText(Concatenated(c.sshKeys.value))) else None
    case CiUpgrade =>
      if c.upgradePackages.Some? && version8 then Some(SetNumber(if c.upgradePackages.value then 1 else 0)) else None
    case CiPassword => if Given(c.userPassword) then Some(SetText(c.userPassword.value)) else None
    case _ => None
  }

  /** The parameters after some of the words. */
  ghost predicate WroteWords(c: CloudInit, version8: bool, words: set<Word>, base: map<Key, Value>,
                             values: map<Key, Value>) {
    && (forall k :: k in values <==> k in base || (k.Plain? && k.word in words && SetsWord(c, version8, k.word)))
    && (forall k | k in values ::
         values[k] == if k.Plain? && k.word in words && SetsWord(c, version8, k.word)
                      then WordValue(c, version8, k.word).value else base[k])
  }

  /** Sets the parameter when it is given. */
  method SetWord(c: CloudInit, version8: bool, w: Word, when_: bool, value: Value, params: Params,
                 ghost words: set<Word>, ghost base: map<Key, Value>)
    requires WordValue(c, version8, w) == if when_ then Some(value) else None
    requires WroteWords(c, version8, words, base, params.values)
    modifies params
    ensures WroteWords(c, version8, words + {w}, base, params.values)
  {
    ghost var values := params.values;
    if when_ {
      params.values := params.values[Plain(w) := value];
    }
    WroteOneMore(c, version8, words, w, base, values, params.values);
  }

  lemma WroteOneMore(c: CloudInit, version8: bool, words: set<Word>, w: Word, base: map<Key, Value>,
                     values: map<Key, Value>, values': map<Key, Value>)
    requires WroteWords(c, version8, words, base, values)
    requires var value := WordValue(c, version8, w);
             values' == if value.Some? then values[Plain(w) := value.value] else values
    ensures WroteWords(c, version8, words + {w}, base, values')
  {
    forall k: Key
      ensures k.Plain? && k.word in words + {w} <==> (k.Plain? && k.word in words) || k == Plain(w)
    {
    }
  }

  lemma WroteAll(c: CloudInit, version8: bool, words: set<Word>, base: map<Key, Value>, values: map<Key, Value>)
    requires WroteWords(c, version8, words, base, values)
    requires words == {CiCustom, CiUser, SearchDomain, NameServer, SshKeys, CiUpgrade, CiPassword}
    ensures Wrote(base, values, (k: Key) => k.Plain? && SetsWord(c, version8, k.word))
    ensures forall w | SetsWord(c, version8, w) :: values[Plain(w)] == WordValue(c, version8, w).value
  {
    assert forall w | SetsWord(c, version8, w) :: w in words;
    forall w | SetsWord(c, version8, w)
      ensures values[Plain(w)] == WordValue(c, version8, w).value
    {
      assert Plain(w) in values;
    }
  }

  function TextOf(s: Option<string>): Value { SetText(if s.Some? then s.value else "") }

  /** The parameters other than the network interfaces. */
  method SetDetails(config: CloudInit, params: Params, version8: bool)
    modifies params
    ensures Wrote(old(params.values), params.values, (k: Key) => k.Plain? && SetsWord(config, version8, k.word))
    ensures forall w | SetsWord(config, version8, w) :: params.values[Plain(w)] == WordValue(config, version8, w).value
  {
    ghost var base, words := params.values, {};
    SetWord(config, version8, CiCustom, config.custom.Some?, TextOf(config.custom), params, words, base);
    words := words + {CiCustom};
    SetWord(config, version8, CiUser, Given(config.username), TextOf(config.username), params, words, base);
    words := words + {CiUser};
    var domain, servers := Domain(config), Servers(config);
    SetWord(config, version8, SearchDomain, Given(domain), TextOf(domain), params, words, base);
    words := words + {SearchDomain};
    SetWord(config, version8, NameServer, servers.Some? && servers.value != [],
            SetText(Join(if servers.Some? then servers.value else [], ' ')), params, words, base);
    words := words + {NameServer};
    SetShared(config, params, version8, words, base);
  }

  /** The keys, the upgrade flag and the password. */
  method SetShared(config: CloudInit, params: Params, version8: bool, ghost words: set<Word>,
                   ghost base: map<Key, Value>)
    requires WroteWords(config, version8, words, base, params.values) &&
             words == {CiCustom, CiUser, SearchDomain, NameServer}
    modifies params
    ensures Wrote(base, params.values, (k: Key) => k.Plain? && SetsWord(config, version8, k.word))
    ensures forall w | SetsWord(config, version8, w) :: params.values[Plain(w)] == WordValue(config, version8, w).value
  {
    ghost var more := words;
    SetWord(config, version8, SshKeys, config.sshKeys.Some? && config.sshKeys.value != [],
            SetText(Concatenated(if config.sshKeys.Some? then config.sshKeys.value else [])), params, more, base);
    more := more + {SshKeys};
    SetWord(config, version8, CiUpgrade, config.upgradePackages.Some? && version8,
            SetNumber(if config.upgradePackages == Some(true) then 1 else 0), params, more, base);
    more := more + {CiUpgrade};
    SetWord(config, version8, CiPassword, Given(config.userPassword), TextOf(config.userPassword), params, more, base);
    more := more + {CiPassword};
    WroteAll(config, version8, more, base, params.values);
  }

  method DeleteBlank(config: CloudInit, interfaces: string, ghost dropped: seq<Key>) returns (delete: string)
    requires interfaces == CommaText(dropped)
    ensures delete == CommaText(DeletesBefore(config) + dropped + DeletesBehind(config))
  {
    var domain, servers := Domain(config), Servers(config);
    delete := Drop("", [], Blank(config.username), CiUser);
    ghost var k1 := [] + if Blank(config.username) then [Plain(CiUser)] else [];
    delete := Drop(delete, k1, Blank(config.userPassword), CiPassword);
    ghost var k2 := k1 + if Blank(config.userPassword) then [Plain(CiPassword)] else [];
    delete := Drop(delete, k2, Blank(domain), SearchDomain);
    ghost var k3 := k2 + if Blank(domain) then [Plain(SearchDomain)] else [];
    delete := Drop(delete, k3, servers == Some([]), NameServer);
    ghost var k4 := k3 + if servers == Some([]) then [Plain(NameServer)] else [];
    assert k4 == DeletesBefore(config);
    CommaAppend(k4, dropped);
    delete := delete + interfaces;
    delete := Drop(delete, k4 + dropped, config.sshKeys == Some([]), SshKeys);
  }

  /** No cloud-init parameter is both set and deleted. */
  lemma SetsAndDeletesAreDisjoint(c: CloudInit, current: Option<CloudInit>, version8: bool, order: seq<nat>, k: Key)
    requires k in Deletes(c, current, order)
    ensures !SetsKey(c, current, version8, k)
    ensures k.IpConfig? || (k.Plain? && k.word in {CiUser, CiPassword, SearchDomain, NameServer, SshKeys})
  {
    var interfaces := InterfaceDeletes(c.networkInterfaces, current.value.networkInterfaces, order);
    InterfaceDeleted(c.networkInterfaces, current.value.networkInterfaces, order, k);
    assert k in DeletesBefore(c) || k in interfaces || k in DeletesBehind(c);
  }

  /** No cloud-init parameter is deleted twice. */
  lemma DeletesOnce(c: CloudInit, current: Option<CloudInit>, order: seq<nat>)
    requires forall a, b | 0 <= a < b < |order| :: order[a] != order[b]
    ensures Once(Deletes(c, current, order))
  {
    if current.Some? {
      var interfaces := InterfaceDeletes(c.networkInterfaces, current.value.networkInterfaces, order);
      InterfacesDeletedOnce(c.networkInterfaces, current.value.networkInterfaces, order);
      forall k
        ensures k in interfaces ==> k.IpConfig?
      {
        InterfaceDeleted(c.networkInterfaces, current.value.networkInterfaces, order, k);
      }
      BeforeAndBehind(c);
      OnceAppend(DeletesBefore(c), interfaces);
      OnceAppend(DeletesBefore(c) + interfaces, DeletesBehind(c));
    }
  }

  lemma BeforeAndBehind(c: CloudInit)
    ensures Once(DeletesBefore(c)) && Once(DeletesBehind(c))
    ensures forall k | k in DeletesBefore(c) :: k.Plain? && k.word in {CiUser, CiPassword, SearchDomain, NameServer}
    ensures forall k | k in DeletesBehind(c) :: k == Plain(SshKeys)
  {
  }

  // ---------------------------------------------------------------- on the server

  const DETAIL_WORDS: set<Word> := {CiCustom, CiUser, CiPassword, SearchDomain, NameServer, SshKeys, CiUpgrade}

  /** Something is there that the client counts as cloud-init: a user name or a search domain that is
      almost empty does not count on its own. */
  predicate Seen(texts: map<Key, string>) {
    || Plain(CiCustom) in texts || Plain(CiPassword) in texts || Plain(CiUpgrade) in texts || Plain(SshKeys) in texts
    || Plain(NameServer) in texts || (Plain(CiUser) in texts && texts[Plain(CiUser)] !in {"", " "})
    || (Plain(SearchDomain) in texts && |texts[Plain(SearchDomain)]| > 1) || ReadInterfaces(texts) != map[]
  }

  /** `CloudInit.mapToSDK`. */
  function Read(texts: map<Key, string>): Option<CloudInit> {
    if !Seen(texts) then None
    else
      var user, domain := TextAt(texts, Plain(CiUser)), TextAt(texts, Plain(SearchDomain));
      var servers := TextAt(texts, Plain(NameServer));
      var named := domain.Some? && |domain.value| > 1;
      Some(CloudInit(
        TextAt(texts, Plain(CiCustom)),
        if servers.Some? || named
        then Some(Dns(Some(if named then domain.value else ""),
                      Some(if servers.Some? then Split(servers.value, ' ') else [])))
        else None,
        ReadInterfaces(texts), match TextAt(texts, Plain(SshKeys)) case Some(text) => Some([text]) case None => None,
        match TextAt(texts, Plain(CiUpgrade)) case Some(text) => Some(text == "1") case None => None,
        TextAt(texts, Plain(CiPassword)), if user.Some? && user.value !in {"", " "} then user else None))
  }

  /** A text is set when it is given; an empty one is removed when the client sees a cloud-init
      configuration at all. */
  predicate TextAsAsked(text: Option<string>, seen: bool, w: Word, before: map<Key, string>, after: map<Key, string>) {
    TextAt(after, Plain(w)) ==
    match text
    case None => TextAt(before, Plain(w))
    case Some(t) => if t != "" then text else if seen then None else TextAt(before, Plain(w))
  }

  /** So is a list. */
  predicate ListAsAsked(list: Option<seq<string>>, seen: bool, w: Word, before: map<Key, string>,
                        after: map<Key, string>) {
    match list
    case None => Unchanged(before, after, Plain(w))
    case Some(items) =>
      if items != [] then TextAt(after, Plain(w)).Some?
      else TextAt(after, Plain(w)) == if seen then None else TextAt(before, Plain(w))
  }

  /** The cloud-init parameters other than the interfaces are as asked for, in terms of the fields of the
      configuration. */
  predicate DetailsAsAsked(c: CloudInit, version8: bool, before: map<Key, string>, after: map<Key, string>) {
    var seen := Seen(before);
    var domain := if c.dns.Some? then c.dns.value.searchDomain else None;
    var servers := if c.dns.Some? then c.dns.value.nameServers else None;
    && TextAsAsked(c.username, seen, CiUser, before, after)
    && TextAsAsked(c.userPassword, seen, CiPassword, before, after)
    && TextAsAsked(domain, seen, SearchDomain, before, after)
    && ListAsAsked(servers, seen, NameServer, before, after)
    && (servers.Some? && servers.value != [] && (forall s | s in servers.value :: ' ' !in s) ==>
         Split(TextAt(after, Plain(NameServer)).value, ' ') == servers.value)
    && ListAsAsked(c.sshKeys, seen, SshKeys, before, after)
    && (c.sshKeys.Some? && c.sshKeys.value != [] ==>
         TextAt(after, Plain(SshKeys)).value == Concatenated(c.sshKeys.value))
    && TextAt(after, Plain(CiUpgrade)) == (
         if c.upgradePackages.Some? && version8 then Some(if c.upgradePackages.value then "1" else "0")
         else TextAt(before, Plain(CiUpgrade)))
    && TextAt(after, Plain(CiCustom)) == if c.custom.Some? then c.custom else TextAt(before, Plain(CiCustom))
  }

  predicate DeletesWord(c: CloudInit, current: Option<CloudInit>, w: Word) {
    current.Some? && (Plain(w) in DeletesBefore(c) || Plain(w) in DeletesBehind(c))
  }

  /** What a call leaves of the parameters other than the interfaces. */
  predicate DetailPatches(c: CloudInit, current: Option<CloudInit>, version8: bool, before: map<Key, string>,
                          after: map<Key, string>) {
    forall w | w in DETAIL_WORDS :: PatchedBy(c, current, version8, before, after, w)
  }

  /** The client read the configuration, or the guest is new. */
  predicate IsCurrent(current: Option<CloudInit>, before: map<Key, string>) {
    (current.Some? <==> Seen(before)) && InterfacesOf(current) == ReadInterfaces(before)
  }

  lemma ReadIsCurrent(texts: map<Key, string>)
    ensures IsCurrent(Read(texts), texts)
  {
  }

  lemma DetailsAreAsAsked(c: CloudInit, current: Option<CloudInit>, version8: bool, before: map<Key, string>,
                          after: map<Key, string>)
    requires (current.Some? <==> Seen(before)) && DetailPatches(c, current, version8, before, after)
    ensures DetailsAsAsked(c, version8, before, after)
  {
    assert CiUser in DETAIL_WORDS && CiPassword in DETAIL_WORDS && SearchDomain in DETAIL_WORDS;
    assert NameServer in DETAIL_WORDS && SshKeys in DETAIL_WORDS;
    assert CiCustom in DETAIL_WORDS && CiUpgrade in DETAIL_WORDS;
    TextIsAsAsked(c, current, version8, before, after, CiUser);
    TextIsAsAsked(c, current, version8, before, after, CiPassword);
    TextIsAsAsked(c, current, version8, before, after, SearchDomain);
    ServersAreAsAsked(c, current, version8, before, after);
    KeysAreAsAsked(c, current, version8, before, after);
    FlagIsAsAsked(c, current, version8, before, after);
    CustomIsAsAsked(c, current, version8, before, after);
  }

  predicate PatchedBy(c: CloudInit, current: Option<CloudInit>, version8: bool, before: map<Key, string>,
                      after: map<Key, string>, w: Word) {
    Patched(before, after, Plain(w), WordValue(c, version8, w), DeletesWord(c, current, w))
  }

  /** A guest whose only cloud-init parameter is a blank user name: the client sees no configuration, and
      does not remove it. */
  lemma BlankUserIsNotRemoved(c: CloudInit, order: seq<nat>)
    requires c.username == Some("")
    ensures var before := map[Plain(CiUser) := " "];
            Read(before).None? && Deletes(c, Read(before), order) == []
  {
    var before := map[Plain(CiUser) := " "];
    assert ReadInterfaces(before) == map[];
  }

  lemma TextIsAsAsked(c: CloudInit, current: Option<CloudInit>, version8: bool, before: map<Key, string>,
                      after: map<Key, string>, w: Word)
    requires w in {CiUser, CiPassword, SearchDomain} && PatchedBy(c, current, version8, before, after, w)
    ensures TextAsAsked(if w == CiUser then c.username
                        else if w == CiPassword then c.userPassword
                        else if c.dns.Some? then c.dns.value.searchDomain else None,
                        current.Some?, w, before, after)
  {
  }

  lemma ServersAreAsAsked(c: CloudInit, current: Option<CloudInit>, version8: bool, before: map<Key, string>,
                          after: map<Key, string>)
    requires PatchedBy(c, current, version8, before, after, NameServer)
    ensures var servers := if c.dns.Some? then c.dns.value.nameServers else None;
            && ListAsAsked(servers, current.Some?, NameServer, before, after)
            && (servers.Some? && servers.value != [] && (forall s | s in servers.value :: ' ' !in s) ==>
                 Split(TextAt(after, Plain(NameServer)).value, ' ') == servers.value)
  {
    var servers := if c.dns.Some? then c.dns.value.nameServers else None;
    if servers.Some? && servers.value != [] && forall s | s in servers.value :: ' ' !in s {
      SplitJoin(servers.value, ' ');
    }
  }

  lemma KeysAreAsAsked(c: CloudInit, current: Option<CloudInit>, version8: bool, before: map<Key, string>,
                       after: map<Key, string>)
    requires PatchedBy(c, current, version8, before, after, SshKeys)
    ensures ListAsAsked(c.sshKeys, current.Some?, SshKeys, before, after)
    ensures c.sshKeys.Some? && c.sshKeys.value != [] ==>
              TextAt(after, Plain(SshKeys)).value == Concatenated(c.sshKeys.value)
  {
  }

  lemma FlagIsAsAsked(c: CloudInit, current: Option<CloudInit>, version8: bool, before: map<Key, string>,
                      after: map<Key, string>)
    requires PatchedBy(c, current, version8, before, after, CiUpgrade)
    ensures TextAt(after, Plain(CiUpgrade)) ==
            if c.upgradePackages.Some? && version8 then Some(if c.upgradePackages.value then "1" else "0")
            else TextAt(before, Plain(CiUpgrade))
  {
    assert Decimal(1) == "1" && Decimal(0) == "0";
    assert !DeletesWord(c, current, CiUpgrade);
  }

  lemma CustomIsAsAsked(c: CloudInit, current: Option<CloudInit>, version8: bool, before: map<Key, string>,
                        after: map<Key, string>)
    requires PatchedBy(c, current, version8, before, after, CiCustom)
    ensures TextAt(after, Plain(CiCustom)) == if c.custom.Some? then c.custom else TextAt(before, Plain(CiCustom))
  {
    assert !DeletesWord(c, current, CiCustom);
  }
}

/** The configuration call of a guest: `ConfigQemu.mapToAPI` (proxmox/config_qemu.go). Six parts
    write parameters into one map and name items for one delete list. */
module Config {
  import opened Text
  import opened Keys
  import opened ApiParams
  import opened DiskPlan
  import opened DiskParams
  import DiskLaws
  import TpmConfig
  import Cpu
  import CloudInitNet
  import CloudInit
  import MemoryConfig
  import SerialConfig

  /** The parts of a guest configuration that plan something; the others are copied one by one. */
  datatype ConfigQemu = ConfigQemu(
    vmID: uint, linkedVmId: uint, tpm: Option<TpmConfig.TpmState>, disks: Option<Storages>, cpu: Option<Cpu.QemuCpu>,
    cloudInit: Option<CloudInit.CloudInit>, memory: Option<MemoryConfig.QemuMemory>,
    serials: Option<SerialConfig.SerialInterfaces>)

  /** The empty configuration a creation starts from. */
  const NOTHING := ConfigQemu(0, 0, None, None, None, None, None, None)

  function CurrentDisks(current: ConfigQemu): Storages {
    if current.disks.Some? then current.disks.value else map[]
  }

  function CurrentLinkedVm(current: ConfigQemu): uint {
    if current.disks.Some? then current.linkedVmId else 0
  }

  function CurrentSerials(current: ConfigQemu): SerialConfig.SerialInterfaces {
    if current.serials.Some? then current.serials.value else map[]
  }

  // ---------------------------------------------------------------- what is set

  predicate SetsTpm(config: ConfigQemu, current: ConfigQemu) {
    config.tpm.Some? && !config.tpm.value.delete && current.tpm.None?
  }

  function TpmValues(config: ConfigQemu, current: ConfigQemu): map<Key, Value> {
    if SetsTpm(config, current) && config.tpm.value.version.Some?
    then map[Key.TpmState := SetTpm(config.tpm.value.storage, TpmConfig.VersionText(config.tpm.value.version.value))]
    else map[]
  }

  function DiskSets(config: ConfigQemu, current: ConfigQemu): map<Key, Value> {
    if config.disks.None? then map[]
    else SetsOf(config.disks.value, CurrentDisks(current), config.vmID, CurrentLinkedVm(current))
  }

  ghost predicate CpuSets(config: ConfigQemu, current: ConfigQemu, k: Key) {
    config.cpu.Some? && Cpu.SetsKey(config.cpu.value, current.cpu, k)
  }

  ghost predicate CloudInitSets(config: ConfigQemu, current: ConfigQemu, version8: bool, k: Key) {
    config.cloudInit.Some? && CloudInit.SetsKey(config.cloudInit.value, current.cloudInit, version8, k)
  }

  function MemoryValues(config: ConfigQemu, current: ConfigQemu): map<Key, Value> {
    if config.memory.None? then map[]
    else MemoryConfig.Writes(map[], MemoryConfig.SentOf(config.memory.value, current.memory))
  }

  predicate SerialSets(config: ConfigQemu, current: ConfigQemu, k: Key) {
    config.serials.Some? && k.Serial? && SerialConfig.Sets(config.serials.value, CurrentSerials(current), k.id)
  }

  /** The parameter is part of the call. */
  ghost predicate SetsKey(config: ConfigQemu, current: ConfigQemu, version8: bool, k: Key) {
    match k
    case Drive(_, _) => k in DiskSets(config, current)
    case TpmState => SetsTpm(config, current)
    case IpConfig(_) => CloudInitSets(config, current, version8, k)
    case Serial(_) => SerialSets(config, current, k)
    case Plain(_) =>
      CpuSets(config, current, k) || CloudInitSets(config, current, version8, k) || k in MemoryValues(config, current)
  }

  /** Every parameter of the call has the value its part gives it. */
  ghost predicate Valued(config: ConfigQemu, current: ConfigQemu, version8: bool, values: map<Key, Value>) {
    && (forall k | k in DiskSets(config, current) :: k in values && values[k] == DiskSets(config, current)[k])
    && (forall k | k in TpmValues(config, current) :: k in values && values[k] == TpmValues(config, current)[k])
    && (forall k | CpuSets(config, current, k) ::
         k in values && values[k] == Cpu.WordValue(config.cpu.value, current.cpu, k.word).value)
    && (config.cloudInit.Some? ==> CloudInit.Valued(config.cloudInit.value, current.cloudInit, version8, values))
    && (forall k | k in MemoryValues(config, current) :: k in values && values[k] == MemoryValues(config, current)[k])
    && (forall k | SerialSets(config, current, k) ::
         k in values && values[k] == SetText(SerialConfig.PortText(config.serials.value[k.id])))
  }

  // ---------------------------------------------------------------- what is deleted

  /** The orders in which the Go maps were visited. */
  datatype Orders = Orders(disks: seq<Key>, interfaces: seq<nat>, serials: seq<nat>)

  ghost predicate Enumerated(config: ConfigQemu, orders: Orders) {
    && (config.disks.Some? ==> Enumerates(orders.disks, config.disks.value.Keys))
    && (config.cloudInit.Some? ==> CloudInit.Visits(orders.interfaces, config.cloudInit.value.networkInterfaces))
    && (config.serials.Some? ==> SerialConfig.Visits(orders.serials, config.serials.value))
  }

  function TpmDeletes(config: ConfigQemu): seq<Key> {
    if config.tpm.Some? && config.tpm.value.delete then [Key.TpmState] else []
  }

  function DiskDeletes(config: ConfigQemu, current: ConfigQemu, order: seq<Key>): seq<Key> {
    if config.disks.None? || current.disks.None? then []
    else RemovedOf(config.disks.value, current.disks.value, config.vmID, current.linkedVmId, order)
  }

  function CpuDeletes(config: ConfigQemu, current: ConfigQemu): seq<Key> {
    if config.cpu.None? then [] else Cpu.DeletedKeys(config.cpu.value, current.cpu)
  }

  function CloudInitDeletes(config: ConfigQemu, current: ConfigQemu, order: seq<nat>): seq<Key> {
    if config.cloudInit.None? then [] else CloudInit.Deletes(config.cloudInit.value, current.cloudInit, order)
  }

  function MemoryDeletes(config: ConfigQemu, current: ConfigQemu): seq<Key> {
    if config.memory.None? then [] else MemoryConfig.DeletedKeys(config.memory.value, current.memory)
  }

  function SerialDeletes(config: ConfigQemu, current: ConfigQemu, order: seq<nat>): seq<Key> {
    if config.serials.None? then [] else SerialConfig.DeletedKeys(config.serials.value, CurrentSerials(current), order)
  }

  /** The items the six parts ask to delete, in the order they are assembled. */
  function Requested(config: ConfigQemu, current: ConfigQemu, orders: Orders): seq<Key> {
    TpmDeletes(config) + DiskDeletes(config, current, orders.disks) + CpuDeletes(config, current) +
    CloudInitDeletes(config, current, orders.interfaces) + MemoryDeletes(config, current) +
    SerialDeletes(config, current, orders.serials)
  }

  // ---------------------------------------------------------------- assembling

  /** What `Validate` and the data conversions guarantee before the call is assembled. */
  ghost predicate Mappable(config: ConfigQemu, current: ConfigQemu) {
    && (config.disks.Some? ==> AllConverted(config.disks.value))
    && AllConverted(CurrentDisks(current))
    && (SetsTpm(config, current) ==> config.tpm.value.version.Some?)
  }

  method MapTpm(config: ConfigQemu, current: ConfigQemu, params: Params) returns (itemsToDelete: string)
    requires Mappable(config, current) && params.values == map[]
    modifies params
    ensures Assembles(itemsToDelete, TpmDeletes(config))
    ensures params.values == TpmValues(config, current)
  {
    itemsToDelete := "";
    if config.tpm.Some? {
      var delete := TpmConfig.MapToApi(config.tpm.value, current.tpm, params);
      if delete != "" {
        itemsToDelete := AddToList(itemsToDelete, delete);
      }
      TpmName();
    }
  }

  lemma TpmName()
    ensures ListText([Key.TpmState]) == "tpmstate0"
  {
    assert Names([Key.TpmState]) == [Name(Key.TpmState)];
    assert Decimal(0) == "0";
  }

  method MapDisks(config: ConfigQemu, current: ConfigQemu, params: Params, items: string, ghost keys: seq<Key>)
    returns (itemsToDelete: string, ghost order: seq<Key>)
    requires Mappable(config, current) && Assembles(items, keys)
    modifies params
    ensures config.disks.Some? ==> Enumerates(order, config.disks.value.Keys)
    ensures Assembles(itemsToDelete, keys + DiskDeletes(config, current, order))
    ensures params.values == old(params.values) + DiskSets(config, current)
  {
    itemsToDelete, order := items, [];
    assert keys + [] == keys;
    if config.disks.Some? {
      var delete;
      if current.disks.Some? {
        delete, order := MapStorages(config.disks.value, current.disks.value, config.vmID, current.linkedVmId, params);
        ghost var removed := DiskDeletes(config, current, order);
        if delete != "" {
          itemsToDelete := AddToList(items, delete);
          assert removed != [];
          AddToListAssembles(items, keys, removed);
        } else if removed != [] {
          ListTextNonEmpty(removed);
        }
      } else {
        delete, order := MapStorages(config.disks.value, map[], config.vmID, 0, params);
      }
    }
  }

  /** What a part does to the parameters written before it. */
  ghost predicate CpuPart(config: ConfigQemu, current: ConfigQemu, before: map<Key, Value>, after: map<Key, Value>) {
    if config.cpu.None? then after == before
    else
      && Wrote(before, after, (k: Key) => Cpu.SetsKey(config.cpu.value, current.cpu, k))
      && (forall k | Cpu.SetsKey(config.cpu.value, current.cpu, k) ::
           after[k] == Cpu.WordValue(config.cpu.value, current.cpu, k.word).value)
  }

  ghost predicate CloudInitPart(config: ConfigQemu, current: ConfigQemu, version8: bool,
                                before: map<Key, Value>, after: map<Key, Value>)
  {
    if config.cloudInit.None? then after == before
    else
      && Wrote(before, after, (k: Key) => CloudInit.SetsKey(config.cloudInit.value, current.cloudInit, version8, k))
      && CloudInit.Valued(config.cloudInit.value, current.cloudInit, version8, after)
  }

  ghost predicate SerialPart(config: ConfigQemu, current: ConfigQemu, before: map<Key, Value>, after: map<Key, Value>) {
    && Wrote(before, after, (k: Key) => SerialSets(config, current, k))
    && (forall k | SerialSets(config, current, k) ::
        after[k] == SetText(SerialConfig.PortText(config.serials.value[k.id])))
  }

  method MapCpu(config: ConfigQemu, current: ConfigQemu, params: Params, items: string, ghost keys: seq<Key>)
    returns (itemsToDelete: string)
    requires Assembles(items, keys)
    modifies params
    ensures Assembles(itemsToDelete, keys + CpuDeletes(config, current))
    ensures CpuPart(config, current, old(params.values), params.values)
  {
    itemsToDelete := items;
    assert keys + [] == keys;
    if config.cpu.Some? {
      var delete := Cpu.MapToApi(config.cpu.value, current.cpu, params);
      itemsToDelete := itemsToDelete + delete;
      ConcatAssembles(items, keys, CpuDeletes(config, current));
    }
  }

  method MapCloudInit(config: ConfigQemu, current: ConfigQemu, version8: bool, params: Params, items: string,
                      ghost keys: seq<Key>)
    returns (itemsToDelete: string, ghost order: seq<nat>)
    requires Assembles(items, keys)
    modifies params
    ensures config.cloudInit.Some? ==> CloudInit.Visits(order, config.cloudInit.value.networkInterfaces)
    ensures Assembles(itemsToDelete, keys + CloudInitDeletes(config, current, order))
    ensures CloudInitPart(config, current, version8, old(params.values), params.values)
  {
    itemsToDelete, order := items, [];
    assert keys + [] == keys;
    if config.cloudInit.Some? {
      var delete;
      delete, order := CloudInit.MapToApi(config.cloudInit.value, current.cloudInit, params, version8);
      itemsToDelete := itemsToDelete + delete;
      ConcatAssembles(items, keys, CloudInitDeletes(config, current, order));
    }
  }

  method MapMemory(config: ConfigQemu, current: ConfigQemu, params: Params, items: string, ghost keys: seq<Key>)
    returns (itemsToDelete: string)
    requires Assembles(items, keys)
    modifies params
    ensures Assembles(itemsToDelete, keys + MemoryDeletes(config, current))
    ensures params.values == old(params.values) + MemoryValues(config, current)
  {
    itemsToDelete := items;
    assert keys + [] == keys;
    if config.memory.Some? {
      var delete := MemoryConfig.MapToApi(config.memory.value, current.memory, params);
      itemsToDelete := itemsToDelete + delete;
      WritesOver(old(params.values), MemoryConfig.SentOf(config.memory.value, current.memory));
      SharesText(config.memory.value, current.memory);
      ConcatAssembles(items, keys, MemoryDeletes(config, current));
    }
  }

  lemma WritesOver(base: map<Key, Value>, s: MemoryConfig.Sent)
    ensures MemoryConfig.Writes(base, s) == base + MemoryConfig.Writes(map[], s)
  {
  }

  lemma SharesText(config: MemoryConfig.QemuMemory, current: Option<MemoryConfig.QemuMemory>)
    ensures CommaText(MemoryConfig.DeletedKeys(config, current)) ==
            if MemoryConfig.SentOf(config, current).deleteShares then ",shares" else ""
  {
    var none: seq<Key> := [];
    CommaSnoc(none, Plain(Shares));
    assert none + [Plain(Shares)] == [Plain(Shares)];
    assert Name(Plain(Shares)) == "shares";
  }

  method MapSerials(config: ConfigQemu, current: ConfigQemu, params: Params, items: string, ghost keys: seq<Key>)
    returns (itemsToDelete: string, ghost order: seq<nat>)
    requires Assembles(items, keys)
    modifies params
    ensures config.serials.Some? ==> SerialConfig.Visits(order, config.serials.value)
    ensures Assembles(itemsToDelete, keys + SerialDeletes(config, current, order))
    ensures SerialPart(config, current, old(params.values), params.values)
  {
    itemsToDelete, order := items, [];
    assert keys + [] == keys;
    if config.serials.Some? {
      var delete;
      ghost var before := params.values;
      delete, order := SerialConfig.MapToApi(config.serials.value, CurrentSerials(current), params);
      itemsToDelete := itemsToDelete + delete;
      SerialsPassed(config, current, order, before, params.values, delete);
      ConcatAssembles(items, keys, SerialDeletes(config, current, order));
    } else {
      NoSerials(config, current, params.values);
    }
  }

  lemma NoSerials(config: ConfigQemu, current: ConfigQemu, values: map<Key, Value>)
    requires config.serials.None?
    ensures SerialPart(config, current, values, values)
  {
  }

  lemma SerialsPassed(config: ConfigQemu, current: ConfigQemu, order: seq<nat>, before: map<Key, Value>,
                      after: map<Key, Value>, delete: string)
    requires config.serials.Some? && SerialConfig.Visits(order, config.serials.value)
    requires SerialConfig.Passed(config.serials.value, CurrentSerials(current), order, before, after, delete)
    ensures SerialPart(config, current, before, after)
    ensures delete == CommaText(SerialDeletes(config, current, order))
  {
    var ports, now := config.serials.value, CurrentSerials(current);
    forall k
      ensures SerialSets(config, current, k) <==> k.Serial? && k.id in order && SerialConfig.Sets(ports, now, k.id)
    {
    }
  }

  /** `ConfigQemu.mapToAPI`: the six parts one after the other. The delete list is well formed and
      names exactly what the parts asked for; exactly the parameters of the parts are set. */
  method MapToApi(config: ConfigQemu, current: ConfigQemu, version8: bool)
    returns (params: Params, delete: string, ghost orders: Orders)
    requires Mappable(config, current)
    ensures fresh(params)
    ensures Enumerated(config, orders)
    ensures delete == ListText(Requested(config, current, orders))
    ensures forall k :: k in params.values <==> SetsKey(config, current, version8, k)
    ensures Valued(config, current, version8, params.values)
  {
    params := new Params();
    ghost var disks, interfaces, serials;
    var items := MapTpm(config, current, params);
    ghost var keys, v0 := TpmDeletes(config), params.values;
    items, disks := MapDisks(config, current, params, items, keys);
    keys := keys + DiskDeletes(config, current, disks);
    ghost var v1 := params.values;
    items := MapCpu(config, current, params, items, keys);
    keys := keys + CpuDeletes(config, current);
    ghost var v2 := params.values;
    items, interfaces := MapCloudInit(config, current, version8, params, items, keys);
    keys := keys + CloudInitDeletes(config, current, interfaces);
    ghost var v3 := params.values;
    items := MapMemory(config, current, params, items, keys);
    keys := keys + MemoryDeletes(config, current);
    ghost var v4 := params.values;
    items, serials := MapSerials(config, current, params, items, keys);
    keys := keys + SerialDeletes(config, current, serials);
    TrimAssembled(items, keys);
    delete := TrimComma(items);
    orders := Orders(disks, interfaces, serials);
    PartsSet(config, current, version8, v1, v2, v3, v4, params.values);
  }

  /** The six parts write different parameters, so that all they wrote is there in the end. */
  lemma PartsSet(config: ConfigQemu, current: ConfigQemu, version8: bool, v1: map<Key, Value>, v2: map<Key, Value>,
                 v3: map<Key, Value>, v4: map<Key, Value>, v5: map<Key, Value>)
    requires Mappable(config, current)
    requires v1 == TpmValues(config, current) + DiskSets(config, current)
    requires CpuPart(config, current, v1, v2) && CloudInitPart(config, current, version8, v2, v3)
    requires v4 == v3 + MemoryValues(config, current) && SerialPart(config, current, v4, v5)
    ensures forall k :: k in v5 <==> SetsKey(config, current, version8, k)
    ensures Valued(config, current, version8, v5)
  {
    CpuWrote(config, current, v1, v2);
    CloudInitWrote(config, current, version8, v2, v3);
    PartsStay(config, current, version8, v1, v2, v3, v4, v5, MemoryValues(config, current));
    PartsAreKeys(config, current, version8, v1, v5);
    if config.cloudInit.Some? {
      CloudInitStays(config, current, version8, v3, v5);
    }
  }

  lemma PartsAreKeys(config: ConfigQemu, current: ConfigQemu, version8: bool, v1: map<Key, Value>, v5: map<Key, Value>)
    requires Mappable(config, current) && v1 == TpmValues(config, current) + DiskSets(config, current)
    requires forall k :: k in v5 <==>
              k in v1 || CpuSets(config, current, k) || CloudInitSets(config, current, version8, k) ||
              k in MemoryValues(config, current) || SerialSets(config, current, k)
    ensures forall k :: k in v5 <==> SetsKey(config, current, version8, k)
  {
    forall k
      ensures k in v5 <==> SetsKey(config, current, version8, k)
    {
      KindsOfParts(config, current, version8, k);
    }
  }

  /** What a part wrote is not overwritten by the later ones. */
  lemma PartsStay(config: ConfigQemu, current: ConfigQemu, version8: bool, v1: map<Key, Value>, v2: map<Key, Value>,
                  v3: map<Key, Value>, v4: map<Key, Value>, v5: map<Key, Value>, memory: map<Key, Value>)
    requires Mappable(config, current)
    requires v1 == TpmValues(config, current) + DiskSets(config, current) && memory == MemoryValues(config, current)
    requires Wrote(v1, v2, (k: Key) => CpuSets(config, current, k))
    requires Wrote(v2, v3, (k: Key) => CloudInitSets(config, current, version8, k))
    requires v4 == v3 + memory && Wrote(v4, v5, (k: Key) => SerialSets(config, current, k))
    ensures forall k :: k in v5 <==>
              k in v1 || CpuSets(config, current, k) || CloudInitSets(config, current, version8, k) ||
              k in memory || SerialSets(config, current, k)
    ensures forall k :: k in v1 ==> v5[k] == v1[k]
    ensures forall k :: CpuSets(config, current, k) ==> v5[k] == v2[k]
    ensures forall k :: CloudInitSets(config, current, version8, k) ==> v5[k] == v3[k]
    ensures forall k :: k in memory ==> v5[k] == memory[k]
  {
    var cpu, cloudInit := (k: Key) => CpuSets(config, current, k),
        (k: Key) => CloudInitSets(config, current, version8, k);
    var serial := (k: Key) => SerialSets(config, current, k);
    AllApart(config, current, version8, v1, cpu, cloudInit, memory, serial);
    Layered(v1, v2, v3, v4, v5, cpu, cloudInit, memory, serial);
  }

  lemma AllApart(config: ConfigQemu, current: ConfigQemu, version8: bool, v1: map<Key, Value>, cpu: Key -> bool,
                 cloudInit: Key -> bool, memory: map<Key, Value>, serial: Key -> bool)
    requires Mappable(config, current)
    requires v1 == TpmValues(config, current) + DiskSets(config, current) && memory == MemoryValues(config, current)
    requires forall k :: cpu(k) == CpuSets(config, current, k)
    requires forall k :: cloudInit(k) == CloudInitSets(config, current, version8, k)
    requires forall k :: serial(k) == SerialSets(config, current, k)
    ensures forall k :: k in v1 ==> !cpu(k) && !cloudInit(k) && k !in memory && !serial(k)
    ensures forall k :: cpu(k) ==> !cloudInit(k) && k !in memory && !serial(k)
    ensures forall k :: cloudInit(k) ==> k !in memory && !serial(k)
    ensures forall k :: k in memory ==> !serial(k)
  {
    forall k: Key
      ensures k in v1 ==> !cpu(k) && !cloudInit(k) && k !in memory && !serial(k)
      ensures cpu(k) ==> !cloudInit(k) && k !in memory && !serial(k)
      ensures cloudInit(k) ==> k !in memory && !serial(k)
      ensures k in memory ==> !serial(k)
    {
      PartsApart(config, current, version8, k);
    }
  }

  /** No two parts write the same parameter. */
  lemma PartsApart(config: ConfigQemu, current: ConfigQemu, version8: bool, k: Key)
    requires Mappable(config, current)
    ensures k in TpmValues(config, current) || k in DiskSets(config, current) ==>
              !CpuSets(config, current, k) && !CloudInitSets(config, current, version8, k) &&
              k !in MemoryValues(config, current) && !SerialSets(config, current, k)
    ensures CpuSets(config, current, k) ==>
              !CloudInitSets(config, current, version8, k) && k !in MemoryValues(config, current) &&
              !SerialSets(config, current, k)
    ensures CloudInitSets(config, current, version8, k) ==>
              k !in MemoryValues(config, current) && !SerialSets(config, current, k)
    ensures k in MemoryValues(config, current) ==> !SerialSets(config, current, k)
  {
    KindsOfParts(config, current, version8, k);
  }

  lemma CpuWrote(config: ConfigQemu, current: ConfigQemu, before: map<Key, Value>, after: map<Key, Value>)
    requires CpuPart(config, current, before, after)
    ensures Wrote(before, after, (k: Key) => CpuSets(config, current, k))
  {
  }

  lemma CloudInitWrote(config: ConfigQemu, current: ConfigQemu, version8: bool, before: map<Key, Value>,
                       after: map<Key, Value>)
    requires CloudInitPart(config, current, version8, before, after)
    ensures Wrote(before, after, (k: Key) => CloudInitSets(config, current, version8, k))
  {
  }

  lemma KindsOfParts(config: ConfigQemu, current: ConfigQemu, version8: bool, k: Key)
    requires Mappable(config, current)
    ensures k in DiskSets(config, current) ==> k.Drive?
    ensures CpuSets(config, current, k) ==>
            k.Plain? && !CloudInitSets(config, current, version8, k) && k !in MemoryValues(config, current)
    ensures CloudInitSets(config, current, version8, k) ==>
            (k.Plain? || k.IpConfig?) && k !in MemoryValues(config, current)
    ensures k in MemoryValues(config, current) ==> k.Plain? && k.word in {Memory, Balloon, Shares}
  {
  }

  lemma CloudInitStays(config: ConfigQemu, current: ConfigQemu, version8: bool, v3: map<Key, Value>,
                       v5: map<Key, Value>)
    requires config.cloudInit.Some? && CloudInit.Valued(config.cloudInit.value, current.cloudInit, version8, v3)
    requires forall k | CloudInitSets(config, current, version8, k) && k in v3 :: k in v5 && v5[k] == v3[k]
    ensures CloudInit.Valued(config.cloudInit.value, current.cloudInit, version8, v5)
  {
    var c := config.cloudInit.value;
    forall w | CloudInit.SetsWord(c, version8, w)
      ensures Plain(w) in v5 && v5[Plain(w)] == CloudInit.WordValue(c, version8, w).value
    {
      assert CloudInitSets(config, current, version8, Plain(w));
    }
    var now := CloudInit.InterfacesOf(current.cloudInit);
    forall i | i in c.networkInterfaces && CloudInit.After(c.networkInterfaces, now, i) != ""
      ensures IpConfig(i) in v5 && v5[IpConfig(i)] == SetText(CloudInit.After(c.networkInterfaces, now, i)[1..])
    {
      assert CloudInitSets(config, current, version8, IpConfig(i));
    }
  }

  /** Four layers on top of a map, each writing keys the later ones leave alone. */
  lemma Layered(v1: map<Key, Value>, v2: map<Key, Value>, v3: map<Key, Value>, v4: map<Key, Value>, v5: map<Key, Value>,
                cpu: Key -> bool, cloudInit: Key -> bool, memory: map<Key, Value>, serial: Key -> bool)
    requires Wrote(v1, v2, cpu) && Wrote(v2, v3, cloudInit) && v4 == v3 + memory && Wrote(v4, v5, serial)
    requires forall k :: cpu(k) ==> !cloudInit(k) && k !in memory && !serial(k)
    requires forall k :: cloudInit(k) ==> k !in memory && !serial(k)
    requires forall k :: k in memory ==> !serial(k)
    ensures forall k :: k in v5 <==> k in v1 || cpu(k) || cloudInit(k) || k in memory || serial(k)
    ensures forall k :: k in v1 && !cpu(k) && !cloudInit(k) && k !in memory && !serial(k) ==> v5[k] == v1[k]
    ensures forall k :: cpu(k) ==> v5[k] == v2[k]
    ensures forall k :: cloudInit(k) ==> v5[k] == v3[k]
    ensures forall k :: k in memory ==> v5[k] == memory[k]
  {
  }

  // ---------------------------------------------------------------- the delete list

  /** The item is asked for by one of the parts, whatever the order of the Go maps. */
  ghost predicate DeletesKey(config: ConfigQemu, current: ConfigQemu, k: Key) {
    match k
    case Drive(_, _) =>
      config.disks.Some? && current.disks.Some? && k in config.disks.value &&
      PlanOf(config.disks.value, current.disks.value, k, config.vmID, current.linkedVmId).Remove?
    case TpmState => config.tpm.Some? && config.tpm.value.delete
    case IpConfig(i) =>
      config.cloudInit.Some? && current.cloudInit.Some? &&
      CloudInit.Cleared(config.cloudInit.value.networkInterfaces, current.cloudInit.value.networkInterfaces, i)
    case Serial(i) => config.serials.Some? && SerialConfig.Deletes(config.serials.value, CurrentSerials(current), i)
    case Plain(_) =>
      k in CpuDeletes(config, current) || k in MemoryDeletes(config, current) ||
      (config.cloudInit.Some? && current.cloudInit.Some? &&
       (k in CloudInit.DeletesBefore(config.cloudInit.value) || k in CloudInit.DeletesBehind(config.cloudInit.value)))
  }

  lemma DiskDeleted(config: ConfigQemu, current: ConfigQemu, orders: Orders, k: Key)
    requires Mappable(config, current) && Enumerated(config, orders)
    ensures k in DiskDeletes(config, current, orders.disks) <==> k.Drive? && DeletesKey(config, current, k)
  {
    if config.disks.Some? && current.disks.Some? {
      DiskLaws.RemovedMember(config.disks.value, current.disks.value, config.vmID, current.linkedVmId, orders.disks, k);
    }
  }

  lemma CloudInitDeleted(config: ConfigQemu, current: ConfigQemu, orders: Orders, k: Key)
    requires Enumerated(config, orders)
    ensures k in CloudInitDeletes(config, current, orders.interfaces) <==> ForCloudInit(config, current, k)
  {
    if config.cloudInit.Some? && current.cloudInit.Some? {
      CloudInit.InterfaceDeleted(config.cloudInit.value.networkInterfaces, current.cloudInit.value.networkInterfaces,
                                 orders.interfaces, k);
    }
  }

  /** The cloud-init part asks for the item. */
  ghost predicate ForCloudInit(config: ConfigQemu, current: ConfigQemu, k: Key) {
    config.cloudInit.Some? && current.cloudInit.Some? &&
    (k in CloudInit.DeletesBefore(config.cloudInit.value) || k in CloudInit.DeletesBehind(config.cloudInit.value) ||
     (k.IpConfig? && DeletesKey(config, current, k)))
  }

  lemma SerialDeleted(config: ConfigQemu, current: ConfigQemu, orders: Orders, k: Key)
    requires Enumerated(config, orders)
    ensures k in SerialDeletes(config, current, orders.serials) <==> k.Serial? && DeletesKey(config, current, k)
  {
    if config.serials.Some? {
      SerialConfig.DeletedKey(config.serials.value, CurrentSerials(current), orders.serials, k);
    }
  }

  lemma RequestedMember(config: ConfigQemu, current: ConfigQemu, orders: Orders, k: Key)
    requires Mappable(config, current) && Enumerated(config, orders)
    ensures k in Requested(config, current, orders) <==> DeletesKey(config, current, k)
  {
    InOneOf(TpmDeletes(config), DiskDeletes(config, current, orders.disks), CpuDeletes(config, current),
            CloudInitDeletes(config, current, orders.interfaces), MemoryDeletes(config, current),
            SerialDeletes(config, current, orders.serials), k);
    DiskDeleted(config, current, orders, k);
    CloudInitDeleted(config, current, orders, k);
    SerialDeleted(config, current, orders, k);
    AskedByKind(config, current, k);
  }

  /** Which parts ask for an item of which kind. */
  lemma AskedByKind(config: ConfigQemu, current: ConfigQemu, k: Key)
    ensures k in TpmDeletes(config) <==> k.TpmState? && DeletesKey(config, current, k)
    ensures k in CpuDeletes(config, current) || k in MemoryDeletes(config, current) || ForCloudInit(config, current, k)
            <==> (k.Plain? || k.IpConfig?) && DeletesKey(config, current, k)
  {
    WordsOnly(config, current, k);
  }

  lemma WordsOnly(config: ConfigQemu, current: ConfigQemu, k: Key)
    ensures k in CpuDeletes(config, current) || k in MemoryDeletes(config, current) ==> k.Plain?
    ensures config.cloudInit.Some? ==>
              (k in CloudInit.DeletesBefore(config.cloudInit.value) ==> k.Plain?) &&
              (k in CloudInit.DeletesBehind(config.cloudInit.value) ==> k.Plain?)
  {
  }

  lemma InOneOf(a: seq<Key>, b: seq<Key>, c: seq<Key>, d: seq<Key>, e: seq<Key>, f: seq<Key>, k: Key)
    ensures k in a + b + c + d + e + f <==> k in a || k in b || k in c || k in d || k in e || k in f
  {
  }

  /** No item is both deleted and set. */
  lemma SetsAndDeletesAreDisjoint(config: ConfigQemu, current: ConfigQemu, version8: bool, k: Key)
    requires Mappable(config, current)
    requires DeletesKey(config, current, k)
    ensures !SetsKey(config, current, version8, k)
  {
    if k.Plain? {
      WordsAreDisjoint(config, current, version8, k);
    }
  }

  lemma WordsAreDisjoint(config: ConfigQemu, current: ConfigQemu, version8: bool, k: Key)
    requires k.Plain? && DeletesKey(config, current, k)
    ensures !CpuSets(config, current, k)
    ensures !CloudInitSets(config, current, version8, k)
    ensures k !in MemoryValues(config, current)
  {
    if k in CpuDeletes(config, current) {
      Cpu.SetsAndDeletesAreDisjoint(config.cpu.value, current.cpu, k);
    } else if k in MemoryDeletes(config, current) {
      MemoryConfig.SharesSetOrDeleted(config.memory.value, current.memory);
    } else {
      var c := config.cloudInit.value;
      assert k in CloudInit.Deletes(c, current.cloudInit, []);
      CloudInit.SetsAndDeletesAreDisjoint(c, current.cloudInit, version8, [], k);
    }
  }

  /** Every item is asked for once. */
  lemma RequestedOnce(config: ConfigQemu, current: ConfigQemu, orders: Orders)
    requires Mappable(config, current) && Enumerated(config, orders)
    ensures Once(Requested(config, current, orders))
  {
    var a, b, c := TpmDeletes(config), DiskDeletes(config, current, orders.disks), CpuDeletes(config, current);
    var d, e, f := CloudInitDeletes(config, current, orders.interfaces), MemoryDeletes(config, current),
                   SerialDeletes(config, current, orders.serials);
    PartsRequestOnce(config, current, orders);
    forall k
      ensures k in a ==> PartOf(k) == 0
      ensures k in b ==> PartOf(k) == 1
      ensures k in c ==> PartOf(k) == 2
      ensures k in d ==> PartOf(k) == 3
      ensures k in e ==> PartOf(k) == 4
      ensures k in f ==> PartOf(k) == 5
    {
      KindsRequested(config, current, orders, k);
    }
    SixOnce(a, b, c, d, e, f);
  }

  /** The part that may ask for an item, in the order of the assembly. */
  function PartOf(k: Key): nat {
    match k
    case TpmState => 0
    case Drive(_, _) => 1
    case IpConfig(_) => 3
    case Serial(_) => 5
    case Plain(w) => if w in {CpuLimit, CpuUnits, Vcpus} then 2 else if w == Shares then 4 else 3
  }

  lemma KindsRequested(config: ConfigQemu, current: ConfigQemu, orders: Orders, k: Key)
    requires Mappable(config, current) && Enumerated(config, orders)
    ensures k in DiskDeletes(config, current, orders.disks) ==> k.Drive?
    ensures k in CpuDeletes(config, current) ==> k.Plain? && k.word in {CpuLimit, CpuUnits, Vcpus}
    ensures k in CloudInitDeletes(config, current, orders.interfaces) ==>
              k.IpConfig? || (k.Plain? && k.word in {CiUser, CiPassword, SearchDomain, NameServer, SshKeys})
    ensures k in SerialDeletes(config, current, orders.serials) ==> k.Serial?
  {
    DiskDeleted(config, current, orders, k);
    SerialDeleted(config, current, orders, k);
    if k in CpuDeletes(config, current) {
      Cpu.SetsAndDeletesAreDisjoint(config.cpu.value, current.cpu, k);
    }
    if k in CloudInitDeletes(config, current, orders.interfaces) {
      CloudInit.SetsAndDeletesAreDisjoint(config.cloudInit.value, current.cloudInit, false, orders.interfaces, k);
    }
  }

  lemma PartsRequestOnce(config: ConfigQemu, current: ConfigQemu, orders: Orders)
    requires Enumerated(config, orders)
    ensures Once(DiskDeletes(config, current, orders.disks)) && Once(CpuDeletes(config, current))
    ensures Once(CloudInitDeletes(config, current, orders.interfaces)) &&
            Once(SerialDeletes(config, current, orders.serials))
  {
    if config.disks.Some? && current.disks.Some? {
      DiskLaws.RemovedOnce(config.disks.value, current.disks.value, config.vmID, current.linkedVmId, orders.disks);
    }
    if config.cloudInit.Some? {
      CloudInit.DeletesOnce(config.cloudInit.value, current.cloudInit, orders.interfaces);
    }
    if config.serials.Some? {
      SerialConfig.DeletedOnce(config.serials.value, CurrentSerials(current), orders.serials);
    }
  }

  lemma SixOnce(a: seq<Key>, b: seq<Key>, c: seq<Key>, d: seq<Key>, e: seq<Key>, f: seq<Key>)
    requires Once(a) && Once(b) && Once(c) && Once(d) && Once(e) && Once(f)
    requires (forall k | k in a :: PartOf(k) == 0) && (forall k | k in b :: PartOf(k) == 1)
    requires (forall k | k in c :: PartOf(k) == 2) && (forall k | k in d :: PartOf(k) == 3)
    requires (forall k | k in e :: PartOf(k) == 4) && (forall k | k in f :: PartOf(k) == 5)
    ensures Once(a + b + c + d + e + f)
  {
    OneMoreOnce(a, b, 1);
    OneMoreOnce(a + b, c, 2);
    OneMoreOnce(a + b + c, d, 3);
    OneMoreOnce(a + b + c + d, e, 4);
    OneMoreOnce(a + b + c + d + e, f, 5);
  }

  lemma OneMoreOnce(items: seq<Key>, more: seq<Key>, part: nat)
    requires Once(items) && Once(more)
    requires (forall k | k in items :: PartOf(k) < part) && (forall k | k in more :: PartOf(k) == part)
    ensures Once(items + more) && forall k | k in items + more :: PartOf(k) < part + 1
  {
    OnceAppend(items, more);
  }

  /** The delete list of the call splits into exactly the names of the items the parts asked for,
      none of them empty or twice, and none of them among the parameters that are set. */
  lemma DeleteListIsWellFormed(config: ConfigQemu, current: ConfigQemu, version8: bool, orders: Orders)
    requires Mappable(config, current) && Enumerated(config, orders)
    ensures var list := ListText(Requested(config, current, orders));
            && (list == "" <==> forall k :: !DeletesKey(config, current, k))
            && (list != "" ==> forall item :: item in Split(list, ',') <==> exists k ::
                DeletesKey(config, current, k) && item == Name(k))
            && (forall item | list != "" && item in Split(list, ',') :: item != "")
            && (list != "" ==> forall i, j | 0 <= i < j < |Split(list, ',')| ::
                Split(list, ',')[i] != Split(list, ',')[j])
            && (forall k | SetsKey(config, current, version8, k) :: list == "" || Name(k) !in Split(list, ','))
  {
    var keys := Requested(config, current, orders);
    var list := ListText(keys);
    forall k
      ensures k in keys <==> DeletesKey(config, current, k)
    {
      RequestedMember(config, current, orders, k);
    }
    if keys == [] {
      NothingRequested(config, current, keys);
    } else {
      ListTextNonEmpty(keys);
      ListTextSplits(keys);
      NamesArePlain(keys);
      assert keys[0] in keys;
      ItemsAreNames(keys);
      RequestedOnce(config, current, orders);
      NamedAtMostOnce(keys);
      forall k | SetsKey(config, current, version8, k)
        ensures Name(k) !in Split(list, ',')
      {
        if Name(k) in Names(keys) {
          var i :| 0 <= i < |keys| && Names(keys)[i] == Name(k);
          NameInjective(keys[i], k);
          SetsAndDeletesAreDisjoint(config, current, version8, k);
        }
      }
    }
  }

  lemma NothingRequested(config: ConfigQemu, current: ConfigQemu, keys: seq<Key>)
    requires keys == [] && forall k :: k in keys <==> DeletesKey(config, current, k)
    ensures ListText(keys) == "" && forall k :: !DeletesKey(config, current, k)
  {
    forall k
      ensures !DeletesKey(config, current, k)
    {
      assert k !in keys;
    }
  }

  lemma ItemsAreNames(keys: seq<Key>)
    ensures forall item :: item in Names(keys) <==> exists k :: k in keys && item == Name(k)
  {
    forall k | k in keys
      ensures Name(k) in Names(keys)
    {
      var i :| 0 <= i < |keys| && keys[i] == k;
      assert Names(keys)[i] == Name(k);
    }
  }

  // ---------------------------------------------------------------- on the server

  /** The client read the parts of the current configuration from these texts, or the guest is new. */
  ghost predicate IsReadFrom(current: ConfigQemu, before: map<Key, string>) {
    && Cpu.IsCurrent(current.cpu, before) && MemoryConfig.IsCurrent(current.memory, before)
    && CloudInit.IsCurrent(current.cloudInit, before) && CurrentSerials(current) == SerialConfig.Read(before)
  }

  /** The parts of a configuration that are neither drives nor the TPM state, as `mapToStruct` reads them. */
  function ReadParts(texts: map<Key, string>): ConfigQemu {
    var serials := SerialConfig.Read(texts);
    NOTHING.(cpu := Some(Cpu.Read(texts)), cloudInit := CloudInit.Read(texts), memory := Some(MemoryConfig.Read(texts)),
             serials := if serials == map[] then None else Some(serials))
  }

  lemma PartsAreRead(texts: map<Key, string>)
    ensures ReadParts(texts).memory.Some? && IsReadFrom(ReadParts(texts), texts)
  {
    Cpu.ReadIsCurrent(texts);
    CloudInit.ReadIsCurrent(texts);
  }

  /** What the validation of these parts guarantees; the printed name of a CPU type has no comma. */
  predicate PartsValid(config: ConfigQemu) {
    && (config.cpu.Some? && config.cpu.value.cpuType.Some? ==> ',' !in config.cpu.value.cpuType.value)
    && (config.cloudInit.Some? ==> CloudInitNet.ValidInterfaces(config.cloudInit.value.networkInterfaces))
    && (config.serials.Some? ==> SerialConfig.Valid(config.serials.value))
  }

  /** Everything that is no drive and no TPM state is as asked for, part by part; what is not named stays. */
  ghost predicate PartsAsAsked(config: ConfigQemu, exists_: bool, version8: bool, before: map<Key, string>,
                               after: map<Key, string>) {
    && (if config.cpu.Some? then Cpu.AsAsked(config.cpu.value, before, after)
        else WordsStay(Cpu.CPU_WORDS, before, after))
    && (if config.memory.Some? then MemoryConfig.AsAsked(config.memory.value, exists_, before, after)
        else WordsStay(MemoryConfig.MEMORY_WORDS, before, after))
    && (if config.cloudInit.Some? then CloudInit.DetailsAsAsked(config.cloudInit.value, version8, before, after)
        else WordsStay(CloudInit.DETAIL_WORDS, before, after))
    && (forall i: nat :: CloudInit.InterfaceAsAsked(WantedInterfaces(config), before, after, i))
    && (forall i: nat :: SerialConfig.PortAsAsked(WantedPorts(config), before, after, i))
  }

  predicate WordsStay(words: set<Word>, before: map<Key, string>, after: map<Key, string>) {
    forall w | w in words :: Unchanged(before, after, Plain(w))
  }

  function WantedInterfaces(config: ConfigQemu): CloudInitNet.Interfaces {
    if config.cloudInit.Some? then config.cloudInit.value.networkInterfaces else map[]
  }

  function WantedPorts(config: ConfigQemu): SerialConfig.SerialInterfaces {
    if config.serials.Some? then config.serials.value else map[]
  }

  /** What a call leaves of the parameters that are no drives and no TPM state. */
  ghost predicate CallPatches(config: ConfigQemu, current: ConfigQemu, sets: map<Key, Value>,
                              before: map<Key, string>, after: map<Key, string>) {
    forall k: Key | k.Plain? || k.IpConfig? || k.Serial? ::
      Patched(before, after, k, if k in sets then Some(sets[k]) else None, DeletesKey(config, current, k))
  }

  lemma CallIsAsAsked(config: ConfigQemu, current: ConfigQemu, version8: bool, sets: map<Key, Value>,
                      before: map<Key, string>, after: map<Key, string>)
    requires Mappable(config, current) && PartsValid(config) && IsReadFrom(current, before)
    requires forall k :: k in sets <==> SetsKey(config, current, version8, k)
    requires Valued(config, current, version8, sets) && CallPatches(config, current, sets, before, after)
    requires forall i: nat :: CloudInitNet.PlainNetwork(CloudInit.InterfaceAt(before, i))
    ensures PartsAsAsked(config, current.memory.Some?, version8, before, after)
  {
    CpuIsAsAsked(config, current, version8, sets, before, after);
    MemoryIsAsAsked(config, current, version8, sets, before, after);
    DetailsAreAsAsked(config, current, version8, sets, before, after);
    forall i: nat
      ensures CloudInit.InterfaceAsAsked(WantedInterfaces(config), before, after, i)
    {
      InterfaceIsAsAsked(config, current, version8, sets, before, after, i);
    }
    forall i: nat
      ensures SerialConfig.PortAsAsked(WantedPorts(config), before, after, i)
    {
      PortIsAsAsked(config, current, version8, sets, before, after, i);
    }
  }

  lemma CpuIsAsAsked(config: ConfigQemu, current: ConfigQemu, version8: bool, sets: map<Key, Value>,
                     before: map<Key, string>, after: map<Key, string>)
    requires Mappable(config, current) && PartsValid(config) && Cpu.IsCurrent(current.cpu, before)
    requires forall k :: k in sets <==> SetsKey(config, current, version8, k)
    requires Valued(config, current, version8, sets) && CallPatches(config, current, sets, before, after)
    ensures if config.cpu.Some? then Cpu.AsAsked(config.cpu.value, before, after)
            else WordsStay(Cpu.CPU_WORDS, before, after)
  {
    forall w | w in Cpu.CPU_WORDS
      ensures Patched(before, after, Plain(w), CpuValue(config, current, w), Plain(w) in CpuDeletes(config, current))
    {
      CpuWord(config, current, version8, sets, w);
    }
    if config.cpu.Some? {
      assert forall w | w in Cpu.CPU_WORDS :: Cpu.PatchedBy(config.cpu.value, current.cpu, before, after, w);
      Cpu.CallIsAsAsked(config.cpu.value, current.cpu, before, after);
    }
  }

  function CpuValue(config: ConfigQemu, current: ConfigQemu, w: Word): Option<Value> {
    if config.cpu.Some? then Cpu.WordValue(config.cpu.value, current.cpu, w) else None
  }

  /** A CPU parameter is set and deleted by the CPU part only. */
  lemma CpuWord(config: ConfigQemu, current: ConfigQemu, version8: bool, sets: map<Key, Value>, w: Word)
    requires Mappable(config, current) && w in Cpu.CPU_WORDS
    requires forall k :: k in sets <==> SetsKey(config, current, version8, k)
    requires Valued(config, current, version8, sets)
    ensures (if Plain(w) in sets then Some(sets[Plain(w)]) else None) == CpuValue(config, current, w)
    ensures DeletesKey(config, current, Plain(w)) <==> Plain(w) in CpuDeletes(config, current)
  {
    assert CpuSets(config, current, Plain(w)) <==> CpuValue(config, current, w).Some?;
    NotOfOtherParts(config, current, version8, w);
  }

  lemma NotOfOtherParts(config: ConfigQemu, current: ConfigQemu, version8: bool, w: Word)
    requires w in Cpu.CPU_WORDS
    ensures !CloudInitSets(config, current, version8, Plain(w)) && Plain(w) !in MemoryValues(config, current)
    ensures Plain(w) !in MemoryDeletes(config, current)
    ensures config.cloudInit.Some? ==> Plain(w) !in CloudInit.DeletesBefore(config.cloudInit.value) &&
                                       Plain(w) !in CloudInit.DeletesBehind(config.cloudInit.value)
  {
  }

  lemma MemoryIsAsAsked(config: ConfigQemu, current: ConfigQemu, version8: bool, sets: map<Key, Value>,
                        before: map<Key, string>, after: map<Key, string>)
    requires Mappable(config, current) && MemoryConfig.IsCurrent(current.memory, before)
    requires forall k :: k in sets <==> SetsKey(config, current, version8, k)
    requires Valued(config, current, version8, sets) && CallPatches(config, current, sets, before, after)
    ensures if config.memory.Some? then MemoryConfig.AsAsked(config.memory.value, current.memory.Some?, before, after)
            else WordsStay(MemoryConfig.MEMORY_WORDS, before, after)
  {
    forall w | w in MemoryConfig.MEMORY_WORDS
      ensures Patched(before, after, Plain(w), MemoryValue(config, current, w),
                      Plain(w) in MemoryDeletes(config, current))
    {
      MemoryWord(config, current, version8, sets, w);
    }
    if config.memory.Some? {
      MemoryConfig.CallIsAsAsked(config.memory.value, current.memory, before, after);
    }
  }

  function MemoryValue(config: ConfigQemu, current: ConfigQemu, w: Word): Option<Value> {
    if Plain(w) in MemoryValues(config, current) then Some(MemoryValues(config, current)[Plain(w)]) else None
  }

  lemma MemoryWord(config: ConfigQemu, current: ConfigQemu, version8: bool, sets: map<Key, Value>, w: Word)
    requires Mappable(config, current) && w in MemoryConfig.MEMORY_WORDS
    requires forall k :: k in sets <==> SetsKey(config, current, version8, k)
    requires Valued(config, current, version8, sets)
    ensures (if Plain(w) in sets then Some(sets[Plain(w)]) else None) == MemoryValue(config, current, w)
    ensures DeletesKey(config, current, Plain(w)) <==> Plain(w) in MemoryDeletes(config, current)
  {
    MemoryIsNoOther(config, current, version8, w);
  }

  lemma MemoryIsNoOther(config: ConfigQemu, current: ConfigQemu, version8: bool, w: Word)
    requires w in MemoryConfig.MEMORY_WORDS
    ensures !CpuSets(config, current, Plain(w)) && Plain(w) !in CpuDeletes(config, current)
    ensures !CloudInitSets(config, current, version8, Plain(w))
    ensures config.cloudInit.Some? ==> Plain(w) !in CloudInit.DeletesBefore(config.cloudInit.value) &&
                                       Plain(w) !in CloudInit.DeletesBehind(config.cloudInit.value)
  {
  }

  lemma DetailsAreAsAsked(config: ConfigQemu, current: ConfigQemu, version8: bool, sets: map<Key, Value>,
                          before: map<Key, string>, after: map<Key, string>)
    requires Mappable(config, current) && CloudInit.IsCurrent(current.cloudInit, before)
    requires forall k :: k in sets <==> SetsKey(config, current, version8, k)
    requires Valued(config, current, version8, sets) && CallPatches(config, current, sets, before, after)
    ensures if config.cloudInit.Some? then CloudInit.DetailsAsAsked(config.cloudInit.value, version8, before, after)
            else WordsStay(CloudInit.DETAIL_WORDS, before, after)
  {
    if config.cloudInit.Some? {
      var c := config.cloudInit.value;
      forall w | w in CloudInit.DETAIL_WORDS
        ensures CloudInit.PatchedBy(c, current.cloudInit, version8, before, after, w)
      {
        DetailWord(config, current, version8, sets, w);
      }
      CloudInit.DetailsAreAsAsked(c, current.cloudInit, version8, before, after);
    } else {
      forall w | w in CloudInit.DETAIL_WORDS
        ensures Unchanged(before, after, Plain(w))
      {
        NoDetailWord(config, current, version8, w);
      }
    }
  }

  lemma DetailWord(config: ConfigQemu, current: ConfigQemu, version8: bool, sets: map<Key, Value>, w: Word)
    requires Mappable(config, current) && w in CloudInit.DETAIL_WORDS && config.cloudInit.Some?
    requires forall k :: k in sets <==> SetsKey(config, current, version8, k)
    requires Valued(config, current, version8, sets)
    ensures (if Plain(w) in sets then Some(sets[Plain(w)]) else None) ==
            CloudInit.WordValue(config.cloudInit.value, version8, w)
    ensures DeletesKey(config, current, Plain(w)) <==>
            CloudInit.DeletesWord(config.cloudInit.value, current.cloudInit, w)
  {
    DetailIsNoOther(config, current, w);
    assert CloudInitSets(config, current, version8, Plain(w)) <==>
           CloudInit.SetsWord(config.cloudInit.value, version8, w);
  }

  lemma DetailIsNoOther(config: ConfigQemu, current: ConfigQemu, w: Word)
    requires w in CloudInit.DETAIL_WORDS
    ensures !CpuSets(config, current, Plain(w)) && Plain(w) !in CpuDeletes(config, current)
    ensures Plain(w) !in MemoryValues(config, current) && Plain(w) !in MemoryDeletes(config, current)
  {
  }

  lemma NoDetailWord(config: ConfigQemu, current: ConfigQemu, version8: bool, w: Word)
    requires w in CloudInit.DETAIL_WORDS && config.cloudInit.None?
    ensures !SetsKey(config, current, version8, Plain(w)) && !DeletesKey(config, current, Plain(w))
  {
    DetailIsNoOther(config, current, w);
  }

  lemma InterfaceIsAsAsked(config: ConfigQemu, current: ConfigQemu, version8: bool, sets: map<Key, Value>,
                           before: map<Key, string>, after: map<Key, string>, i: nat)
    requires Mappable(config, current) && PartsValid(config) && CloudInit.IsCurrent(current.cloudInit, before)
    requires forall k :: k in sets <==> SetsKey(config, current, version8, k)
    requires Valued(config, current, version8, sets) && CallPatches(config, current, sets, before, after)
    requires CloudInitNet.PlainNetwork(CloudInit.InterfaceAt(before, i))
    ensures CloudInit.InterfaceAsAsked(WantedInterfaces(config), before, after, i)
  {
    var k := IpConfig(i);
    assert Patched(before, after, k, if k in sets then Some(sets[k]) else None, DeletesKey(config, current, k));
    if config.cloudInit.Some? {
      var c := config.cloudInit.value;
      InterfacesRead(current.cloudInit, before);
      if i in c.networkInterfaces {
        assert CloudInitNet.ValidNetwork(c.networkInterfaces[i]);
      }
      assert CloudInit.InterfacePatches(c.networkInterfaces, CloudInit.ReadInterfaces(before), before, after, i);
      CloudInit.InterfaceIsAsAsked(c.networkInterfaces, before, after, i);
    }
  }

  lemma InterfacesRead(current: Option<CloudInit.CloudInit>, before: map<Key, string>)
    requires CloudInit.IsCurrent(current, before)
    ensures CloudInit.InterfacesOf(current) == CloudInit.ReadInterfaces(before)
  {
  }

  lemma PortIsAsAsked(config: ConfigQemu, current: ConfigQemu, version8: bool, sets: map<Key, Value>,
                      before: map<Key, string>, after: map<Key, string>, i: nat)
    requires Mappable(config, current) && PartsValid(config) && CurrentSerials(current) == SerialConfig.Read(before)
    requires forall k :: k in sets <==> SetsKey(config, current, version8, k)
    requires Valued(config, current, version8, sets) && CallPatches(config, current, sets, before, after)
    ensures SerialConfig.PortAsAsked(WantedPorts(config), before, after, i)
  {
    var k := Serial(i);
    assert Patched(before, after, k, if k in sets then Some(sets[k]) else None, DeletesKey(config, current, k));
    if config.serials.Some? {
      assert k in sets <==> SerialSets(config, current, k);
      SerialConfig.CallIsAsAsked(config.serials.value, before, after, i);
    }
  }
}

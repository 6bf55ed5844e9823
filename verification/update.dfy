/** Updating or creating a guest: `ConfigQemu.setAdvanced` (proxmox/config_qemu.go), call by call. */
module Update {
  import opened Text
  import opened Keys
  import opened DiskPath
  import opened ApiParams
  import opened DiskPlan
  import opened DiskParams
  import DiskLaws
  import TpmConfig
  import MemoryConfig
  import Cpu
  import CloudInit
  import CloudInitNet
  import SerialConfig
  import opened Config
  import opened Hypervisor
  import opened Reading
  import opened UpdateLaws

  // ---------------------------------------------------------------- moves and resizes

  method MoveDisks(g: Guest, moves: seq<DiskMove>, ghost p: Policy) returns (ok: bool)
    requires g.Valid() && DistinctMoves(moves) && Holds(g.s, p)
    requires forall m | m in moves && m.id.Drive? :: m.id in p.desired
    modifies g
    ensures g.Valid() && Steps(old(g.trace), g.trace, p) && Holds(g.s, p) && CloudInitKept(old(g.s), g.s)
    ensures ok <==> Fine(old(g.trace), g.trace)
    ensures ok ==> AllMoved(g.site, old(g.s.staged), g.s.staged, moves)
  {
    ghost var start, trace := g.s.staged, g.trace;
    for i := 0 to |moves|
      invariant g.Valid() && Steps(trace, g.trace, p) && Fine(trace, g.trace)
      invariant Holds(g.s, p) && CloudInitKept(old(g.s), g.s)
      invariant AllMoved(g.site, start, g.s.staged, moves[..i])
    {
      ghost var s := g.s;
      ok := Move(g, moves[i], trace, p);
      if !ok {
        return;
      }
      OneMoreMoved(g.site, start, s.staged, g.s.staged, moves[..i], moves[i]);
      assert moves[..i + 1] == moves[..i] + [moves[i]];
    }
    assert moves[..|moves|] == moves;
    ok := true;
  }

  /** `qemuDiskMove.move`. */
  method Move(g: Guest, m: DiskMove, ghost trace: seq<Event>, ghost p: Policy) returns (ok: bool)
    requires g.Valid() && Holds(g.s, p) && Steps(trace, g.trace, p) && Fine(trace, g.trace)
    requires m.id.Drive? ==> m.id in p.desired
    modifies g
    ensures g.Valid() && Steps(trace, g.trace, p) && Holds(g.s, p) && CloudInitKept(old(g.s), g.s)
    ensures ok <==> Fine(trace, g.trace)
    ensures if ok then Moved(g.site, old(g.s), g.s, m.id, m.storage, m.format) else g.s == old(g.s)
  {
    ghost var s, before := g.s, g.trace;
    ok := g.MoveDisk(m.id, m.storage, m.format);
    Record(g.site, trace, before, Event(Call.MoveDisk(m.id, m.storage, m.format), s, g.s, ok), p);
    if ok {
      ReplacedKeeps(s, g.s, m.id, g.s.staged[m.id]);
    }
  }

  method ResizeDisks(g: Guest, resizes: seq<DiskResize>, ghost p: Policy) returns (ok: bool)
    requires g.Valid() && DistinctResizes(resizes) && Holds(g.s, p)
    requires forall r | r in resizes :: Grows(g.s, r.id, r.sizeKiB) && (r.id.Drive? ==> r.id in p.desired)
    modifies g
    ensures g.Valid() && Steps(old(g.trace), g.trace, p) && Holds(g.s, p)
    ensures ok <==> Fine(old(g.trace), g.trace)
    ensures CloudInitKept(old(g.s), g.s) && (Pending(g.s) <==> Pending(old(g.s)))
    ensures ok ==> AllResized(old(g.s.staged), g.s.staged, resizes)
  {
    ghost var start, trace := g.s.staged, g.trace;
    for i := 0 to |resizes|
      invariant g.Valid() && Steps(trace, g.trace, p) && Fine(trace, g.trace) && Holds(g.s, p)
      invariant CloudInitKept(old(g.s), g.s) && (Pending(g.s) <==> Pending(old(g.s)))
      invariant AllResized(start, g.s.staged, resizes[..i])
    {
      StillGrows(start, g.s, resizes, i);
      ghost var s := g.s;
      ok := Resize(g, resizes[i], trace, p);
      if !ok {
        return;
      }
      OneMoreResized(start, s.staged, g.s.staged, resizes[..i], resizes[i]);
      assert resizes[..i + 1] == resizes[..i] + [resizes[i]];
    }
    assert resizes[..|resizes|] == resizes;
    ok := true;
  }

  lemma StillGrows(start: Layout, s: VmState, resizes: seq<DiskResize>, i: nat)
    requires i < |resizes| && DistinctResizes(resizes) && AllResized(start, s.staged, resizes[..i])
    requires forall r | r in resizes :: r.id in start && start[r.id].DiskSlot? && start[r.id].sizeKiB < r.sizeKiB
    ensures Grows(s, resizes[i].id, resizes[i].sizeKiB)
    ensures forall r | r in resizes[..i] :: r.id != resizes[i].id
  {
    assert At(s.staged, resizes[i].id) == At(start, resizes[i].id);
  }

  /** `qemuDiskResize.resize`. */
  method Resize(g: Guest, r: DiskResize, ghost trace: seq<Event>, ghost p: Policy) returns (ok: bool)
    requires g.Valid() && Holds(g.s, p) && Steps(trace, g.trace, p) && Fine(trace, g.trace)
    requires Grows(g.s, r.id, r.sizeKiB)
    requires r.id.Drive? ==> r.id in p.desired
    modifies g
    ensures g.Valid() && Steps(trace, g.trace, p) && Holds(g.s, p)
    ensures ok <==> Fine(trace, g.trace)
    ensures CloudInitKept(old(g.s), g.s) && (Pending(g.s) <==> Pending(old(g.s)))
    ensures if ok then Resized(old(g.s), g.s, r.id, r.sizeKiB) else g.s == old(g.s)
  {
    ghost var s, before := g.s, g.trace;
    ok := g.ResizeDisk(r.id, r.sizeKiB);
    Record(g.site, trace, before, Event(Call.ResizeDisk(r.id, r.sizeKiB), s, g.s, ok), p);
    if ok {
      ReplacedKeeps(s, g.s, r.id, g.s.staged[r.id]);
    }
  }

  function DesiredDisks(config: ConfigQemu): Storages { if config.disks.Some? then config.disks.value else map[] }

  /** The current configuration was read from the server. */
  ghost predicate IsCurrent(current: ConfigQemu, h: Site, l: Layout) {
    && IsRead(l, current.disks, current.linkedVmId) && current.tpm == SeenTpm(l) && current.vmID == h.vmId
  }

  /** So were its other parts. */
  ghost predicate PartsAreCurrent(current: ConfigQemu, l: Layout) {
    current.memory.Some? && PartsAreFrom(current, l)
  }

  /** The parts were read from these texts, or both are empty. */
  ghost predicate PartsAreFrom(current: ConfigQemu, l: Layout) {
    forall texts {:trigger IsReadFrom(current, texts)} | texts == Texts(l) :: IsReadFrom(current, texts)
  }

  lemma PartsRead(current: ConfigQemu, l: Layout)
    requires PartsAreFrom(current, l)
    ensures IsReadFrom(current, Texts(l))
  {
  }

  lemma CurrentIsView(current: ConfigQemu, h: Site, l: Layout)
    requires IsCurrent(current, h, l)
    ensures CurrentDisks(current) == View(l)
  {
  }

  /** Moves and grows the disks that are kept. */
  method ChangeDisks(g: Guest, config: ConfigQemu, current: ConfigQemu, ghost p: Policy)
    returns (moved: bool, displaced: Option<Key>, ok: bool)
    requires g.Valid() && Holds(g.s, p) && IsCurrent(current, g.site, g.s.staged)
    requires OnlySlots(DesiredDisks(config)) && AtMostOneCloudInit(DesiredDisks(config))
    requires p.desired == DesiredDisks(config)
    modifies g
    ensures g.Valid() && Steps(old(g.trace), g.trace, p) && Holds(g.s, p) && CloudInitKept(old(g.s), g.s)
    ensures ok <==> Fine(old(g.trace), g.trace)
    ensures ok ==> Prepared(g.site, DesiredDisks(config), old(g.s.staged), g.s.staged)
    ensures ok ==> forall k: Key | !k.Drive? :: At(g.s.staged, k) == At(old(g.s.staged), k)
    ensures !moved && ok ==> forall k | KeptAt(DesiredDisks(config), old(g.s.staged), k) ::
              MoveOf(Get(DesiredDisks(config), k), Get(View(old(g.s.staged)), k), k).None?
    ensures ok && displaced.Some? ==> Displaced(DesiredDisks(config), View(old(g.s.staged)), displaced.value)
    ensures ok && displaced.None? && AtMostOneCloudInit(View(old(g.s.staged))) ==>
              forall k :: !Displaced(DesiredDisks(config), View(old(g.s.staged)), k)
  {
    ghost var l, trace := g.s.staged, g.trace;
    CurrentIsView(current, g.site, l);
    moved, displaced, ok := false, None, true;
    if config.disks.Some? && current.disks.Some? {
      var desired := config.disks.value;
      ViewIsConverted(g.site, l);
      ghost var order;
      var markedDisks;
      markedDisks, order := MarkDiskChanges(desired, current.disks.value);
      MarkedAreDistinct(desired, View(l), order);
      var moves, resizes := markedDisks.move, markedDisks.resize;
      ok := MoveDisks(g, moves, p);
      if !ok {
        return;
      }
      ghost var l1, trace1 := g.s.staged, g.trace;
      ResizesGrow(g.site, desired, l, l1, moves, order);
      ok := ResizeDisks(g, resizes, p);
      MoreSteps(trace, trace1, g.trace, p);
        if !ok {
        return;
      }
      MarkedChangesPrepare(g.site, desired, l, l1, g.s.staged, order);
      displaced := CloudInitRemove(desired, current.disks.value);
      moved := |moves| != 0;
      NothingMarked(desired, View(l), order);
    }
  }

  lemma MarkedAreDistinct(desired: Storages, current: Storages, order: seq<Key>)
    requires Enumerates(order, desired.Keys)
    ensures DistinctMoves(Moves(desired, current, order)) && DistinctResizes(Resizes(desired, current, order))
    ensures forall m | m in Moves(desired, current, order) :: m.id in desired
    ensures forall r | r in Resizes(desired, current, order) :: r.id in desired
  {
    DiskLaws.MovesMember(desired, current, order);
    DiskLaws.ResizesMember(desired, current, order);
  }

  lemma NothingMarked(desired: Storages, current: Storages, order: seq<Key>)
    requires Enumerates(order, desired.Keys)
    ensures Moves(desired, current, order) == [] ==>
              forall k | Kept(Get(desired, k), Get(current, k)) :: MoveOf(Get(desired, k), Get(current, k), k).None?
  {
    DiskLaws.MovesMember(desired, current, order);
  }

  // ---------------------------------------------------------------- deletions before the update

  /** Marks the changes of the TPM state: a move takes place, a new version is left to a deletion. */
  method ChangeTpm(g: Guest, config: ConfigQemu, current: ConfigQemu, itemsToDelete: string, ghost p: Policy)
    returns (items: string, recreate: bool, ok: bool)
    requires g.Valid() && Holds(g.s, p)
    requires current.tpm.Some? ==> current.tpm.value.version.Some?
    modifies g
    ensures g.Valid() && Steps(old(g.trace), g.trace, p) && Holds(g.s, p) && CloudInitKept(old(g.s), g.s)
    ensures ok <==> Fine(old(g.trace), g.trace)
    ensures ok ==> recreate == RecreatesTpm(config.tpm, current.tpm)
    ensures ok ==> items == if recreate then AddToList(itemsToDelete, "tpmstate0") else itemsToDelete
    ensures ok ==>
      if MovesTpm(config.tpm, current.tpm)
      then Moved(g.site, old(g.s), g.s, Key.TpmState, config.tpm.value.storage, None)
      else g.s == old(g.s)
  {
    items, recreate, ok := itemsToDelete, false, true;
    if config.tpm.Some? && current.tpm.Some? {
      match TpmConfig.MarkChanges(config.tpm.value, current.tpm.value) {
        case Nothing =>
        case Recreate =>
          recreate := true;
          items := AddToList(itemsToDelete, "tpmstate0");
        case Move(disk) =>
          ok := Move(g, disk, g.trace, p);
      }
    }
  }

  predicate RecreatesTpm(t: Option<TpmConfig.TpmState>, current: Option<TpmConfig.TpmState>)
    requires current.Some? ==> current.value.version.Some?
  {
    t.Some? && current.Some? && TpmConfig.MarkChanges(t.value, current.value).Recreate?
  }

  predicate MovesTpm(t: Option<TpmConfig.TpmState>, current: Option<TpmConfig.TpmState>)
    requires current.Some? ==> current.value.version.Some?
  {
    t.Some? && current.Some? && TpmConfig.MarkChanges(t.value, current.value).Move?
  }

  /** The call that deletes what has to be gone before the update. */
  function Deletes(s: VmState, items: string): Event { Event(Configure(map[], items), s, s, false) }

  /** What is deleted keeps the promise of the run. */
  ghost predicate MayDelete(s: VmState, items: string, keys: seq<Key>, p: Policy) {
    && (p.one && !p.second ==> !TwoMayHold(Deletes(s, items)))
    && forall k | k in keys && k.Drive? && k !in p.desired :: Displaced(p.desired, View(p.start.staged), k)
  }

  lemma DeletionIsAllowed(e: Event, s: VmState, items: string, keys: seq<Key>, p: Policy)
    requires MayDelete(s, items, keys, p) && items == ListText(keys)
    requires e.call == Configure(map[], items) && e.before == s
    ensures Minds(e, p) && (p.one && !p.second ==> !TwoMayHold(e))
  {
    NamedInList(keys, s.staged.Keys);
    SameHolders(e, Deletes(s, items));
  }

  /** Removes what has to be gone before it can be created again. When the removal stays pending
      the guest is shut down, or the update given up. */
  method DeleteBeforeUpdate(g: Guest, items: string, ghost keys: seq<Key>, rebootIfNeeded: bool, ghost p: Policy)
    returns (stopped: bool, unable: bool, ok: bool, ghost deletion: Option<Event>)
    requires g.Valid() && Holds(g.s, p) && items == ListText(keys) && p.restart == rebootIfNeeded
    requires keys != [] ==> MayDelete(g.s, items, keys, p)
    modifies g
    ensures g.Valid() && Steps(old(g.trace), g.trace, p) && Holds(g.s, p)
    ensures (ok || unable) <==> Fine(old(g.trace), g.trace)
    ensures unable ==> !ok && !rebootIfNeeded && Pending(g.s) && deletion.Some?
    ensures ok ==> g.s.staged == Without(old(g.s.staged), set k | k in keys)
    ensures ok && keys != [] ==> !Pending(g.s)
    ensures ok && keys == [] ==> g.s == old(g.s)
    ensures ok ==> (if stopped then old(g.s).running && !g.s.running && rebootIfNeeded && keys != []
                    else g.s.running == old(g.s).running)
    ensures deletion.Some? <==> keys != []
    ensures deletion.Some? ==> deletion.value in g.trace[|old(g.trace)|..]
    ensures deletion.Some? ==> deletion.value.call == Configure(map[], items) && deletion.value.before == old(g.s)
  {
    ghost var trace, start := g.trace, g.s;
    stopped, unable, ok, deletion := false, false, true, None;
    EmptyList(keys);
    if items == "" {
      assert Without(g.s.staged, set k | k in keys) == g.s.staged;
      return;
    }
    ok := g.Configure(map[], items);
    deletion := Some(Event(Call.Configure(map[], items), start, g.s, ok));
    DeletionIsAllowed(deletion.value, start, items, keys, p);
    Record(g.site, trace, trace, deletion.value, p);
    StillIn(trace, g.trace, g.trace, deletion.value);
    if !ok {
      return;
    }
    DeletedExactly(g.site, start, g.s, keys);
    ghost var trace1 := g.trace;
    stopped, unable, ok := MakeEffective(g, rebootIfNeeded, p);
    MoreSteps(trace, trace1, g.trace, p);
    StillIn(trace, trace1, g.trace, deletion.value);
  }

  lemma StillIn(a: seq<Event>, b: seq<Event>, c: seq<Event>, e: Event)
    requires |a| < |b| <= |c| && b[|a|] == e && c[..|b|] == b
    ensures e in c[|a|..]
  {
    assert c[|a|..][0] == c[|a|] == c[..|b|][|a|];
  }

  /** A guest with pending changes is shut down if that is allowed. */
  method MakeEffective(g: Guest, rebootIfNeeded: bool, ghost p: Policy)
    returns (stopped: bool, unable: bool, ok: bool)
    requires g.Valid() && Holds(g.s, p) && p.restart == rebootIfNeeded
    modifies g
    ensures g.Valid() && Steps(old(g.trace), g.trace, p) && Holds(g.s, p)
    ensures (ok || unable) <==> Fine(old(g.trace), g.trace)
    ensures unable ==> !ok && !rebootIfNeeded && Pending(g.s)
    ensures ok ==> g.s.staged == old(g.s.staged) && !Pending(g.s)
    ensures ok ==> (if stopped then old(g.s).running && !g.s.running && rebootIfNeeded
                    else g.s.running == old(g.s).running)
  {
    ghost var s, trace := g.s, g.trace;
    stopped, unable := false, false;
    var pending;
    pending, ok := g.HasPendingChanges();
    Record(g.site, trace, trace, Event(ListPending, s, g.s, ok), p);
    if !ok {
      return;
    }
    if pending {
      if !rebootIfNeeded {
        ok, unable := false, true;
        return;
      }
      ghost var trace1 := g.trace;
      ok := g.Shutdown();
      Record(g.site, trace, trace1, Event(Call.Shutdown, s, g.s, ok), p);
      stopped := true;
    }
  }

  lemma EmptyList(keys: seq<Key>)
    ensures ListText(keys) == "" <==> keys == []
  {
    if keys != [] {
      ListTextNonEmpty(keys);
    }
  }

  /** A call that only deletes removes exactly the named keys. */
  lemma DeletedExactly(h: Site, s: VmState, t: VmState, keys: seq<Key>)
    requires keys != [] && Configured(h, s, t, map[], ListText(keys))
    ensures t.staged == Without(s.staged, set k | k in keys)
  {
    NamedInList(keys, s.staged.Keys);
  }

  // ---------------------------------------------------------------- the configuration call

  /** `NewConfigQemuFromApi`. */
  method ReadConfig(g: Guest, ghost p: Policy) returns (current: ConfigQemu, ok: bool)
    requires g.Valid() && Holds(g.s, p)
    modifies g
    ensures g.Valid() && Steps(old(g.trace), g.trace, p) && g.s == old(g.s)
    ensures ok <==> Fine(old(g.trace), g.trace)
    ensures ok ==> IsCurrent(current, g.site, g.s.staged) && PartsAreCurrent(current, g.s.staged)
  {
    ghost var trace := g.trace;
    current := NOTHING;
    var layout;
    layout, ok := g.Read();
    Record(g.site, trace, trace, Event(Call.ReadConfig, g.s, g.s, ok), p);
    if ok {
      var disks, linkedVmId := ReadDisks(g.site, layout);
      PartsAreRead(Texts(layout));
      current := ReadParts(Texts(layout)).(vmID := g.site.vmId, linkedVmId := linkedVmId, tpm := SeenTpm(layout),
                                           disks := disks);
    }
  }

  /** The drives of the call are those of the plan. */
  lemma CallFollowsPlan(h: Site, config: ConfigQemu, current: ConfigQemu, version8: bool, orders: Orders, s: VmState,
                        sets: map<Key, Value>)
    requires Mappable(config, current) && Enumerated(config, orders) && config.vmID == h.vmId
    requires forall k :: k in sets <==> SetsKey(config, current, version8, k)
    requires Valued(config, current, version8, sets)
    ensures FollowsPlan(h, DesiredDisks(config), CurrentDisks(current), CurrentLinkedVm(current), s, sets,
                        ListText(Requested(config, current, orders)))
  {
    var keys := Requested(config, current, orders);
    NamedInList(keys, s.staged.Keys);
    forall k: Key | k.Drive?
      ensures k in sets <==> k in DiskSets(config, current)
      ensures k in keys <==> DeletesKey(config, current, k)
    {
      RequestedMember(config, current, orders, k);
    }
    forall k: Key | k.Drive?
      ensures match PlanOf(DesiredDisks(config), CurrentDisks(current), k, h.vmId, CurrentLinkedVm(current))
              case Set(value) => k in sets && sets[k] == value
              case Remove => k !in sets && k in keys
              case Keep => k !in sets && k !in keys
    {
      DriveIsPlanned(h, config, current, k);
    }
  }

  lemma DriveIsPlanned(h: Site, config: ConfigQemu, current: ConfigQemu, k: Key)
    requires k.Drive? && config.vmID == h.vmId
    ensures match PlanOf(DesiredDisks(config), CurrentDisks(current), k, h.vmId, CurrentLinkedVm(current))
            case Set(value) =>
              k in DiskSets(config, current) && DiskSets(config, current)[k] == value && !DeletesKey(config, current, k)
            case Remove => k !in DiskSets(config, current) && DeletesKey(config, current, k)
            case Keep => k !in DiskSets(config, current) && !DeletesKey(config, current, k)
  {
  }

  /** The TPM state after the configuration call. */
  predicate TpmConfigured(config: ConfigQemu, current: ConfigQemu, before: Layout, after: Layout) {
    At(after, Key.TpmState) ==
    if config.tpm.Some? && config.tpm.value.delete then None
    else if SetsTpm(config, current) && config.tpm.value.version.Some?
    then Some(TpmSlot(config.tpm.value.storage, TpmConfig.VersionText(config.tpm.value.version.value)))
    else At(before, Key.TpmState)
  }

  lemma TpmIsNamed(config: ConfigQemu, current: ConfigQemu, orders: Orders, l: Layout)
    requires Mappable(config, current) && Enumerated(config, orders)
    ensures Key.TpmState in NamedIn(ListText(Requested(config, current, orders)), l.Keys) <==>
            Key.TpmState in l && config.tpm.Some? && config.tpm.value.delete
  {
    NamedInList(Requested(config, current, orders), l.Keys);
    RequestedMember(config, current, orders, Key.TpmState);
  }

  lemma CallConfiguresTpm(h: Site, config: ConfigQemu, current: ConfigQemu, version8: bool, orders: Orders,
                          s: VmState, t: VmState, sets: map<Key, Value>)
    requires Mappable(config, current) && Enumerated(config, orders)
    requires forall k :: k in sets <==> SetsKey(config, current, version8, k)
    requires Valued(config, current, version8, sets)
    requires Configured(h, s, t, sets, ListText(Requested(config, current, orders)))
    ensures TpmConfigured(config, current, s.staged, t.staged)
  {
    TpmIsNamed(config, current, orders, s.staged);
    TpmIsSet(config, current, version8, sets);
    TpmAfterCall(h, s, t, sets, ListText(Requested(config, current, orders)));
  }

  lemma TpmIsSet(config: ConfigQemu, current: ConfigQemu, version8: bool, sets: map<Key, Value>)
    requires Mappable(config, current) && Valued(config, current, version8, sets)
    requires forall k :: k in sets <==> SetsKey(config, current, version8, k)
    ensures Key.TpmState in sets <==> SetsTpm(config, current)
    ensures SetsTpm(config, current) ==>
              config.tpm.value.version.Some? && sets[Key.TpmState] ==
              SetTpm(config.tpm.value.storage, TpmConfig.VersionText(config.tpm.value.version.value))
  {
    if SetsTpm(config, current) {
      assert Key.TpmState in TpmValues(config, current);
    }
  }

  lemma TpmAfterCall(h: Site, s: VmState, t: VmState, sets: map<Key, Value>, delete: string)
    requires Configured(h, s, t, sets, delete)
    ensures Key.TpmState in sets && sets[Key.TpmState].SetTpm? ==>
              At(t.staged, Key.TpmState) == Some(TpmSlot(sets[Key.TpmState].storage, sets[Key.TpmState].version))
    ensures Key.TpmState !in sets ==>
              At(t.staged, Key.TpmState) ==
              if Key.TpmState in NamedIn(delete, s.staged.Keys) then None else At(s.staged, Key.TpmState)
  {
    var k := Key.TpmState;
    assert k in t.staged <==> k in sets || (k in s.staged && k !in NamedIn(delete, s.staged.Keys));
    if k in sets {
      assert Becomes(h, k, At(s.staged, k), sets[k], t.staged[k]);
    }
  }

  /** What the server may do with the configuration call, besides refusing it: miss a slot exactly when
      it can be missed; and give the guest a second cloud-init disk exactly when two slots may hold one. */
  ghost predicate ExactCall(h: Site, desired: Storages, current: Storages, linkedVmId: uint, e: Event) {
    && e.call.Configure?
    && (CanSucceed(h, e) ==>
         && MissesExactly(h, desired, current, linkedVmId, e)
         && (forall k | k in desired :: CreatesAt(e, k) <==> Created(Some(desired[k]), Get(current, k)))
         && (CanGiveSecond(h, e) <==> TwoHolders(desired, e.before)))
  }

  /** Assembles the configuration call and makes it. */
  method PutConfig(g: Guest, config: ConfigQemu, current: ConfigQemu, ghost trace: seq<Event>,
                   ghost p: Policy)
    returns (ok: bool, ghost call: Event)
    requires g.Valid() && Holds(g.s, p) && Steps(trace, g.trace, p) && Fine(trace, g.trace)
    requires p.desired == DesiredDisks(config)
    requires Mappable(config, current) && config.vmID == g.site.vmId && DiskPlan.Valid(DesiredDisks(config))
    requires p.one && !p.second ==> !TwoHolders(DesiredDisks(config), g.s)
    requires Ready(DesiredDisks(config), CurrentDisks(current), g.s.staged)
    requires PartsValid(config) && PartsAreFrom(current, g.s.staged)
    modifies g
    ensures g.Valid() && Holds(g.s, p) && Steps(trace, g.trace, p)
    ensures ok <==> Fine(trace, g.trace)
    ensures g.s.running == old(g.s).running
    ensures g.trace == old(g.trace) + [call] && call.before == old(g.s) && call.after == g.s && call.ok == ok
    ensures ExactCall(g.site, DesiredDisks(config), CurrentDisks(current), CurrentLinkedVm(current), call)
    ensures ok ==> CallPlanned(g.site, config, current, old(g.s.staged), g.s.staged)
  {
    ghost var s, before := g.s, g.trace;
    var version8 := g.site.version8;
    ghost var orders;
    var params, delete;
    params, delete, orders := Config.MapToApi(config, current, version8);
    var sets := params.values;
    ok := g.Configure(sets, delete);
    call := Event(Call.Configure(sets, delete), s, g.s, ok);
    CallFollowsPlan(g.site, config, current, version8, orders, s, sets);
    CallIsExact(g.site, config, current, call);
    CallMinds(g.site, config, current, call, p);
    Record(g.site, trace, before, call, p);
    if ok {
      CallDoesAsPlanned(g.site, config, current, orders, s, g.s, sets);
    }
  }

  lemma CallDoesAsPlanned(h: Site, config: ConfigQemu, current: ConfigQemu, orders: Orders, s: VmState, t: VmState,
                          sets: map<Key, Value>)
    requires ValidSite(h) && Mappable(config, current) && Enumerated(config, orders) && Sound(h, s) && Sound(h, t)
    requires PartsValid(config) && PartsAreFrom(current, s.staged) && DiskPlan.Valid(DesiredDisks(config))
    requires AllConverted(DesiredDisks(config)) && Ready(DesiredDisks(config), CurrentDisks(current), s.staged)
    requires forall k :: k in sets <==> SetsKey(config, current, h.version8, k)
    requires Valued(config, current, h.version8, sets)
    requires Configured(h, s, t, sets, ListText(Requested(config, current, orders)))
    requires FollowsPlan(h, DesiredDisks(config), CurrentDisks(current), CurrentLinkedVm(current), s, sets,
                         ListText(Requested(config, current, orders)))
    ensures CallPlanned(h, config, current, s.staged, t.staged)
  {
    ConfiguredAsPlanned(h, DesiredDisks(config), CurrentDisks(current), CurrentLinkedVm(current), s, t, sets,
                        ListText(Requested(config, current, orders)));
    CallConfiguresParts(h, config, current, orders, s, t, sets);
    CallConfiguresTpm(h, config, current, h.version8, orders, s, t, sets);
  }

  /** What the call leaves of the parameters that are no drives and no TPM state. */
  lemma CallConfiguresParts(h: Site, config: ConfigQemu, current: ConfigQemu, orders: Orders, s: VmState, t: VmState,
                            sets: map<Key, Value>)
    requires Mappable(config, current) && Enumerated(config, orders) && Sound(h, s) && Sound(h, t)
    requires PartsValid(config) && PartsAreFrom(current, s.staged)
    requires forall k :: k in sets <==> SetsKey(config, current, h.version8, k)
    requires Valued(config, current, h.version8, sets)
    requires Configured(h, s, t, sets, ListText(Requested(config, current, orders)))
    ensures PartsAsAsked(config, current.memory.Some?, h.version8, Texts(s.staged), Texts(t.staged))
  {
    PartsRead(current, s.staged);
    NamedInList(Requested(config, current, orders), s.staged.Keys);
    forall k: Key | k.Plain? || k.IpConfig? || k.Serial?
      ensures Patched(Texts(s.staged), Texts(t.staged), k, if k in sets then Some(sets[k]) else None,
                      DeletesKey(config, current, k))
    {
      RequestedMember(config, current, orders, k);
      if k in sets {
        TextIsSent(config, current, h.version8, sets, k);
      }
      TextAfterCall(h, s, t, sets, ListText(Requested(config, current, orders)), k, DeletesKey(config, current, k));
    }
    forall i: nat
      ensures CloudInitNet.PlainNetwork(CloudInit.InterfaceAt(Texts(s.staged), i))
    {
      InterfaceIsPlain(h, s.staged, i);
    }
    Config.CallIsAsAsked(config, current, h.version8, sets, Texts(s.staged), Texts(t.staged));
  }

  lemma InterfaceIsPlain(h: Site, l: Layout, i: nat)
    requires SoundLayout(h, l)
    ensures CloudInitNet.PlainNetwork(CloudInit.InterfaceAt(Texts(l), i))
  {
    assert IpConfig(i) in l ==> SoundSlot(h, IpConfig(i), l[IpConfig(i)]);
  }

  /** One text after a call. */
  lemma TextAfterCall(h: Site, s: VmState, t: VmState, sets: map<Key, Value>, delete: string, k: Key, deleted: bool)
    requires Configured(h, s, t, sets, delete) && Sound(h, s) && (k.Plain? || k.IpConfig? || k.Serial?)
    requires k in sets ==> sets[k].SetText? || sets[k].SetNumber?
    requires k in s.staged ==> (k in NamedIn(delete, s.staged.Keys) <==> deleted)
    ensures Patched(Texts(s.staged), Texts(t.staged), k, if k in sets then Some(sets[k]) else None, deleted)
  {
    assert k in t.staged <==> k in sets || (k in s.staged && k !in NamedIn(delete, s.staged.Keys));
    assert k in s.staged ==> SoundSlot(h, k, s.staged[k]);
    if k in sets {
      assert Becomes(h, k, At(s.staged, k), sets[k], t.staged[k]);
    }
  }

  /** Everything else than drives and the TPM state is sent as a text or a number. */
  lemma TextIsSent(config: ConfigQemu, current: ConfigQemu, version8: bool, sets: map<Key, Value>, k: Key)
    requires k in sets && SetsKey(config, current, version8, k) && Valued(config, current, version8, sets)
    requires k.Plain? || k.IpConfig? || k.Serial?
    ensures sets[k].SetText? || sets[k].SetNumber?
  {
    match k
    case IpConfig(_) => assert CloudInitSets(config, current, version8, k);
    case Serial(_) => assert SerialSets(config, current, k);
    case Plain(w) =>
      if CpuSets(config, current, k) {
        assert k in sets;
      } else if k in MemoryValues(config, current) {
        assert sets[k] == MemoryValues(config, current)[k];
      } else {
        assert CloudInitSets(config, current, version8, k);
      }
  }

  lemma CallMinds(h: Site, config: ConfigQemu, current: ConfigQemu, e: Event, p: Policy)
    requires e.call.Configure? && p.desired == DesiredDisks(config)
    requires FollowsPlan(h, DesiredDisks(config), CurrentDisks(current), CurrentLinkedVm(current), e.before,
                         e.call.sets, e.call.delete)
    ensures Minds(e, p)
  {
    forall k: Key | k.Drive? && k !in p.desired
      ensures k !in e.call.sets && k !in NamedIn(e.call.delete, e.before.staged.Keys)
    {
      assert PlanOf(p.desired, CurrentDisks(current), k, h.vmId, CurrentLinkedVm(current)) == Keep;
    }
  }

  lemma CallIsExact(h: Site, config: ConfigQemu, current: ConfigQemu, e: Event)
    requires ValidSite(h) && Sound(h, e.before) && e.call.Configure?
    requires DiskPlan.Valid(DesiredDisks(config)) && AllConverted(DesiredDisks(config))
    requires Ready(DesiredDisks(config), CurrentDisks(current), e.before.staged)
    requires FollowsPlan(h, DesiredDisks(config), CurrentDisks(current), CurrentLinkedVm(current), e.before,
                         e.call.sets, e.call.delete)
    ensures ExactCall(h, DesiredDisks(config), CurrentDisks(current), CurrentLinkedVm(current), e)
    ensures TwoMayHold(e) <==> TwoHolders(DesiredDisks(config), e.before)
  {
    var desired := DesiredDisks(config);
    SamePlanned(h, desired, CurrentDisks(current), CurrentLinkedVm(current), e);
    if CanSucceed(h, e) {
      MissesAreExact(h, desired, CurrentDisks(current), CurrentLinkedVm(current), e);
      SecondExactly(h, e);
      forall k | k in desired
        ensures CreatesAt(e, k) <==> Created(Some(desired[k]), Get(CurrentDisks(current), k))
      {
        NewDisksExactly(h, desired, CurrentDisks(current), CurrentLinkedVm(current), e, k);
      }
    }
  }

  // ---------------------------------------------------------------- before the configuration call

  /** What `Validate` accepts, as far as the update depends on it. */
  ghost predicate ConfigValid(config: ConfigQemu, current: Option<ConfigQemu>) {
    && DiskPlan.Valid(DesiredDisks(config))
    && (config.tpm.Some? ==> TpmConfig.Valid(config.tpm.value, if current.Some? then current.value.tpm else None))
    && (config.memory.Some? ==> MemoryConfig.Valid(config.memory.value, if current.Some? then current.value.memory
                                                   else None))
    && PartsValid(config)
  }

  /** The validation accepts the configuration; `rest` is what the validators say that are not followed. */
  ghost predicate Accepted(config: ConfigQemu, current: Option<ConfigQemu>, rest: bool) {
    ConfigValid(config, current) && rest
  }

  /** What the conversion of the configuration's disks guarantees, before any validation. */
  predicate ShapedSlot(s: Storage, bus: Bus) {
    && (s.disk.Some? ==> s.disk.value.isDisk && s.disk.value.file == "" && s.disk.value.bus == bus)
    && (s.passthrough.Some? ==>
         !s.passthrough.value.isDisk && s.passthrough.value.storage == "" && s.passthrough.value.bus == bus)
  }

  ghost predicate Shaped(s: Storages) { forall k | k in s :: IsSlot(k) && ShapedSlot(s[k], k.bus) }

  lemma ValidIsConverted(s: Storages)
    requires Shaped(s) && DiskPlan.Valid(s)
    ensures AllConverted(s) && OnlySlots(s)
  {
    forall k | k in s
      ensures IsSlot(k) && Converted(s[k], k.bus)
    {
      assert ValidStorage(s[k]) && ShapedSlot(s[k], k.bus);
    }
  }

  /** Whether the TPM state has to be deleted before it can be created again. */
  predicate Recreates(config: ConfigQemu, current: Option<ConfigQemu>)
    requires current.Some? && current.value.tpm.Some? ==> current.value.tpm.value.version.Some?
  {
    current.Some? && RecreatesTpm(config.tpm, current.value.tpm)
  }

  /** What a run promises. */
  ghost function PolicyOf(config: ConfigQemu, current: Option<ConfigQemu>, s: VmState, rebootIfNeeded: bool): Policy
    requires current.Some? && current.value.tpm.Some? ==> current.value.tpm.value.version.Some?
  {
    var desired := DesiredDisks(config);
    Policy(rebootIfNeeded, OneEach(s), SecondPossible(desired, Recreates(config, current), s), desired, s)
  }

  /** The state between the marked changes and the configuration call: `l1` is what the moves and
      resizes left of the configuration `l`, and `gone` what was deleted then. */
  ghost predicate Between(h: Site, config: ConfigQemu, current: ConfigQemu, l: Layout, l1: Layout,
                          gone: set<Key>, moved: bool, recreate: bool)
  {
    var desired := DesiredDisks(config);
    && (current.tpm.Some? ==> current.tpm.value.version.Some?)
    && Prepared(h, desired, l, l1) && OnlyDisplaced(desired, l, gone)
    && (AtMostOneCloudInit(View(l)) ==> forall k | Displaced(desired, View(l), k) :: k in gone)
    && (!moved ==> forall k | KeptAt(desired, l, k) :: MoveOf(Get(desired, k), Get(View(l), k), k).None?)
    && recreate == RecreatesTpm(config.tpm, current.tpm) && (recreate <==> Key.TpmState in gone)
    && (forall k | k in gone :: k.Drive? || k == Key.TpmState)
    && (forall k: Key | k.Plain? || k.IpConfig? || k.Serial? :: At(l1, k) == At(l, k))
    && At(l1, Key.TpmState) == (
         if MovesTpm(config.tpm, current.tpm)
         then Some(TpmSlot(config.tpm.value.storage, current.tpm.value.version.value)) else At(l, Key.TpmState))
  }

  /** The marked changes, and the list of what has to be deleted before the update. */
  method MarkAndChange(g: Guest, config: ConfigQemu, current: ConfigQemu, ghost p: Policy)
    returns (moved: bool, recreate: bool, items: string, ok: bool, ghost keys: seq<Key>)
    requires g.Valid() && Holds(g.s, p) && IsCurrent(current, g.site, g.s.staged)
    requires OnlySlots(DesiredDisks(config)) && AtMostOneCloudInit(DesiredDisks(config))
    requires p.desired == DesiredDisks(config)
    modifies g
    ensures g.Valid() && Steps(old(g.trace), g.trace, p) && Holds(g.s, p) && CloudInitKept(old(g.s), g.s)
    ensures ok <==> Fine(old(g.trace), g.trace)
    ensures items == ListText(keys)
    ensures ok ==> Between(g.site, config, current, old(g.s.staged), g.s.staged, (set k | k in keys), moved, recreate)
  {
    ghost var trace, l := g.trace, g.s.staged;
    recreate, items, keys := false, "", [];
    var displaced;
    moved, displaced, ok := ChangeDisks(g, config, current, p);
    if !ok {
      return;
    }
    ghost var trace1, l0 := g.trace, g.s.staged;
    var removed := if displaced.Some? then Name(displaced.value) else "";
    var marked;
    marked, recreate, ok := ChangeTpm(g, config, current, removed, p);
    MoreSteps(trace, trace1, g.trace, p);
    if !ok {
      return;
    }
    items, keys := marked, Optional(displaced) + if recreate then [Key.TpmState] else [];
    ItemsAreNames(displaced, recreate);
    BetweenHolds(g.site, config, current, l, l0, g.s.staged, displaced, moved, recreate);
  }

  lemma BetweenHolds(h: Site, config: ConfigQemu, current: ConfigQemu, l: Layout, l0: Layout, l1: Layout,
                     displaced: Option<Key>, moved: bool, recreate: bool)
    requires current.tpm == SeenTpm(l) && recreate == RecreatesTpm(config.tpm, current.tpm)
    requires Prepared(h, DesiredDisks(config), l, l0) && forall k: Key | !k.Drive? :: At(l0, k) == At(l, k)
    requires displaced.Some? ==> Displaced(DesiredDisks(config), View(l), displaced.value)
    requires AtMostOneCloudInit(View(l)) && displaced.None? ==> forall k :: !Displaced(DesiredDisks(config), View(l), k)
    requires !moved ==> forall k | KeptAt(DesiredDisks(config), l, k) ::
             MoveOf(Get(DesiredDisks(config), k), Get(View(l), k), k).None?
    requires if MovesTpm(config.tpm, current.tpm)
             then Key.TpmState in l0 && Key.TpmState in l1 && l1 == l0[Key.TpmState := l1[Key.TpmState]] &&
                  MovedSlot(h, l0[Key.TpmState], l1[Key.TpmState], config.tpm.value.storage, None)
             else l1 == l0
    ensures var keys := Optional(displaced) + if recreate then [Key.TpmState] else [];
            Between(h, config, current, l, l1, (set k | k in keys), moved, recreate)
  {
    StillPrepared(h, DesiredDisks(config), l, l0, l1);
    TpmMoved(h, config, current, l, l0, l1);
    if displaced.Some? {
      assert forall k | AtMostOneCloudInit(View(l)) && Displaced(DesiredDisks(config), View(l), k) ::
             k == displaced.value;
    }
  }

  /** The marked changes and the deletions they need. */
  method ChangeAndDelete(g: Guest, config: ConfigQemu, current: ConfigQemu, rebootIfNeeded: bool, ghost p: Policy)
    returns (moved: bool, recreate: bool, stopped: bool, unable: bool, ok: bool, ghost l1: Layout,
             ghost gone: set<Key>, ghost deletion: Option<Event>)
    requires g.Valid() && IsCurrent(current, g.site, g.s.staged)
    requires p == PolicyOf(config, Some(current), g.s, rebootIfNeeded)
    requires OnlySlots(DesiredDisks(config)) && AtMostOneCloudInit(DesiredDisks(config))
    modifies g
    ensures g.Valid() && Steps(old(g.trace), g.trace, p) && Holds(g.s, p)
    ensures (ok || unable) <==> Fine(old(g.trace), g.trace)
    ensures unable ==> !ok && !rebootIfNeeded && Pending(g.s) && deletion.Some?
    ensures ok ==> g.s.staged == Without(l1, gone)
    ensures ok ==> Between(g.site, config, current, old(g.s.staged), l1, gone, moved, recreate)
    ensures ok ==> if gone == {} then CloudInitKept(old(g.s), g.s) else !Pending(g.s)
    ensures ok ==> (if stopped then old(g.s).running && !g.s.running && rebootIfNeeded && gone != {}
                    else g.s.running == old(g.s).running)
    ensures deletion.Some? ==> deletion.value in g.trace[|old(g.trace)|..]
    ensures deletion.Some? ==> DeletionForeseen(g.site, config, Some(current), old(g.s), deletion.value)
  {
    ghost var trace, s, keys := g.trace, g.s, [];
    var items;
    stopped, unable, deletion := false, false, None;
    NothingTouched(s, p);
    moved, recreate, items, ok, keys := MarkAndChange(g, config, current, p);
    l1, gone := g.s.staged, set k | k in keys;
    if ok {
      ghost var trace1, s1 := g.trace, g.s;
      assert keys != [] ==> keys[0] in gone;
      if keys != [] && p.one {
        DeletionHolds(g.site, config, current, s, s1, items, keys, moved, recreate);
      }
      stopped, unable, ok, deletion := DeleteBeforeUpdate(g, items, keys, rebootIfNeeded, p);
      MoreSteps(trace, trace1, g.trace, p);
      if deletion.Some? {
        DeletionIsForeseen(g.site, config, current, s, s1, items, keys, moved, recreate, deletion.value);
        MadeLater(trace, trace1, g.trace, deletion.value);
      }
    }
  }

  lemma NothingTouched(s: VmState, p: Policy)
    requires p.start == s && (p.one ==> OneEach(s))
    ensures Holds(s, p)
  {
  }

  lemma MadeLater(a: seq<Event>, b: seq<Event>, c: seq<Event>, e: Event)
    requires |a| <= |b| <= |c| && e in c[|b|..]
    ensures e in c[|a|..]
  {
    assert c[|b|..] == c[|a|..][|b| - |a|..];
  }

  /** What a caller knows before the run about the call that deletes, if it can succeed: it can give the
      guest a second cloud-init disk exactly when that is possible. */
  ghost predicate DeletionForeseen(h: Site, config: ConfigQemu, current: Option<ConfigQemu>, s: VmState, e: Event)
    requires current.Some? && current.value.tpm.Some? ==> current.value.tpm.value.version.Some?
  {
    && e.call.Configure? && e.call.sets == map[]
    && (CanSucceed(h, e) && OneEach(s) ==>
         (CanGiveSecond(h, e) <==> SecondInDeletion(DesiredDisks(config), Recreates(config, current), s)))
  }

  lemma DeletionIsForeseen(h: Site, config: ConfigQemu, current: ConfigQemu, s: VmState, s1: VmState, items: string,
                           keys: seq<Key>, moved: bool, recreate: bool, e: Event)
    requires Sound(h, s1) && keys != [] && items == ListText(keys)
    requires Between(h, config, current, s.staged, s1.staged, (set k | k in keys), moved, recreate)
    requires CloudInitKept(s, s1) && (!s.running ==> !Pending(s)) && SoundLayout(h, s.staged)
    requires e.call == Configure(map[], items) && e.before == s1
    ensures DeletionForeseen(h, config, Some(current), s, e)
  {
    if CanSucceed(h, e) && OneEach(s) {
      SecondExactly(h, e);
      DeletionHolds(h, config, current, s, s1, items, keys, moved, recreate);
      SameHolders(e, Deletes(s1, items));
    }
  }

  lemma SameHolders(e: Event, e': Event)
    requires e.call.Configure? && e'.call == e.call && e'.before == e.before
    ensures TwoMayHold(e) <==> TwoMayHold(e')
  {
    assert forall k :: MayHold(e, k) <==> MayHold(e', k);
  }

  /** The deletion leaves two slots that may hold a cloud-init disk exactly when a caller can tell so. */
  lemma DeletionHolds(h: Site, config: ConfigQemu, current: ConfigQemu, s: VmState, s1: VmState, items: string,
                      keys: seq<Key>, moved: bool, recreate: bool)
    requires OneEach(s) && keys != [] && items == ListText(keys)
    requires Between(h, config, current, s.staged, s1.staged, (set k | k in keys), moved, recreate)
    requires CloudInitKept(s, s1) && (!s.running ==> !Pending(s)) && SoundLayout(h, s.staged)
    ensures TwoMayHold(Deletes(s1, items)) <==> SecondInDeletion(DesiredDisks(config), recreate, s)
    ensures DeletesFirst(DesiredDisks(config), recreate, s)
  {
    var desired, e := DesiredDisks(config), Deletes(s1, items);
    StagedHasOneCloudInit(h, s);
    assert keys[0] in set k | k in keys;
    NamedInList(keys, s1.staged.Keys);
    forall k
      ensures MayHold(e, k) <==> (s.running && IsCloudInit(s.active, k)) || Left(desired, s, k)
    {
      LeftIsNotGone(h, config, current, s, s1.staged, (set k | k in keys), moved, recreate, k);
    }
    TwoOfOneEach(desired, recreate, s, e);
  }

  /** What is left staged is what is not deleted. */
  lemma LeftIsNotGone(h: Site, config: ConfigQemu, current: ConfigQemu, s: VmState, l1: Layout,
                      gone: set<Key>, moved: bool, recreate: bool, k: Key)
    requires Between(h, config, current, s.staged, l1, gone, moved, recreate) && SoundLayout(h, s.staged)
    requires AtMostOneCloudInit(View(s.staged))
    ensures IsCloudInit(s.staged, k) && k !in gone <==> Left(DesiredDisks(config), s, k)
  {
    assert k in s.staged ==> SoundSlot(h, k, s.staged[k]);
  }

  lemma TwoOfOneEach(desired: Storages, recreate: bool, s: VmState, e: Event)
    requires OneEach(s) && e.call.Configure? && DeletesFirst(desired, recreate, s) && (!s.running ==> !Pending(s))
    requires forall k :: MayHold(e, k) <==> (s.running && IsCloudInit(s.active, k)) || Left(desired, s, k)
    ensures TwoMayHold(e) <==> SecondInDeletion(desired, recreate, s)
  {
    if SecondInDeletion(desired, recreate, s) {
      var a, b :| a != b && IsCloudInit(s.active, a) && Left(desired, s, b);
      assert s.running;
      assert MayHold(e, a) && MayHold(e, b);
    }
    if TwoMayHold(e) {
      var a, b :| a != b && MayHold(e, a) && MayHold(e, b);
      assert Left(desired, s, a) || Left(desired, s, b);
    }
  }

  lemma ItemsAreNames(displaced: Option<Key>, recreate: bool)
    ensures var items := if displaced.Some? then Name(displaced.value) else "";
            (if recreate then AddToList(items, "tpmstate0") else items) ==
            ListText(Optional(displaced) + if recreate then [Key.TpmState] else [])
  {
    var none: seq<Key> := [];
    TpmName();
    assert none + [Key.TpmState] == [Key.TpmState];
    if displaced.Some? {
      var k := displaced.value;
      AddNameToList(none, k);
      assert none + [k] == [k] && [k] + none == [k];
      AddNameToList([k], Key.TpmState);
    }
  }

  lemma TpmMoved(h: Site, config: ConfigQemu, current: ConfigQemu, l: Layout, l0: Layout, l1: Layout)
    requires current.tpm == SeenTpm(l) && At(l0, Key.TpmState) == At(l, Key.TpmState)
    requires if MovesTpm(config.tpm, current.tpm)
             then Key.TpmState in l0 && Key.TpmState in l1 &&
                  MovedSlot(h, l0[Key.TpmState], l1[Key.TpmState], config.tpm.value.storage, None)
             else l1 == l0
    ensures At(l1, Key.TpmState) ==
            if MovesTpm(config.tpm, current.tpm)
            then Some(TpmSlot(config.tpm.value.storage, current.tpm.value.version.value)) else At(l, Key.TpmState)
  {
  }

  lemma StillPrepared(h: Site, desired: Storages, l: Layout, l0: Layout, l1: Layout)
    requires Prepared(h, desired, l, l0) && forall k: Key | k.Drive? :: At(l1, k) == At(l0, k)
    ensures Prepared(h, desired, l, l1)
  {
    forall k: Key | k.Drive?
      ensures if KeptAt(desired, l, k)
              then k in l && k in l1 && Settled(h, l[k], l1[k], desired[k].disk.value)
              else At(l1, k) == At(l, k)
    {
      assert At(l1, k) == At(l0, k);
    }
  }

  /** The configuration the call is made from: read again after moves, which change disk ids;
      otherwise the first one, without the TPM state when that was deleted. */
  ghost predicate IsNext(h: Site, current: ConfigQemu, l2: Layout, moved: bool, recreate: bool, next: ConfigQemu) {
    if moved then IsCurrent(next, h, l2) else next == if recreate then current.(tpm := None) else current
  }

  lemma ReadyForCall(h: Site, config: ConfigQemu, current: ConfigQemu, l: Layout, l1: Layout, l2: Layout,
                     gone: set<Key>, moved: bool, recreate: bool, next: ConfigQemu)
    requires ValidSite(h) && SoundLayout(h, l) && SoundLayout(h, l2) && OnlySlots(DesiredDisks(config))
    requires IsCurrent(current, h, l) && Between(h, config, current, l, l1, gone, moved, recreate) &&
             l2 == Without(l1, gone)
    requires IsNext(h, current, l2, moved, recreate, next)
    ensures CurrentDisks(next) == (if moved then View(l2) else View(l))
    ensures Ready(DesiredDisks(config), CurrentDisks(next), l2)
  {
    CurrentIsView(current, h, l);
    if moved {
      CurrentIsView(next, h, l2);
      ReadyAfterReading(h, DesiredDisks(config), l, l1, l2, gone);
    } else {
      ReadyWithoutMoves(h, DesiredDisks(config), l, l1, l2, gone);
    }
  }

  lemma MappableForCall(h: Site, config: ConfigQemu, current: ConfigQemu, l: Layout, l1: Layout, l2: Layout,
                        gone: set<Key>, moved: bool, recreate: bool, next: ConfigQemu)
    requires ValidSite(h) && SoundLayout(h, l) && SoundLayout(h, l2) && AllConverted(DesiredDisks(config))
    requires ConfigValid(config, Some(current)) && IsCurrent(current, h, l)
    requires Between(h, config, current, l, l1, gone, moved, recreate) && l2 == Without(l1, gone)
    requires IsNext(h, current, l2, moved, recreate, next)
    ensures Mappable(config, next)
  {
    CurrentIsView(current, h, l);
    ViewIsConverted(h, l);
    ViewIsConverted(h, l2);
    TpmForCall(h, config, current, l, l1, l2, gone, moved, recreate, next);
    if moved {
      CurrentIsView(next, h, l2);
    }
  }

  /** The TPM state the call is made from is the one the server holds. */
  lemma TpmForCall(h: Site, config: ConfigQemu, current: ConfigQemu, l: Layout, l1: Layout, l2: Layout,
                   gone: set<Key>, moved: bool, recreate: bool, next: ConfigQemu)
    requires SoundLayout(h, l) && SoundLayout(h, l2)
    requires ConfigValid(config, Some(current)) && IsCurrent(current, h, l)
    requires Between(h, config, current, l, l1, gone, moved, recreate) && l2 == Without(l1, gone)
    requires IsNext(h, current, l2, moved, recreate, next)
    ensures next.tpm.Some? <==> Key.TpmState in l2
    ensures next.tpm.Some? && config.tpm.Some? && !config.tpm.value.delete ==>
              l2[Key.TpmState] == TpmSlot(config.tpm.value.storage, current.tpm.value.version.value) && !recreate &&
              current.tpm.Some?
    ensures SetsTpm(config, next) ==> config.tpm.value.version.Some?
  {
    assert Key.TpmState in l ==> SoundSlot(h, Key.TpmState, l[Key.TpmState]);
    assert Key.TpmState in l2 ==> SoundSlot(h, Key.TpmState, l2[Key.TpmState]);
    assert Key.TpmState in l2 <==> Key.TpmState in l1 && !recreate;
    assert At(l1, Key.TpmState).Some? <==> Key.TpmState in l;
  }

  /** A slot can be missed by the call exactly when a caller could tell so before the run, also after
      moves have changed disk ids and the linked VM id. */
  lemma MissIsForeseen(h: Site, config: ConfigQemu, current: ConfigQemu, l: Layout, l1: Layout, l2: Layout,
                       gone: set<Key>, moved: bool, recreate: bool, next: ConfigQemu, k: Key)
    requires ValidSite(h) && SoundLayout(h, l) && SoundLayout(h, l2) && AllConverted(DesiredDisks(config)) &&
             OnlySlots(DesiredDisks(config))
    requires IsCurrent(current, h, l) && Between(h, config, current, l, l1, gone, moved, recreate) &&
             l2 == Without(l1, gone)
    requires IsNext(h, current, l2, moved, recreate, next) && k in DesiredDisks(config)
    ensures Kept(Some(DesiredDisks(config)[k]), Get(CurrentDisks(next), k)) <==> KeptAt(DesiredDisks(config), l, k)
    ensures Missable(h, DesiredDisks(config)[k], Get(CurrentDisks(next), k), At(l2, k), CurrentLinkedVm(next)) <==>
            MayMiss(h, DesiredDisks(config), l, k)
  {
    var desired := DesiredDisks(config);
    StaysExactly(h, desired, l, k);
    ReadyForCall(h, config, current, l, l1, l2, gone, moved, recreate, next);
    if moved {
      ReadyAfterReading(h, desired, l, l1, l2, gone);
    }
    if KeptAt(desired, l, k) {
      KeptAtCall(h, desired, l, l1, l2, gone, k);
      NextLinkedVm(h, config, current, l, l1, l2, gone, moved, recreate, next);
      UnnamedIsMisnamed(h, desired, l, l2, k, Get(CurrentDisks(next), k), CurrentLinkedVm(next));
    }
  }

  /** A kept disk is settled at the call. */
  lemma KeptAtCall(h: Site, desired: Storages, l: Layout, l1: Layout, l2: Layout, gone: set<Key>, k: Key)
    requires SoundLayout(h, l) && Prepared(h, desired, l, l1) && l2 == Without(l1, gone) &&
             OnlyDisplaced(desired, l, gone)
    requires KeptAt(desired, l, k)
    ensures k in desired && desired[k].disk.Some? && k in l && k in l2 && k in View(l2)
    ensures Settled(h, l[k], l2[k], desired[k].disk.value)
  {
    KeptIsDisk(h, desired, l, k);
    assert k !in gone && At(l2, k) == At(l1, k);
  }

  /** The volume of a kept disk is unnamed in the call exactly when it is misnamed from the start: a moved
      one is named, and any other is where it was. */
  lemma UnnamedIsMisnamed(h: Site, desired: Storages, l: Layout, l2: Layout, k: Key, current: Option<Storage>,
                          linkedVmId: uint)
    requires ValidSite(h) && SoundLayout(h, l) && KeptAt(desired, l, k) && k in l2
    requires k in desired && desired[k].disk.Some? && k in l && Settled(h, l[k], l2[k], desired[k].disk.value)
    requires Kept(Some(desired[k]), current)
    requires LinkedVmSeen(Unmoved(desired, l), linkedVmId)
    ensures Unnamed(h, desired[k], current, At(l2, k), linkedVmId) <==> Misnamed(h, desired, l, k)
  {
    var d := desired[k].disk.value;
    KeptIsDisk(h, desired, l, k);
    StaysExactly(h, desired, l, k);
    if MoveOf(Get(desired, k), Get(View(l), k), k).Some? {
      OwnPathIsAttached(h, l2[k].path, d.storage, d.format, linkedVmId);
    } else {
      OnlyLinkedVm(h, desired, l, linkedVmId, l[k].path);
    }
  }

  /** The linked VM id of the call is that of the disks that stay. */
  lemma NextLinkedVm(h: Site, config: ConfigQemu, current: ConfigQemu, l: Layout, l1: Layout, l2: Layout,
                     gone: set<Key>, moved: bool, recreate: bool, next: ConfigQemu)
    requires ValidSite(h) && SoundLayout(h, l) && OnlySlots(DesiredDisks(config))
    requires IsCurrent(current, h, l) && Between(h, config, current, l, l1, gone, moved, recreate) &&
             l2 == Without(l1, gone)
    requires IsNext(h, current, l2, moved, recreate, next)
    ensures next.disks.Some? ==> LinkedVmSeen(Unmoved(DesiredDisks(config), l), CurrentLinkedVm(next))
    ensures (exists k :: KeptAt(DesiredDisks(config), l, k)) ==> next.disks.Some?
  {
    var desired := DesiredDisks(config);
    if moved {
      LinkedAfterMoves(h, desired, l, l1, l2, gone, next.linkedVmId);
      if k :| KeptAt(desired, l, k) {
        KeptAtCall(h, desired, l, l1, l2, gone, k);
      }
    } else {
      AllUnmoved(desired, l);
      if k :| KeptAt(desired, l, k) {
        KeptIsDisk(h, desired, l, k);
        assert k in View(l);
      }
    }
  }

  lemma AllUnmoved(desired: Storages, l: Layout)
    requires forall k | KeptAt(desired, l, k) :: MoveOf(Get(desired, k), Get(View(l), k), k).None?
    ensures Unmoved(desired, l) == l
  {
    forall k
      ensures MoveOf(Get(desired, k), Get(View(l), k), k).None?
    {
      assert !KeptAt(desired, l, k) ==> MoveOf(Get(desired, k), Get(View(l), k), k).None?;
    }
  }

  lemma OnlyLinkedVm(h: Site, desired: Storages, l: Layout, id: uint, path: string)
    requires LinkedVmSeen(Unmoved(desired, l), id)
    ensures (exists other: uint :: LinkedVmSeen(Unmoved(desired, l), other) && !Attached(h, path, other)) <==>
            !Attached(h, path, id)
  {
    forall other: uint | LinkedVmSeen(Unmoved(desired, l), other)
      ensures other == id
    {
      LinkedVmIsOne(Unmoved(desired, l), id, other);
    }
  }

  /** Two slots may hold a cloud-init disk after the configuration call exactly when a caller can tell so
      before the run, given whether the guest runs at the call. */
  lemma SecondIsForeseen(h: Site, config: ConfigQemu, current: ConfigQemu, s0: VmState, l1: Layout, s: VmState,
                         gone: set<Key>, moved: bool, recreate: bool)
    requires Sound(h, s0) && OneEach(s0) && Sound(h, s)
    requires Between(h, config, current, s0.staged, l1, gone, moved, recreate) && s.staged == Without(l1, gone)
    requires if gone == {} then CloudInitKept(s0, s) else !Pending(s)
    ensures TwoHolders(DesiredDisks(config), s) <==> SecondInCall(DesiredDisks(config), recreate, s0, s.running)
  {
    forall k
      ensures HolderAt(DesiredDisks(config), s, k) <==> Holder(DesiredDisks(config), recreate, s0, s.running, k)
    {
      HolderIsForeseen(h, config, current, s0, l1, s, gone, moved, recreate, k);
    }
  }

  lemma HolderIsForeseen(h: Site, config: ConfigQemu, current: ConfigQemu, s0: VmState, l1: Layout, s: VmState,
                         gone: set<Key>, moved: bool, recreate: bool, k: Key)
    requires Sound(h, s0) && OneEach(s0) && Sound(h, s)
    requires Between(h, config, current, s0.staged, l1, gone, moved, recreate) && s.staged == Without(l1, gone)
    requires if gone == {} then CloudInitKept(s0, s) else !Pending(s)
    ensures HolderAt(DesiredDisks(config), s, k) <==> Holder(DesiredDisks(config), recreate, s0, s.running, k)
  {
    var desired := DesiredDisks(config);
    StagedHasOneCloudInit(h, s0);
    LeftIsNotGone(h, config, current, s0, l1, gone, moved, recreate, k);
    StagedCloudInit(h, config, current, s0.staged, l1, gone, moved, recreate, k);
    if gone == {} {
      assert Key.TpmState !in gone && forall j | Displaced(desired, View(s0.staged), j) :: j in gone;
      assert !DeletesFirst(desired, recreate, s0);
    } else {
      var j :| j in gone;
      assert DeletesFirst(desired, recreate, s0);
    }
  }

  /** Which slots are staged as cloud-init disks before the configuration call. */
  lemma StagedCloudInit(h: Site, config: ConfigQemu, current: ConfigQemu, l: Layout, l1: Layout,
                        gone: set<Key>, moved: bool, recreate: bool, k: Key)
    requires Between(h, config, current, l, l1, gone, moved, recreate) && SoundLayout(h, l)
    requires SoundLayout(h, Without(l1, gone))
    ensures IsCloudInit(Without(l1, gone), k) <==> IsCloudInit(l, k) && k !in gone
  {
    assert k in l ==> SoundSlot(h, k, l[k]);
    assert k in Without(l1, gone) ==> SoundSlot(h, k, Without(l1, gone)[k]);
  }

  /** A guest that runs at the call ran from the start. */
  lemma SecondWhenRunning(desired: Storages, recreate: bool, s: VmState, running: bool)
    requires (running ==> s.running) && SecondInCall(desired, recreate, s, running)
    ensures SecondPossible(desired, recreate, s)
  {
    var a, b :| a != b && Holder(desired, recreate, s, running, a) && Holder(desired, recreate, s, running, b);
    assert Holder(desired, recreate, s, s.running, a) && Holder(desired, recreate, s, s.running, b);
  }

  lemma StagedHasOneCloudInit(h: Site, s: VmState)
    requires SoundLayout(h, s.staged) && Single(s.staged)
    ensures AtMostOneCloudInit(View(s.staged))
  {
    forall a | a in View(s.staged) && View(s.staged)[a].cloudInit.Some?
      ensures IsCloudInit(s.staged, a)
    {
      assert SoundSlot(h, a, s.staged[a]);
    }
  }

  // ---------------------------------------------------------------- what an update is for

  /** Slots that are not mentioned stay as they are, except a displaced cloud-init disk. */
  ghost predicate OthersKept(desired: Storages, l: Layout, l': Layout) {
    && (forall k: Key | k.Drive? && k !in desired && !Displaced(desired, View(l), k) :: At(l', k) == At(l, k))
    && (forall k: Key | k.Drive? && k !in desired && Displaced(desired, View(l), k) ::
         if AtMostOneCloudInit(View(l)) then k !in l' else k in l' ==> l'[k] == l[k])
  }

  /** The TPM state has the storage and the version asked for, or is gone, or is as it was. */
  predicate TpmAsWanted(t: Option<TpmConfig.TpmState>, l: Layout, l': Layout) {
    match t
    case None => At(l', Key.TpmState) == At(l, Key.TpmState)
    case Some(tpm) =>
      if tpm.delete then Key.TpmState !in l'
      else
        && Key.TpmState in l' && l'[Key.TpmState].TpmSlot? && l'[Key.TpmState].storage == tpm.storage
        && (if tpm.version.Some? then l'[Key.TpmState].version == (
              if tpm.version.value in {"v2.0", "v2", "2.0", "2"} then "v2.0" else tpm.version.value)
            else SeenTpm(l).Some? && Some(l'[Key.TpmState].version) == SeenTpm(l).value.version)
  }

  lemma TpmIsAsWanted(h: Site, config: ConfigQemu, current: ConfigQemu, l: Layout, l1: Layout, l2: Layout,
                      gone: set<Key>, moved: bool, recreate: bool, next: ConfigQemu, l3: Layout)
    requires SoundLayout(h, l) && SoundLayout(h, l2)
    requires ConfigValid(config, Some(current)) && IsCurrent(current, h, l)
    requires Between(h, config, current, l, l1, gone, moved, recreate) && l2 == Without(l1, gone)
    requires IsNext(h, current, l2, moved, recreate, next) && TpmConfigured(config, next, l2, l3)
    ensures TpmAsWanted(config.tpm, l, l3)
  {
    TpmConfig.VersionTexts();
    TpmForCall(h, config, current, l, l1, l2, gone, moved, recreate, next);
    assert config.tpm.None? ==> At(l2, Key.TpmState) == At(l1, Key.TpmState) == At(l, Key.TpmState);
  }

  lemma OthersAreKept(h: Site, config: ConfigQemu, current: ConfigQemu, l: Layout, l1: Layout,
                      gone: set<Key>, moved: bool, recreate: bool, l4: Layout)
    requires Between(h, config, current, l, l1, gone, moved, recreate)
    requires forall k: Key | k.Drive? && k !in DesiredDisks(config) :: At(l4, k) == At(Without(l1, gone), k)
    ensures OthersKept(DesiredDisks(config), l, l4)
  {
    forall k: Key | k.Drive? && k !in DesiredDisks(config)
      ensures At(l4, k) == if k in gone then None else At(l, k)
    {
      assert At(l1, k) == At(l, k);
    }
  }

  /** What the configuration call leaves behind, `l2` being the configuration before it. */
  ghost predicate CallDone(h: Site, config: ConfigQemu, next: ConfigQemu, l: Layout, l2: Layout, l3: Layout) {
    var desired := DesiredDisks(config);
    && Nearly(h, desired, CurrentDisks(next), CurrentLinkedVm(next), l2, l3)
    && (forall k | k in desired && !MayMiss(h, desired, l, k) ::
         !Missable(h, desired[k], Get(CurrentDisks(next), k), At(l2, k), CurrentLinkedVm(next)))
    && (forall k | k in desired && Stays(desired, l, k) ::
         Kept(Some(desired[k]), Get(CurrentDisks(next), k)) && SameVolume(At(l, k), At(l2, k)))
    && OthersKept(desired, l, l3) && TpmAsWanted(config.tpm, l, l3)
    && PartsAsAsked(config, next.memory.Some?, h.version8, Texts(l), Texts(l3))
  }

  /** A disk is wanted where none is, or one that would have to shrink. */
  predicate IsNew(s: Storage, slot: Option<Slot>) {
    s.disk.Some? && !(slot.Some? && slot.value.DiskSlot? && slot.value.sizeKiB <= s.disk.value.sizeKiB)
  }

  /** What a caller knows before the run about the configuration call that is made in it, if it can
      succeed: it creates a disk exactly where one is new, it can miss a mentioned slot exactly when the
      caller can tell so, and give the guest a second cloud-init disk exactly when that is possible, given
      whether the guest runs at the call. */
  ghost predicate CallForeseen(h: Site, config: ConfigQemu, current: Option<ConfigQemu>, s: VmState, call: Event)
    requires current.Some? && current.value.tpm.Some? ==> current.value.tpm.value.version.Some?
  {
    var desired := DesiredDisks(config);
    && call.call.Configure? && (call.before.running ==> s.running)
    && (CanSucceed(h, call) ==>
         && (forall k | k in desired ::
              CanMiss(h, call, k, desired[k], SizeForNow(h, desired[k], Get(View(s.staged), k))) <==>
              MayMiss(h, desired, s.staged, k))
         && (forall k | k in desired :: CreatesAt(call, k) <==> IsNew(desired[k], At(s.staged, k)))
         && (OneEach(s) ==>
              (CanGiveSecond(h, call) <==> SecondInCall(desired, Recreates(config, current), s, call.before.running))))
  }

  /** The two configuration calls of a run: the one that deletes, and the one that configures. */
  datatype Calls = Calls(deletion: Option<Event>, update: Option<Event>)

  ghost predicate Foreseen(h: Site, config: ConfigQemu, current: Option<ConfigQemu>, s: VmState, calls: Calls)
    requires current.Some? && current.value.tpm.Some? ==> current.value.tpm.value.version.Some?
  {
    && (forall e :: calls.deletion == Some(e) ==> DeletionForeseen(h, config, current, s, e))
    && (forall e :: calls.update == Some(e) ==> CallForeseen(h, config, current, s, e))
  }

  /** The calls were made in the run. */
  ghost predicate MadeIn(before: seq<Event>, after: seq<Event>, calls: Calls) {
    && |before| <= |after|
    && (calls.deletion.Some? ==> calls.deletion.value in after[|before|..])
    && (calls.update.Some? ==> calls.update.value in after[|before|..])
  }

  lemma StillMade(a: seq<Event>, b: seq<Event>, c: seq<Event>, calls: Calls)
    requires MadeIn(a, b, calls) && |b| <= |c| && c[..|b|] == b
    ensures MadeIn(a, c, calls)
  {
    assert b[|a|..] == c[|a|..][..|b| - |a|];
  }

  lemma BothMade(a: seq<Event>, b: seq<Event>, deletion: Option<Event>, made: Event)
    requires MadeIn(a, b, Calls(deletion, None))
    ensures MadeIn(a, b + [made], Calls(deletion, Some(made)))
  {
    StillMade(a, b, b + [made], Calls(deletion, None));
    assert (b + [made])[|a|..] == b[|a|..] + [made];
  }

  lemma CallFollows(a: seq<Event>, b: seq<Event>, c: seq<Event>, p: Policy, deletion: Option<Event>, made: Event)
    requires Steps(a, b, p) && Fine(a, b) && Steps(b, c, p) && c == b + [made]
    requires MadeIn(a, b, Calls(deletion, None))
    ensures Steps(a, c, p) && (Fine(a, c) <==> Fine(b, c)) && MadeIn(a, c, Calls(deletion, Some(made)))
  {
    MoreSteps(a, b, c, p);
    BothMade(a, b, deletion, made);
  }

  /** The update up to and including the configuration call. */
  method UpdateConfig(g: Guest, config: ConfigQemu, current: ConfigQemu, rebootIfNeeded: bool,
                      ghost p: Policy)
    returns (next: ConfigQemu, stopped: bool, unable: bool, ok: bool, ghost l2: Layout, ghost calls: Calls)
    requires g.Valid() && IsCurrent(current, g.site, g.s.staged) && PartsAreCurrent(current, g.s.staged)
    requires p == PolicyOf(config, Some(current), g.s, rebootIfNeeded)
    requires AllConverted(DesiredDisks(config)) && ConfigValid(config, Some(current)) && config.vmID == g.site.vmId
    modifies g
    ensures g.Valid() && Steps(old(g.trace), g.trace, p) && Holds(g.s, p)
    ensures (ok || unable) <==> Fine(old(g.trace), g.trace)
    ensures unable ==> !ok && !rebootIfNeeded && Pending(g.s) && calls.deletion.Some? && calls.update.None?
    ensures ok ==> next.memory.Some? && calls.update.Some?
    ensures ok ==> CallDone(g.site, config, next, old(g.s.staged), l2, g.s.staged)
    ensures ok ==> (if stopped then old(g.s).running && !g.s.running && rebootIfNeeded
                    else g.s.running == old(g.s).running)
    ensures MadeIn(old(g.trace), g.trace, calls) && Foreseen(g.site, config, Some(current), old(g.s), calls)
  {
    ghost var trace, s := g.trace, g.s;
    ghost var l1, gone, deletion, made;
    var moved, recreate;
    next, moved, recreate, stopped, unable, ok, l1, gone, deletion :=
      PrepareCall(g, config, current, rebootIfNeeded, p);
    l2, calls := g.s.staged, Calls(deletion, None);
    if ok {
      ghost var trace1 := g.trace;
      CallMayBeMade(g.site, config, current, s, l1, g.s, gone, moved, recreate, next, p);
      ok, made := MakeCall(g, config, current, next, s, l1, gone, moved, recreate, p);
      CallFollows(trace, trace1, g.trace, p, deletion, made);
      calls := Calls(deletion, Some(made));
    }
  }

  /** The configuration call, and what it does given what was done before it. */
  method MakeCall(g: Guest, config: ConfigQemu, ghost current: ConfigQemu, next: ConfigQemu,
                  ghost s: VmState, ghost l1: Layout, ghost gone: set<Key>, ghost moved: bool, ghost recreate: bool,
                  ghost p: Policy)
    returns (ok: bool, ghost made: Event)
    requires g.Valid() && Holds(g.s, p) && Sound(g.site, s) && IsCurrent(current, g.site, s.staged)
    requires AllConverted(DesiredDisks(config)) && ConfigValid(config, Some(current)) && config.vmID == g.site.vmId
    requires Ready(DesiredDisks(config), CurrentDisks(next), g.s.staged) && Mappable(config, next)
    requires p.desired == DesiredDisks(config) && (p.one && !p.second ==> !TwoHolders(DesiredDisks(config), g.s))
    requires OneEach(s) ==> (TwoHolders(DesiredDisks(config), g.s) <==>
                             SecondInCall(DesiredDisks(config), recreate, s, g.s.running))
    requires Between(g.site, config, current, s.staged, l1, gone, moved, recreate) && g.s.staged == Without(l1, gone)
    requires IsNext(g.site, current, g.s.staged, moved, recreate, next) && (g.s.running ==> s.running)
    requires PartsAreCurrent(next, g.s.staged)
    modifies g
    ensures g.Valid() && Steps(old(g.trace), g.trace, p) && Holds(g.s, p) && g.s.running == old(g.s.running)
    ensures ok <==> Fine(old(g.trace), g.trace)
    ensures g.trace == old(g.trace) + [made] && CallForeseen(g.site, config, Some(current), s, made)
    ensures ok ==> CallDone(g.site, config, next, s.staged, old(g.s.staged), g.s.staged)
  {
    ok, made := PutConfig(g, config, next, g.trace, p);
    CallIsAsForeseen(g.site, config, current, s, l1, gone, moved, recreate, next, made);
  }

  /** The call is foreseen and, when it succeeds, does what was foreseen. */
  lemma CallIsAsForeseen(h: Site, config: ConfigQemu, current: ConfigQemu, s: VmState, l1: Layout,
                         gone: set<Key>, moved: bool, recreate: bool, next: ConfigQemu, made: Event)
    requires ValidSite(h) && Sound(h, s) && Sound(h, made.before)
    requires AllConverted(DesiredDisks(config)) && ConfigValid(config, Some(current))
    requires IsCurrent(current, h, s.staged) && IsNext(h, current, made.before.staged, moved, recreate, next)
    requires Between(h, config, current, s.staged, l1, gone, moved, recreate)
    requires made.before.staged == Without(l1, gone) && (made.before.running ==> s.running)
    requires ExactCall(h, DesiredDisks(config), CurrentDisks(next), CurrentLinkedVm(next), made)
    requires OneEach(s) ==> (TwoHolders(DesiredDisks(config), made.before) <==>
                             SecondInCall(DesiredDisks(config), recreate, s, made.before.running))
    requires made.ok ==> CallPlanned(h, config, next, made.before.staged, made.after.staged)
    ensures CallForeseen(h, config, Some(current), s, made)
    ensures made.ok ==> CallDone(h, config, next, s.staged, made.before.staged, made.after.staged)
  {
    var l2 := made.before.staged;
    CallIsForeseen(h, config, current, s, l1, l2, gone, moved, recreate, next, made);
    if made.ok {
      CallIsDone(h, config, current, s.staged, l1, l2, gone, moved, recreate, next, made.after.staged);
    }
  }

  /** What the call does, slot by slot, to the TPM state and to every other parameter. */
  ghost predicate CallPlanned(h: Site, config: ConfigQemu, next: ConfigQemu, l2: Layout, l3: Layout) {
    && PartsAsAsked(config, next.memory.Some?, h.version8, Texts(l2), Texts(l3))
    && Nearly(h, DesiredDisks(config), CurrentDisks(next), CurrentLinkedVm(next), l2, l3)
    && (forall k: Key | k.Drive? && k !in DesiredDisks(config) :: At(l3, k) == At(l2, k))
    && TpmConfigured(config, next, l2, l3)
  }

  /** The changes before the call, and the configuration it is made from. */
  method PrepareCall(g: Guest, config: ConfigQemu, current: ConfigQemu, rebootIfNeeded: bool, ghost p: Policy)
    returns (next: ConfigQemu, moved: bool, recreate: bool, stopped: bool, unable: bool, ok: bool,
             ghost l1: Layout, ghost gone: set<Key>, ghost deletion: Option<Event>)
    requires g.Valid() && IsCurrent(current, g.site, g.s.staged)
    requires p == PolicyOf(config, Some(current), g.s, rebootIfNeeded)
    requires OnlySlots(DesiredDisks(config)) && AtMostOneCloudInit(DesiredDisks(config))
    requires SoundLayout(g.site, g.s.staged) && PartsAreCurrent(current, g.s.staged)
    modifies g
    ensures g.Valid() && Steps(old(g.trace), g.trace, p) && Holds(g.s, p)
    ensures (ok || unable) <==> Fine(old(g.trace), g.trace)
    ensures unable ==> !ok && !rebootIfNeeded && Pending(g.s) && deletion.Some?
    ensures ok ==> g.s.staged == Without(l1, gone)
    ensures ok ==> Between(g.site, config, current, old(g.s.staged), l1, gone, moved, recreate)
    ensures ok ==> PartsAreCurrent(next, g.s.staged)
    ensures ok ==> IsNext(g.site, current, g.s.staged, moved, recreate, next)
    ensures ok ==> if gone == {} then CloudInitKept(old(g.s), g.s) else !Pending(g.s)
    ensures ok ==> (if stopped then old(g.s).running && !g.s.running && rebootIfNeeded
                    else g.s.running == old(g.s).running)
    ensures MadeIn(old(g.trace), g.trace, Calls(deletion, None))
    ensures deletion.Some? ==> DeletionForeseen(g.site, config, Some(current), old(g.s), deletion.value)
  {
    ghost var trace, l := g.trace, g.s.staged;
    next := current;
    moved, recreate, stopped, unable, ok, l1, gone, deletion := ChangeAndDelete(g, config, current, rebootIfNeeded, p);
    if !ok {
      return;
    }
    ghost var trace1 := g.trace;
    TextsBetween(g.site, config, current, l, l1, g.s.staged, gone, moved, recreate);
    next, ok := NextConfig(g, current, moved, recreate, trace1, p);
    MoreSteps(trace, trace1, g.trace, p);
    StillMade(trace, trace1, g.trace, Calls(deletion, None));
  }

  /** What the configuration call relies on. */
  lemma CallMayBeMade(h: Site, config: ConfigQemu, current: ConfigQemu, s0: VmState, l1: Layout, s: VmState,
                      gone: set<Key>, moved: bool, recreate: bool, next: ConfigQemu, p: Policy)
    requires ValidSite(h) && Sound(h, s0) && Sound(h, s) && AllConverted(DesiredDisks(config))
    requires ConfigValid(config, Some(current)) && IsCurrent(current, h, s0.staged)
    requires Between(h, config, current, s0.staged, l1, gone, moved, recreate) && s.staged == Without(l1, gone)
    requires IsNext(h, current, s.staged, moved, recreate, next)
    requires if gone == {} then CloudInitKept(s0, s) else !Pending(s)
    requires p == PolicyOf(config, Some(current), s0, p.restart) && (s.running ==> s0.running)
    ensures Ready(DesiredDisks(config), CurrentDisks(next), s.staged) && Mappable(config, next)
    ensures p.one ==> (TwoHolders(DesiredDisks(config), s) <==>
                       SecondInCall(DesiredDisks(config), recreate, s0, s.running))
    ensures p.one && !p.second ==> !TwoHolders(DesiredDisks(config), s)
  {
    ReadyForCall(h, config, current, s0.staged, l1, s.staged, gone, moved, recreate, next);
    MappableForCall(h, config, current, s0.staged, l1, s.staged, gone, moved, recreate, next);
    if p.one {
      SecondIsForeseen(h, config, current, s0, l1, s, gone, moved, recreate);
      if TwoHolders(DesiredDisks(config), s) {
        SecondWhenRunning(DesiredDisks(config), recreate, s0, s.running);
      }
    }
  }

  lemma CallIsForeseen(h: Site, config: ConfigQemu, current: ConfigQemu, s: VmState, l1: Layout, l2: Layout,
                       gone: set<Key>, moved: bool, recreate: bool, next: ConfigQemu, call: Event)
    requires ValidSite(h) && Sound(h, s) && SoundLayout(h, l2)
    requires AllConverted(DesiredDisks(config)) && OnlySlots(DesiredDisks(config))
    requires IsCurrent(current, h, s.staged) && l2 == Without(l1, gone) && IsNext(h, current, l2, moved, recreate, next)
    requires Between(h, config, current, s.staged, l1, gone, moved, recreate)
    requires ExactCall(h, DesiredDisks(config), CurrentDisks(next), CurrentLinkedVm(next), call)
    requires call.before.staged == l2 && (call.before.running ==> s.running)
    requires OneEach(s) ==> (TwoHolders(DesiredDisks(config), call.before) <==>
                             SecondInCall(DesiredDisks(config), recreate, s, call.before.running))
    ensures CallForeseen(h, config, Some(current), s, call)
  {
    var desired := DesiredDisks(config);
    forall k | k in desired
      ensures SizeForNow(h, desired[k], Get(View(s.staged), k)) == SizeForNow(h, desired[k], Get(CurrentDisks(next), k))
      ensures Missable(h, desired[k], Get(CurrentDisks(next), k), At(l2, k), CurrentLinkedVm(next)) <==>
              MayMiss(h, desired, s.staged, k)
      ensures Created(Some(desired[k]), Get(CurrentDisks(next), k)) <==> IsNew(desired[k], At(s.staged, k))
    {
      MissIsForeseen(h, config, current, s.staged, l1, l2, gone, moved, recreate, next, k);
      StaysExactly(h, desired, s.staged, k);
      assert IsSlot(k);
    }
  }

  lemma WithoutTpm(current: ConfigQemu, l: Layout)
    requires PartsAreFrom(current, l)
    ensures PartsAreFrom(current.(tpm := None), l)
  {
    PartsRead(current, l);
  }

  lemma EmptyIsRead(l: Layout)
    requires l == map[]
    ensures PartsAreFrom(NOTHING, l)
  {
  }

  method NextConfig(g: Guest, current: ConfigQemu, moved: bool, recreate: bool, ghost trace: seq<Event>,
                    ghost p: Policy)
    returns (next: ConfigQemu, ok: bool)
    requires g.Valid() && Holds(g.s, p) && Steps(trace, g.trace, p) && Fine(trace, g.trace)
    requires PartsAreCurrent(current, g.s.staged)
    modifies g
    ensures g.Valid() && Steps(trace, g.trace, p) && g.s == old(g.s)
    ensures ok <==> Fine(trace, g.trace)
    ensures ok ==> PartsAreCurrent(next, g.s.staged)
    ensures ok ==> IsNext(g.site, current, g.s.staged, moved, recreate, next)
  {
    WithoutTpm(current, g.s.staged);
    next, ok := if recreate then current.(tpm := None) else current, true;
    if moved {
      ghost var before := g.trace;
      next, ok := ReadConfig(g, p);
      MoreSteps(trace, before, g.trace, p);
    }
  }

  lemma CallIsDone(h: Site, config: ConfigQemu, current: ConfigQemu, l: Layout, l1: Layout, l2: Layout,
                   gone: set<Key>, moved: bool, recreate: bool, next: ConfigQemu, l3: Layout)
    requires ValidSite(h) && SoundLayout(h, l) && SoundLayout(h, l2) && OnlySlots(DesiredDisks(config)) &&
             AllConverted(DesiredDisks(config))
    requires ConfigValid(config, Some(current)) && IsCurrent(current, h, l)
    requires Between(h, config, current, l, l1, gone, moved, recreate) && l2 == Without(l1, gone)
    requires IsNext(h, current, l2, moved, recreate, next)
    requires CallPlanned(h, config, next, l2, l3)
    ensures CallDone(h, config, next, l, l2, l3)
  {
    TextsBetween(h, config, current, l, l1, l2, gone, moved, recreate);
    TpmIsAsWanted(h, config, current, l, l1, l2, gone, moved, recreate, next, l3);
    OthersAreKept(h, config, current, l, l1, gone, moved, recreate, l3);
    forall k | k in DesiredDisks(config) && !MayMiss(h, DesiredDisks(config), l, k)
      ensures !Missable(h, DesiredDisks(config)[k], Get(CurrentDisks(next), k), At(l2, k), CurrentLinkedVm(next))
    {
      MissIsForeseen(h, config, current, l, l1, l2, gone, moved, recreate, next, k);
    }
    forall k | k in DesiredDisks(config) && Stays(DesiredDisks(config), l, k)
      ensures Kept(Some(DesiredDisks(config)[k]), Get(CurrentDisks(next), k)) && SameVolume(At(l, k), At(l2, k))
    {
      MissIsForeseen(h, config, current, l, l1, l2, gone, moved, recreate, next, k);
      StaysExactly(h, DesiredDisks(config), l, k);
      KeptAtCall(h, DesiredDisks(config), l, l1, l2, gone, k);
      KeptIsDisk(h, DesiredDisks(config), l, k);
    }
  }

  // ---------------------------------------------------------------- after the configuration call

  /** The slots, with kept disks on their volumes unless they were moved, the drives that were not
      mentioned, the TPM state, and every other parameter, at the end. */
  ghost predicate Converged(h: Site, config: ConfigQemu, exists_: bool, l: Layout, l': Layout) {
    && (forall k | k in DesiredDisks(config) && !MayMiss(h, DesiredDisks(config), l, k) ::
         && HoldsAs(DesiredDisks(config)[k], At(l', k))
         && (Stays(DesiredDisks(config), l, k) ==> SameVolume(At(l, k), At(l', k))))
    && OthersKept(DesiredDisks(config), l, l') && TpmAsWanted(config.tpm, l, l')
    && PartsAsAsked(config, exists_, h.version8, Texts(l), Texts(l'))
  }
  /** `resizeNewDisks`. */
  method ResizeNewDisks(g: Guest, config: ConfigQemu, next: ConfigQemu, ghost l: Layout, ghost l2: Layout,
                        ghost p: Policy)
    returns (ok: bool)
    requires g.Valid() && Holds(g.s, p) && CallDone(g.site, config, next, l, l2, g.s.staged)
    requires AllConverted(DesiredDisks(config)) && DiskPlan.Valid(DesiredDisks(config))
    requires p.desired == DesiredDisks(config)
    modifies g
    ensures g.Valid() && Steps(old(g.trace), g.trace, p) && Holds(g.s, p)
    ensures ok <==> Fine(old(g.trace), g.trace)
    ensures g.s.running == old(g.s.running) && (Pending(g.s) <==> Pending(old(g.s)))
    ensures ok ==> Converged(g.site, config, next.memory.Some?, l, g.s.staged)
  {
    ghost var h, l3, desired := g.site, g.s.staged, DesiredDisks(config);
    if config.disks.None? {
      return true;
    }
    var resizes;
    ghost var order;
    resizes, order := SelectInitialResize(config.disks.value, CurrentDisks(next));
    InitialResizesGrow(h, desired, CurrentDisks(next), CurrentLinkedVm(next), l2, l3, order);
    NewAreMentioned(desired, CurrentDisks(next), order);
    ok := ResizeDisks(g, resizes, p);
    if ok {
      InitialResizesFinish(h, desired, CurrentDisks(next), CurrentLinkedVm(next), l2, l3, g.s.staged, order);
      Finished(h, config, next, l, l2, l3, g.s.staged);
    }
  }

  lemma NewAreMentioned(desired: Storages, current: Storages, order: seq<Key>)
    requires Enumerates(order, desired.Keys)
    ensures forall r | r in InitialResizes(desired, current, order) :: r.id in desired
  {
    DiskLaws.InitialResizesMember(desired, current, order);
  }

  lemma Finished(h: Site, config: ConfigQemu, next: ConfigQemu, l: Layout, l2: Layout, l3: Layout, l4: Layout)
    requires SoundLayout(h, l3) && SoundLayout(h, l4)
    requires CallDone(h, config, next, l, l2, l3) && OnlySlots(DesiredDisks(config))
    requires forall k | k in DesiredDisks(config) &&
                        !Missable(h, DesiredDisks(config)[k], Get(CurrentDisks(next), k), At(l2, k),
                                 CurrentLinkedVm(next)) ::
               && HoldsAs(DesiredDisks(config)[k], At(l4, k))
               && (Kept(Some(DesiredDisks(config)[k]), Get(CurrentDisks(next), k)) ==>
                    SameVolume(At(l2, k), At(l4, k)))
    requires forall k: Key | k !in DesiredDisks(config) :: At(l4, k) == At(l3, k)
    ensures Converged(h, config, next.memory.Some?, l, l4)
  {
    var desired := DesiredDisks(config);
    assert Key.TpmState !in desired by {
      assert !IsSlot(Key.TpmState);
    }
    assert At(l4, Key.TpmState) == At(l3, Key.TpmState);
    forall k: Key | k.Plain? || k.IpConfig? || k.Serial?
      ensures At(l4, k) == At(l3, k)
    {
      assert !IsSlot(k);
    }
    SameTexts(h, l3, l4);
    SameOthers(desired, l, l3, l4);
  }

  lemma SameTexts(h: Site, l: Layout, l': Layout)
    requires SoundLayout(h, l) && SoundLayout(h, l')
    requires forall k: Key | k.Plain? || k.IpConfig? || k.Serial? :: At(l', k) == At(l, k)
    ensures Texts(l') == Texts(l)
  {
    forall k
      ensures k in Texts(l) <==> k in Texts(l')
      ensures k in Texts(l) ==> Texts(l)[k] == Texts(l')[k]
    {
      assert k in l ==> SoundSlot(h, k, l[k]);
      assert k in l' ==> SoundSlot(h, k, l'[k]);
      assert At(l', k) == At(l, k) || k.Drive? || k.TpmState?;
    }
  }

  /** The texts are the same from the start to the configuration call. */
  lemma TextsBetween(h: Site, config: ConfigQemu, current: ConfigQemu, l: Layout, l1: Layout, l2: Layout,
                     gone: set<Key>, moved: bool, recreate: bool)
    requires SoundLayout(h, l) && SoundLayout(h, l2) && l2 == Without(l1, gone)
    requires Between(h, config, current, l, l1, gone, moved, recreate)
    ensures Texts(l2) == Texts(l)
  {
    forall k: Key | k.Plain? || k.IpConfig? || k.Serial?
      ensures At(l2, k) == At(l, k)
    {
      assert k !in gone;
    }
    SameTexts(h, l, l2);
  }

  lemma SameOthers(desired: Storages, l: Layout, l3: Layout, l4: Layout)
    requires OthersKept(desired, l, l3)
    requires forall k: Key | k !in desired :: At(l4, k) == At(l3, k)
    ensures OthersKept(desired, l, l4)
  {
    forall k: Key | k.Drive? && k !in desired
      ensures At(l4, k) == At(l3, k)
    {
    }
  }

  /** Brings the guest back to the power state it had, so that the changes take effect. */
  method RestorePower(g: Guest, stopped: bool, pending: bool, rebootIfNeeded: bool, ghost p: Policy)
    returns (rebootRequired: bool, done: bool, ok: bool)
    requires g.Valid() && Holds(g.s, p) && p.restart == rebootIfNeeded
    requires (stopped ==> !g.s.running && rebootIfNeeded) && (!stopped ==> (pending <==> Pending(g.s)))
    modifies g
    ensures g.Valid() && Steps(old(g.trace), g.trace, p) && Holds(g.s, p)
    ensures ok <==> Fine(old(g.trace), g.trace)
    ensures g.s.staged == old(g.s.staged)
    ensures ok ==> (rebootRequired <==> Pending(g.s)) && g.s.running == (stopped || old(g.s).running)
    ensures ok ==> (done <==> !rebootRequired) && (rebootRequired ==> !rebootIfNeeded)
  {
    ghost var s, trace := g.s, g.trace;
    rebootRequired, done, ok := pending && !stopped, true, true;
    if stopped {
      ok := g.Start();
      Record(g.site, trace, trace, Event(Call.Start, s, g.s, ok), p);
    } else if pending {
      if !rebootIfNeeded {
        return true, false, true;
      }
      ok := g.Reboot();
      rebootRequired := !ok;
      Record(g.site, trace, trace, Event(Call.Reboot, s, g.s, ok), p);
    }
  }

  // ---------------------------------------------------------------- the whole run

  /** Checks the configuration; `rest` is what the validators say that are not followed. */
  method ValidateConfig(config: ConfigQemu, current: Option<ConfigQemu>, rest: bool) returns (ok: bool)
    requires Shaped(DesiredDisks(config))
    ensures ok <==> Accepted(config, current, rest)
  {
    if config.memory.Some? {
      ok := MemoryConfig.Validate(config.memory.value, if current.Some? then current.value.memory else None);
      if !ok {
        return;
      }
    }
    if config.tpm.Some? && !TpmConfig.Valid(config.tpm.value, if current.Some? then current.value.tpm else None) {
      return false;
    }
    if config.disks.Some? {
      ok := DiskPlan.Validate(config.disks.value);
      if !ok {
        return;
      }
    }
    ok := PartsValid(config) && rest;
  }

  method UpdateGuest(g: Guest, config: ConfigQemu, current: ConfigQemu, rebootIfNeeded: bool,
                     ghost p: Policy)
    returns (rebootRequired: bool, done: bool, unable: bool, ok: bool, ghost calls: Calls)
    requires g.Valid() && IsCurrent(current, g.site, g.s.staged) && PartsAreCurrent(current, g.s.staged)
    requires p == PolicyOf(config, Some(current), g.s, rebootIfNeeded)
    requires AllConverted(DesiredDisks(config)) && ConfigValid(config, Some(current)) && config.vmID == g.site.vmId
    modifies g
    ensures g.Valid() && Steps(old(g.trace), g.trace, p) && Holds(g.s, p)
    ensures (ok || unable) <==> Fine(old(g.trace), g.trace)
    ensures unable ==> !ok && !rebootIfNeeded && Pending(g.s) && rebootRequired
    ensures unable ==> calls.deletion.Some? && calls.update.None?
    ensures ok ==> calls.update.Some? && Converged(g.site, config, true, old(g.s.staged), g.s.staged)
    ensures ok ==> g.s.running == old(g.s.running) && (rebootRequired <==> Pending(g.s))
    ensures ok ==> (done <==> !rebootRequired) && (rebootRequired ==> !rebootIfNeeded)
    ensures MadeIn(old(g.trace), g.trace, calls) && Foreseen(g.site, config, Some(current), old(g.s), calls)
  {
    ghost var trace, l := g.trace, g.s.staged;
    rebootRequired, done := false, false;
    var next, stopped;
    ghost var l2;
    next, stopped, unable, ok, l2, calls := UpdateConfig(g, config, current, rebootIfNeeded, p);
    rebootRequired := unable;
    if ok {
      ghost var trace1 := g.trace;
      rebootRequired, done, ok := FinishUpdate(g, config, next, stopped, rebootIfNeeded, l, l2, p);
      MoreSteps(trace, trace1, g.trace, p);
      StillMade(trace, trace1, g.trace, calls);
    }
  }

  /** What follows the configuration call of an update. */
  method FinishUpdate(g: Guest, config: ConfigQemu, next: ConfigQemu, stopped: bool, rebootIfNeeded: bool,
                      ghost l: Layout, ghost l2: Layout, ghost p: Policy)
    returns (rebootRequired: bool, done: bool, ok: bool)
    requires g.Valid() && Holds(g.s, p) && CallDone(g.site, config, next, l, l2, g.s.staged) &&
             p.restart == rebootIfNeeded
    requires AllConverted(DesiredDisks(config)) && DiskPlan.Valid(DesiredDisks(config))
    requires (stopped ==> !g.s.running && rebootIfNeeded) && p.desired == DesiredDisks(config)
    modifies g
    ensures g.Valid() && Steps(old(g.trace), g.trace, p) && Holds(g.s, p)
    ensures ok <==> Fine(old(g.trace), g.trace)
    ensures ok ==> Converged(g.site, config, next.memory.Some?, l, g.s.staged)
    ensures ok ==> g.s.running == (stopped || old(g.s.running)) && (rebootRequired <==> Pending(g.s))
    ensures ok ==> (done <==> !rebootRequired) && (rebootRequired ==> !rebootIfNeeded)
  {
    ghost var trace := g.trace;
    rebootRequired, done := false, false;
    var pending := false;
    if !stopped { // only check if a reboot is required if the guest is not already stopped
      pending, ok := CheckPending(g, trace, p);
      rebootRequired := pending;
      if !ok {
        return;
      }
    }
    ghost var trace1 := g.trace;
    ok := ResizeNewDisks(g, config, next, l, l2, p);
    MoreSteps(trace, trace1, g.trace, p);
    if !ok {
      return;
    }
    ghost var trace2 := g.trace;
    rebootRequired, done, ok := RestorePower(g, stopped, pending, rebootIfNeeded, p);
    MoreSteps(trace, trace2, g.trace, p);
  }

  method CheckPending(g: Guest, ghost trace: seq<Event>, ghost p: Policy) returns (pending: bool, ok: bool)
    requires g.Valid() && Holds(g.s, p) && Steps(trace, g.trace, p) && Fine(trace, g.trace)
    modifies g
    ensures g.Valid() && Steps(trace, g.trace, p) && g.s == old(g.s)
    ensures ok <==> Fine(trace, g.trace)
    ensures ok ==> (pending <==> Pending(g.s))
  {
    ghost var before := g.trace;
    pending, ok := g.HasPendingChanges();
    Record(g.site, trace, before, Event(ListPending, g.s, g.s, ok), p);
  }

  method CreateGuest(g: Guest, config: ConfigQemu, ghost p: Policy)
      returns (ok: bool, ghost calls: Calls)
    requires g.Valid() && g.s == VmState(map[], map[], false) && p == PolicyOf(config, None, g.s, p.restart)
    requires AllConverted(DesiredDisks(config)) && ConfigValid(config, None) && config.vmID == g.site.vmId
    modifies g
    ensures g.Valid() && Steps(old(g.trace), g.trace, p) && Holds(g.s, p)
    ensures ok <==> Fine(old(g.trace), g.trace)
    ensures ok ==> calls.update.Some? && Converged(g.site, config, false, map[], g.s.staged)
    ensures ok ==> !g.s.running && !Pending(g.s)
    ensures MadeIn(old(g.trace), g.trace, calls) && Foreseen(g.site, config, None, old(g.s), calls)
  {
    ghost var trace, s := g.trace, g.s;
    NothingTouched(s, p);
    EmptyIsRead(g.s.staged);
    SecondInNew(DesiredDisks(config), s);
    ghost var made;
    ok, made := PutConfig(g, config, NOTHING, trace, p);
    calls := Calls(None, Some(made));
    assert g.trace[|g.trace| - 1] == made;
    NewIsForeseen(g.site, config, s, made);
    if !ok {
      return;
    }
    NewIsDone(g.site, config, g.s.staged);
    ghost var trace1 := g.trace;
    ok := ResizeNewDisks(g, config, NOTHING, map[], map[], p);
    MoreSteps(trace, trace1, g.trace, p);
    StillMade(trace, trace1, g.trace, calls);
  }

  lemma SecondInNew(desired: Storages, s: VmState)
    requires s == VmState(map[], map[], false)
    ensures TwoHolders(desired, s) <==> SecondInCall(desired, false, s, false)
    ensures TwoHolders(desired, s) <==> SecondPossible(desired, false, s)
  {
    assert forall k :: HolderAt(desired, s, k) <==> Holder(desired, false, s, false, k);
  }

  lemma NewIsForeseen(h: Site, config: ConfigQemu, s: VmState, call: Event)
    requires s == VmState(map[], map[], false)
    requires ExactCall(h, DesiredDisks(config), map[], 0, call) && call.before == s
    ensures CallForeseen(h, config, None, s, call)
  {
    assert View(s.staged) == map[];
    SecondInNew(DesiredDisks(config), s);
    forall k | k in DesiredDisks(config)
      ensures Missable(h, DesiredDisks(config)[k], None, None, 0) <==> MayMiss(h, DesiredDisks(config), s.staged, k)
    {
    }
  }

  lemma NewIsDone(h: Site, config: ConfigQemu, l3: Layout)
    requires ConfigValid(config, None)
    requires CallPlanned(h, config, NOTHING, map[], l3)
    ensures CallDone(h, config, NOTHING, map[], map[], l3)
  {
    TpmConfig.VersionTexts();
  }

  /** `ConfigQemu.setAdvanced`. In every run, whatever calls fail:
      the power state is only changed when the caller allows it, and the guest only shut down or
      rebooted for pending changes; every resize that is asked for grows the disk; a drive that is not
      mentioned changes only when it is a displaced cloud-init disk; and there is never more than one
      cloud-init disk in effect if the run started with at most one in each configuration, unless a second
      one is possible from the start.
      In a run without error: the guest runs if and only if it did before, a reboot is reported if
      and only if changes are pending, the HA state is updated last unless a reboot is left to do,
      and the configuration is the one that was asked for, slot by slot unless the slot can be missed
      from the start.
      Both exceptions are exact: the configuration call, if it can succeed, can miss every slot that
      can be missed, and the two calls can give the guest a second cloud-init disk whenever that is
      possible. */
  method SetAdvanced(g: Guest, newConfig: ConfigQemu, current: Option<ConfigQemu>, rebootIfNeeded: bool,
                     rest: bool)
    returns (rebootRequired: bool, ok: bool, ghost calls: Calls)
    requires g.Valid() && Shaped(DesiredDisks(newConfig))
    requires current.Some? ==>
               IsCurrent(current.value, g.site, g.s.staged) && PartsAreCurrent(current.value, g.s.staged)
    requires current.None? ==> g.s == VmState(map[], map[], false)
    modifies g
    ensures g.Valid()
    ensures Steps(old(g.trace), g.trace, PolicyOf(newConfig, current, old(g.s), rebootIfNeeded))
    ensures ok ==> Fine(old(g.trace), g.trace) && Accepted(newConfig, current, rest)
    ensures !ok ==>
              || !Fine(old(g.trace), g.trace) || !Accepted(newConfig, current, rest)
              || (rebootRequired && !rebootIfNeeded && Pending(g.s) && calls.deletion.Some? && calls.update.None?)
    ensures OthersUntouched(DesiredDisks(newConfig), old(g.s), g.s)
    ensures ok ==> g.s.running == old(g.s.running)
    ensures ok ==> (rebootRequired <==> Pending(g.s)) && (rebootRequired ==> !rebootIfNeeded)
    ensures ok && !rebootRequired ==> EndsWithHa(g.trace)
    ensures ok ==> calls.update.Some? && Converged(g.site, newConfig, current.Some?, old(g.s.staged), g.s.staged)
    ensures MadeIn(old(g.trace), g.trace, calls) && Foreseen(g.site, newConfig, current, old(g.s), calls)
  {
    ghost var s := g.s;
    ghost var p := PolicyOf(newConfig, current, s, rebootIfNeeded);
    NothingTouched(s, p);
    rebootRequired, ok, calls := Run(g, newConfig, current, rebootIfNeeded, rest, s, p);
    assert p.desired == DesiredDisks(newConfig) && p.start == s;
  }

  /** The validation and, when it accepts the configuration, the rest of the run. */
  method Run(g: Guest, newConfig: ConfigQemu, current: Option<ConfigQemu>, rebootIfNeeded: bool, rest: bool,
             ghost s: VmState, ghost p: Policy)
    returns (rebootRequired: bool, ok: bool, ghost calls: Calls)
    requires g.Valid() && g.s == s && Shaped(DesiredDisks(newConfig)) && Holds(s, p)
    requires current.Some? ==> IsCurrent(current.value, g.site, s.staged) && PartsAreCurrent(current.value, s.staged)
    requires current.None? ==> s == VmState(map[], map[], false)
    requires p == PolicyOf(newConfig, current, s, rebootIfNeeded)
    modifies g
    ensures g.Valid() && Steps(old(g.trace), g.trace, p) && Holds(g.s, p)
    ensures ok ==> Fine(old(g.trace), g.trace) && Accepted(newConfig, current, rest)
    ensures !ok ==>
              || !Fine(old(g.trace), g.trace) || !Accepted(newConfig, current, rest)
              || (rebootRequired && !rebootIfNeeded && Pending(g.s) && calls.deletion.Some? && calls.update.None?)
    ensures ok ==> g.s.running == s.running && (rebootRequired <==> Pending(g.s)) && (rebootRequired ==>
        !rebootIfNeeded)
    ensures ok && !rebootRequired ==> EndsWithHa(g.trace)
    ensures ok ==> calls.update.Some? && Converged(g.site, newConfig, current.Some?, s.staged, g.s.staged)
    ensures MadeIn(old(g.trace), g.trace, calls) && Foreseen(g.site, newConfig, current, s, calls)
  {
    rebootRequired, calls := false, Calls(None, None);
    ghost var trace := g.trace;
    ok := Admit(g, newConfig, current, rest, p);
    NothingForeseen(g.site, newConfig, current, s, trace, g.trace);
    if ok {
      var unable;
      rebootRequired, unable, ok, calls := CarryOut(g, newConfig, current, rebootIfNeeded, trace, s, p);
    }
  }

  lemma NothingForeseen(h: Site, config: ConfigQemu, current: Option<ConfigQemu>, s: VmState, before: seq<Event>,
                        after: seq<Event>)
    requires current.Some? && current.value.tpm.Some? ==> current.value.tpm.value.version.Some?
    requires |before| <= |after|
    ensures Foreseen(h, config, current, s, Calls(None, None)) && MadeIn(before, after, Calls(None, None))
  {
  }

  /** Reads the version and validates the configuration. */
  method Admit(g: Guest, newConfig: ConfigQemu, current: Option<ConfigQemu>, rest: bool, ghost p: Policy)
    returns (ok: bool)
    requires g.Valid() && Holds(g.s, p) && Shaped(DesiredDisks(newConfig))
    modifies g
    ensures g.Valid() && Steps(old(g.trace), g.trace, p) && g.s == old(g.s)
    ensures ok <==> Fine(old(g.trace), g.trace) && Accepted(newConfig, current, rest)
  {
    ok := Ask(g, ReadVersion, g.trace, p);
    if ok {
      ok := ValidateConfig(newConfig, current, rest);
    }
  }

  lemma RunGoesOn(a: seq<Event>, b: seq<Event>, c: seq<Event>, p: Policy, calls: Calls)
    requires Steps(a, b, p) && Fine(a, b) && Steps(b, c, p) && MadeIn(b, c, calls)
    ensures Steps(a, c, p) && MadeIn(a, c, calls) && (Fine(a, c) <==> Fine(b, c))
  {
    MoreSteps(a, b, c, p);
    MadeEarlier(a, b, c, calls);
  }

  /** What follows the validation. */
  method CarryOut(g: Guest, newConfig: ConfigQemu, current: Option<ConfigQemu>, rebootIfNeeded: bool,
                  ghost trace: seq<Event>, ghost s: VmState, ghost p: Policy)
    returns (rebootRequired: bool, unable: bool, ok: bool, ghost calls: Calls)
    requires g.Valid() && g.s == s && Shaped(DesiredDisks(newConfig)) && ConfigValid(newConfig, current)
    requires current.Some? ==> IsCurrent(current.value, g.site, s.staged) && PartsAreCurrent(current.value, s.staged)
    requires current.None? ==> s == VmState(map[], map[], false)
    requires p == PolicyOf(newConfig, current, s, rebootIfNeeded)
    requires Steps(trace, g.trace, p) && Fine(trace, g.trace)
    modifies g
    ensures g.Valid() && Steps(trace, g.trace, p) && Holds(g.s, p)
    ensures (ok || unable) <==> Fine(trace, g.trace)
    ensures unable ==> !ok && !rebootIfNeeded && Pending(g.s) && rebootRequired
    ensures unable ==> calls.deletion.Some? && calls.update.None?
    ensures ok ==> calls.update.Some? && Converged(g.site, newConfig, current.Some?, s.staged, g.s.staged)
    ensures ok ==> g.s.running == s.running && (rebootRequired <==> Pending(g.s)) && (rebootRequired ==>
        !rebootIfNeeded)
    ensures ok && !rebootRequired ==> EndsWithHa(g.trace)
    ensures MadeIn(trace, g.trace, calls) && Foreseen(g.site, newConfig, current, s, calls)
  {
    ghost var before := g.trace;
    var done;
    rebootRequired, done, unable, ok, calls := UpdateOrCreate(g, newConfig, current, rebootIfNeeded, p);
    RunGoesOn(trace, before, g.trace, p, calls);
    if ok && done {
      ok := UpdateHa(g, trace, calls, p);
    }
  }

  /** The last call was the one for the HA state, and it succeeded. */
  ghost predicate EndsWithHa(trace: seq<Event>) {
    exists before, e :: trace == before + [e] && e.call.UpdateHA? && e.ok
  }

  method UpdateHa(g: Guest, ghost trace: seq<Event>, ghost calls: Calls, ghost p: Policy) returns (ok: bool)
    requires g.Valid() && Holds(g.s, p) && Steps(trace, g.trace, p) && Fine(trace, g.trace)
    requires MadeIn(trace, g.trace, calls)
    modifies g
    ensures g.Valid() && Steps(trace, g.trace, p) && MadeIn(trace, g.trace, calls) && g.s == old(g.s)
    ensures ok <==> Fine(trace, g.trace)
    ensures ok ==> EndsWithHa(g.trace)
  {
    ghost var before := g.trace;
    ok := Ask(g, UpdateHA, trace, p);
    assert ok ==> g.trace == before + [g.trace[|g.trace| - 1]];
    StillMade(trace, before, g.trace, calls);
  }

  /** The update or the creation; the HA state is left alone unless `done`. */
  method UpdateOrCreate(g: Guest, newConfig: ConfigQemu, current: Option<ConfigQemu>, rebootIfNeeded: bool,
                        ghost p: Policy)
    returns (rebootRequired: bool, done: bool, unable: bool, ok: bool, ghost calls: Calls)
    requires g.Valid() && Shaped(DesiredDisks(newConfig)) && ConfigValid(newConfig, current)
    requires current.Some? ==>
               IsCurrent(current.value, g.site, g.s.staged) && PartsAreCurrent(current.value, g.s.staged)
    requires current.None? ==> g.s == VmState(map[], map[], false)
    requires p == PolicyOf(newConfig, current, g.s, rebootIfNeeded)
    modifies g
    ensures g.Valid() && Steps(old(g.trace), g.trace, p) && Holds(g.s, p)
    ensures (ok || unable) <==> Fine(old(g.trace), g.trace)
    ensures unable ==> !ok && !rebootIfNeeded && Pending(g.s) && rebootRequired
    ensures unable ==> calls.deletion.Some? && calls.update.None?
    ensures ok ==> calls.update.Some? && Converged(g.site, newConfig, current.Some?, old(g.s.staged), g.s.staged)
    ensures ok ==> g.s.running == old(g.s.running) && (rebootRequired <==> Pending(g.s))
    ensures ok ==> (done <==> !rebootRequired) && (rebootRequired ==> !rebootIfNeeded)
    ensures MadeIn(old(g.trace), g.trace, calls) && Foreseen(g.site, newConfig, current, old(g.s), calls)
  {
    ValidIsConverted(DesiredDisks(newConfig));
    var config := newConfig.(vmID := g.site.vmId);
    ghost var s := g.s;
    ValidButNumber(newConfig, current, s, rebootIfNeeded, g.site.vmId);
    if current.Some? {
      rebootRequired, done, unable, ok, calls := UpdateGuest(g, config, current.value, rebootIfNeeded, p);
    } else {
      ghost var trace := g.trace;
      rebootRequired, done, unable := false, true, false;
      ok, calls := CreateGuest(g, config, p);
      if ok {
        ok := FinishCreation(g, trace, calls, p);
      }
    }
    ForeseenButNumber(g.site, newConfig, current, s, calls);
    if ok {
      SameButNumber(g.site, newConfig, current.Some?, s.staged, g.s.staged);
    }
  }

  /** Nothing that is promised depends on the number the configuration names. */
  lemma SameButNumber(h: Site, newConfig: ConfigQemu, exists_: bool, l: Layout, l': Layout)
    requires Converged(h, newConfig.(vmID := h.vmId), exists_, l, l')
    ensures Converged(h, newConfig, exists_, l, l')
  {
    var config := newConfig.(vmID := h.vmId);
    assert DesiredDisks(config) == DesiredDisks(newConfig);
    PartsButNumber(config, newConfig, exists_, h.version8, Texts(l), Texts(l'));
  }

  lemma PartsButNumber(a: ConfigQemu, b: ConfigQemu, exists_: bool, version8: bool, before: map<Key, string>,
                       after: map<Key, string>)
    requires PartsAsAsked(a, exists_, version8, before, after)
    requires a.cpu == b.cpu && a.memory == b.memory && a.cloudInit == b.cloudInit && a.serials == b.serials
    ensures PartsAsAsked(b, exists_, version8, before, after)
  {
    assert WantedInterfaces(a) == WantedInterfaces(b) && WantedPorts(a) == WantedPorts(b);
  }

  lemma ForeseenButNumber(h: Site, newConfig: ConfigQemu, current: Option<ConfigQemu>, s: VmState, calls: Calls)
    requires current.Some? && current.value.tpm.Some? ==> current.value.tpm.value.version.Some?
    requires Foreseen(h, newConfig.(vmID := h.vmId), current, s, calls)
    ensures Foreseen(h, newConfig, current, s, calls)
  {
    var config := newConfig.(vmID := h.vmId);
    assert DesiredDisks(config) == DesiredDisks(newConfig);
    assert Recreates(config, current) == Recreates(newConfig, current);
  }

  lemma ValidButNumber(newConfig: ConfigQemu, current: Option<ConfigQemu>, s: VmState, restart: bool, vmID: uint)
    requires current.Some? && current.value.tpm.Some? ==> current.value.tpm.value.version.Some?
    requires ConfigValid(newConfig, current)
    ensures ConfigValid(newConfig.(vmID := vmID), current)
    ensures PolicyOf(newConfig.(vmID := vmID), current, s, restart) == PolicyOf(newConfig, current, s, restart)
  {
    var config := newConfig.(vmID := vmID);
    assert DesiredDisks(config) == DesiredDisks(newConfig);
    assert Recreates(config, current) == Recreates(newConfig, current);
  }

  /** Adds a new guest to its pool, if it is to be in one, and reads the permissions on it. */
  method FinishCreation(g: Guest, ghost trace: seq<Event>, ghost calls: Calls, ghost p: Policy) returns (ok: bool)
    requires g.Valid() && Holds(g.s, p) && Steps(trace, g.trace, p) && Fine(trace, g.trace)
    requires MadeIn(trace, g.trace, calls)
    modifies g
    ensures g.Valid() && Steps(trace, g.trace, p) && MadeIn(trace, g.trace, calls) && g.s == old(g.s)
    ensures ok <==> Fine(trace, g.trace)
  {
    ghost var before := g.trace;
    var hasPool := *;
    ok := true;
    if hasPool {
      ok := Ask(g, JoinPool, trace, p);
    }
    if ok {
      ok := Ask(g, ReadPermissions, trace, p);
    }
    StillMade(trace, before, g.trace, calls);
  }

  lemma MadeEarlier(a: seq<Event>, b: seq<Event>, c: seq<Event>, calls: Calls)
    requires |a| <= |b| && MadeIn(b, c, calls)
    ensures MadeIn(a, c, calls)
  {
    assert c[|b|..] == c[|a|..][|b| - |a|..];
  }

  method Ask(g: Guest, call: Call, ghost trace: seq<Event>, ghost p: Policy) returns (ok: bool)
    requires g.Valid() && Holds(g.s, p) && Steps(trace, g.trace, p) && Fine(trace, g.trace) && AsksOnly(call)
    modifies g
    ensures g.Valid() && Steps(trace, g.trace, p) && g.s == old(g.s)
    ensures ok <==> Fine(trace, g.trace)
    ensures |g.trace| == |old(g.trace)| + 1 && g.trace[..|old(g.trace)|] == old(g.trace)
    ensures g.trace[|g.trace| - 1].call == call && g.trace[|g.trace| - 1].ok == ok
  {
    ghost var before := g.trace;
    ok := g.Ask(call);
    Record(g.site, trace, before, Event(call, g.s, g.s, ok), p);
  }
}

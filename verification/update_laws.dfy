/** What every step of a guest update keeps, and what the stages of the update leave behind
    (`ConfigQemu.setAdvanced`, proxmox/config_qemu.go). */
module UpdateLaws {
  import opened Text
  import opened Keys
  import opened DiskPath
  import opened DiskOptions
  import opened ApiParams
  import opened DiskPlan
  import opened DiskParams
  import DiskLaws
  import opened Hypervisor
  import opened Reading

  // ---------------------------------------------------------------- every step

  predicate IsCloudInit(l: Layout, k: Key) { k in l && l[k].CloudInitSlot? }

  ghost predicate Single(l: Layout) { forall a, b | IsCloudInit(l, a) && IsCloudInit(l, b) :: a == b }

  /** At most one slot holds a cloud-init disk in effect, and at most one, maybe another, is staged. */
  ghost predicate OneEach(s: VmState) { Single(s.active) && Single(s.staged) }

  /** The resize asks for more than the slot has at that moment. */
  predicate Grows(s: VmState, k: Key, sizeKiB: nat) {
    k in s.staged && s.staged[k].DiskSlot? && s.staged[k].sizeKiB < sizeKiB
  }

  /** Whether the run may change the power state, whether it started with at most one cloud-init disk in
      each configuration, whether the server can give it a second one, and what it is for. */
  datatype Policy = Policy(restart: bool, one: bool, second: bool, desired: Storages, start: VmState)

  /** A drive that is not mentioned is as it was, staged and in effect, but for changes that were
      pending, and for a cloud-init disk that is displaced. */
  ghost predicate OthersUntouched(desired: Storages, s0: VmState, s: VmState) {
    forall k: Key | k.Drive? && k !in desired ::
      StagedUntouched(desired, s0, s, k) && ActiveUntouched(desired, s0, s, k)
  }

  ghost predicate StagedUntouched(desired: Storages, s0: VmState, s: VmState, k: Key) {
    At(s.staged, k) == At(s0.staged, k) || (Displaced(desired, View(s0.staged), k) && k !in s.staged)
  }

  ghost predicate ActiveUntouched(desired: Storages, s0: VmState, s: VmState, k: Key) {
    || At(s.active, k) == At(s0.active, k) || At(s.active, k) == At(s0.staged, k)
    || (Displaced(desired, View(s0.staged), k) && k !in s.active)
  }

  /** What holds between the calls of a run. */
  ghost predicate Holds(s: VmState, p: Policy) {
    (p.one && !p.second ==> OneEach(s)) && OthersUntouched(p.desired, p.start, s)
  }

  /** The same slots are cloud-init disks, in effect and staged, and the guest runs or not as before. */
  ghost predicate CloudInitKept(s: VmState, t: VmState) {
    && s.running == t.running
    && forall k :: (IsCloudInit(t.active, k) <==> IsCloudInit(s.active, k)) && (IsCloudInit(t.staged, k) <==>
        IsCloudInit(s.staged, k))
  }

  /** A guest is shut down or rebooted only for pending changes, and started only when it is off. */
  predicate PowerIsDue(c: Call, s: VmState) { if c.Start? then !s.running else Pending(s) }

  /** What is promised of every call, whether it succeeds or fails. */
  ghost predicate Allowed(e: Event, p: Policy) {
    && (ChangesPower(e.call) ==> p.restart && PowerIsDue(e.call, e.before))
    && (e.call.ResizeDisk? ==> Grows(e.before, e.call.k, e.call.sizeKiB))
    && Holds(e.before, p) && Holds(e.after, p)
  }

  /** The calls of a run, after those made before it: no call is made after one that failed. */
  ghost predicate Steps(before: seq<Event>, after: seq<Event>, p: Policy) {
    && |before| <= |after| && after[..|before|] == before
    && (forall i | |before| <= i < |after| :: Allowed(after[i], p))
    && (forall i | |before| <= i < |after| - 1 :: after[i].ok)
  }

  /** No call has failed; a call that failed is the last one. */
  predicate Fine(before: seq<Event>, after: seq<Event>) {
    |after| <= |before| || after[|after| - 1].ok
  }

  lemma NextStep(before: seq<Event>, after: seq<Event>, e: Event, p: Policy)
    requires Steps(before, after, p) && Fine(before, after) && Allowed(e, p)
    ensures Steps(before, after + [e], p)
  {
  }

  lemma MoreSteps(a: seq<Event>, b: seq<Event>, c: seq<Event>, p: Policy)
    requires Steps(a, b, p) && Fine(a, b) && Steps(b, c, p)
    ensures Steps(a, c, p) && (Fine(a, c) <==> Fine(b, c))
  {
    assert a == b[..|a|] == c[..|b|][..|a|];
    forall i | |a| <= i < |c|
      ensures Allowed(c[i], p) && (i < |c| - 1 ==> c[i].ok)
    {
      assert i < |b| ==> c[i] == c[..|b|][i] == b[i];
    }
    if |c| == |b| {
      assert c == c[..|b|] == b;
    }
  }

  /** The call is about mentioned drives only; besides, it may delete a displaced cloud-init disk. */
  ghost predicate Minds(e: Event, p: Policy) {
    match e.call
    case MoveDisk(k, _, _) => k.Drive? ==> k in p.desired
    case ResizeDisk(k, _) => k.Drive? ==> k in p.desired
    case Configure(sets, delete) => forall k: Key | k.Drive? && k !in p.desired ::
        k !in sets && (k in NamedIn(delete, e.before.staged.Keys) ==> Displaced(p.desired, View(p.start.staged), k))
    case _ => true
  }

  /** A call that keeps the promise is one more step. */
  lemma Record(h: Site, before: seq<Event>, after: seq<Event>, e: Event, p: Policy)
    requires Steps(before, after, p) && Fine(before, after)
    requires Happened(h, e) && Sound(h, e.before) && Holds(e.before, p) && Minds(e, p)
    requires ChangesPower(e.call) ==> p.restart && PowerIsDue(e.call, e.before)
    requires e.call.ResizeDisk? ==> Grows(e.before, e.call.k, e.call.sizeKiB)
    requires e.call.Configure? && p.one && !p.second ==> !TwoMayHold(e)
    ensures Steps(before, after + [e], p) && Holds(e.after, p)
    ensures Fine(before, after + [e]) <==> e.ok
  {
    if p.one && !p.second {
      KeepsOneEach(h, e);
    }
    if e.ok {
      OthersStayUntouched(h, e, p);
    }
    NextStep(before, after, e, p);
  }

  lemma OthersStayUntouched(h: Site, e: Event, p: Policy)
    requires Happened(h, e) && e.ok && OthersUntouched(p.desired, p.start, e.before) && Minds(e, p)
    ensures OthersUntouched(p.desired, p.start, e.after)
  {
    var s, t := e.before, e.after;
    forall k: Key | k.Drive? && k !in p.desired
      ensures StagedUntouched(p.desired, p.start, t, k) && ActiveUntouched(p.desired, p.start, t, k)
    {
      assert StagedUntouched(p.desired, p.start, s, k) && ActiveUntouched(p.desired, p.start, s, k);
      match e.call {
        case Configure(sets, delete) =>
          assert k in t.staged <==> k in sets || (k in s.staged && k !in NamedIn(delete, s.staged.Keys));
          assert At(t.active, k) == At(s.active, k) || At(t.active, k) == At(t.staged, k);
        case _ =>
      }
    }
  }

  /** Replacing a slot that is no cloud-init disk, in effect and staged, changes neither which
      slots are cloud-init disks nor whether changes are pending. */
  lemma ReplacedKeeps(s: VmState, t: VmState, k: Key, slot: Slot)
    requires Replaced(s, t, k, slot) && !slot.CloudInitSlot? && !s.staged[k].CloudInitSlot?
    ensures CloudInitKept(s, t)
    ensures Pending(t) <==> Pending(s)
  {
    if t.active == t.staged {
      forall j
        ensures At(s.active, j) == At(s.staged, j)
      {
        assert j != k ==> At(s.active, j) == At(t.active, j) && At(s.staged, j) == At(t.staged, j);
      }
      SameLayout(s.active, s.staged);
    }
  }

  lemma SameLayout(a: Layout, b: Layout)
    requires forall k :: At(a, k) == At(b, k)
    ensures a == b
  {
    forall k
      ensures k in a <==> k in b
      ensures k in a ==> a[k] == b[k]
    {
      assert At(a, k) == At(b, k);
    }
  }

  /** No call but a configuration call adds a cloud-init disk to a configuration. */
  lemma KeepsOneEach(h: Site, e: Event)
    requires Happened(h, e) && Sound(h, e.before) && OneEach(e.before)
    requires e.call.Configure? ==> !TwoMayHold(e)
    ensures OneEach(e.after)
  {
    if e.ok {
      match e.call {
        case Configure(_, _) =>
          forall k | IsCloudInit(e.after.active, k) || IsCloudInit(e.after.staged, k)
            ensures MayHold(e, k)
          {
            HolderIsPossible(h, e, e.after, k);
          }
        case Shutdown =>
        case Start =>
        case Reboot =>
        case _ =>
          assert forall k | IsCloudInit(e.after.active, k) :: IsCloudInit(e.before.active, k);
          assert forall k | IsCloudInit(e.after.staged, k) :: IsCloudInit(e.before.staged, k);
      }
    }
  }

  // ---------------------------------------------------------------- a second cloud-init disk

  /** One of the results the server may give a configuration call. */
  ghost predicate Outcome(h: Site, e: Event, t: VmState)
    requires e.call.Configure?
  {
    Sound(h, t) && Configured(h, e.before, t, e.call.sets, e.call.delete)
  }

  ghost predicate CanSucceed(h: Site, e: Event)
    requires e.call.Configure?
  {
    exists t: VmState :: Outcome(h, e, t)
  }

  predicate TwoIn(l: Layout, a: Key, b: Key) { a != b && IsCloudInit(l, a) && IsCloudInit(l, b) }

  /** The call may leave the guest with two cloud-init disks in effect. */
  ghost predicate CanGiveSecond(h: Site, e: Event)
    requires e.call.Configure?
  {
    exists t: VmState, a, b :: Outcome(h, e, t) && TwoIn(t.active, a, b)
  }

  /** A value that can lead to a cloud-init disk: one that asks for it, or a text the server may take
      for anything. */
  predicate LeadsToCloudInit(v: Value) {
    v.SetCloudInit? || (v.SetCdRom? && CommaCdRom(v.cdRom)) || (v.SetFile? && !Absolute(v.file))
  }

  /** The slot may hold a cloud-init disk in effect after the call: the one in effect when its removal
      can stay pending, else the one the call sets or leaves there. */
  ghost predicate MayHold(e: Event, k: Key)
    requires e.call.Configure?
  {
    || (e.before.running && IsCloudInit(e.before.active, k))
    || (if k in e.call.sets then IsDrive(k) && LeadsToCloudInit(e.call.sets[k])
        else IsCloudInit(e.before.staged, k) && k !in NamedIn(e.call.delete, e.before.staged.Keys))
  }

  ghost predicate TwoMayHold(e: Event)
    requires e.call.Configure?
  {
    exists a, b :: a != b && MayHold(e, a) && MayHold(e, b)
  }

  lemma HolderIsPossible(h: Site, e: Event, t: VmState, k: Key)
    requires e.call.Configure? && Outcome(h, e, t)
    requires IsCloudInit(t.active, k) || IsCloudInit(t.staged, k)
    ensures MayHold(e, k)
  {
    var s := e.before;
    assert At(t.active, k) == At(s.active, k) || At(t.active, k) == At(t.staged, k);
    if k in e.call.sets {
      assert Becomes(h, k, At(s.staged, k), e.call.sets[k], t.staged[k]);
    }
  }

  /** What a slot can be staged as by a call. */
  ghost predicate PossibleAt(h: Site, e: Event, k: Key, slot: Option<Slot>)
    requires e.call.Configure?
  {
    var s := e.before;
    if k in e.call.sets then slot.Some? && Becomes(h, k, At(s.staged, k), e.call.sets[k], slot.value)
    else slot == if k in NamedIn(e.call.delete, s.staged.Keys) then None else At(s.staged, k)
  }

  function Put(l: Layout, k: Key, slot: Option<Slot>): Layout {
    if slot.Some? then l[k := slot.value] else map j | j in l && j != k :: l[j]
  }

  /** The same result but for one slot, which is staged as given, and takes effect now or stays as it is
      in a guest that runs. */
  function Varied(s: VmState, t0: VmState, k: Key, slot: Option<Slot>, now: bool): VmState {
    var staged := Put(t0.staged, k, slot);
    VmState(if !s.running then staged else Put(t0.active, k, if now then slot else At(s.active, k)), staged, s.running)
  }

  /** It is another outcome of the call. */
  lemma OtherOutcome(h: Site, e: Event, t0: VmState, k: Key, slot: Option<Slot>, now: bool)
    requires e.call.Configure? && Outcome(h, e, t0) && Sound(h, e.before) && PossibleAt(h, e, k, slot)
    ensures Outcome(h, e, Varied(e.before, t0, k, slot, now))
  {
    var t := Varied(e.before, t0, k, slot, now);
    OtherIsSound(h, e, t0, k, slot, now);
    OtherIsStaged(h, e, t0, k, slot, now);
    forall j
      ensures At(t.active, j) == At(e.before.active, j) || At(t.active, j) == At(t.staged, j)
    {
      assert At(t0.active, j) == At(e.before.active, j) || At(t0.active, j) == At(t0.staged, j);
    }
  }

  lemma OtherIsStaged(h: Site, e: Event, t0: VmState, k: Key, slot: Option<Slot>, now: bool)
    requires e.call.Configure? && Outcome(h, e, t0) && PossibleAt(h, e, k, slot)
    ensures var s, t, sets := e.before, Varied(e.before, t0, k, slot, now).staged, e.call.sets;
            var deleted := NamedIn(e.call.delete, s.staged.Keys);
            && (forall j :: j in t <==> j in sets || (j in s.staged && j !in deleted))
            && (forall j | j in sets :: Becomes(h, j, At(s.staged, j), sets[j], t[j]))
            && (forall j | j in s.staged && j !in sets && j !in deleted :: t[j] == s.staged[j])
  {
    forall j | j in e.call.sets && j != k
      ensures Becomes(h, j, At(e.before.staged, j), e.call.sets[j], t0.staged[j])
    {
    }
  }

  lemma OtherIsSound(h: Site, e: Event, t0: VmState, k: Key, slot: Option<Slot>, now: bool)
    requires e.call.Configure? && Sound(h, t0) && Sound(h, e.before) && PossibleAt(h, e, k, slot)
    ensures Sound(h, Varied(e.before, t0, k, slot, now))
  {
    var s := e.before;
    assert k in s.staged ==> SoundSlot(h, k, s.staged[k]);
    assert k in s.active ==> SoundSlot(h, k, s.active[k]);
    PutIsSound(h, t0.staged, k, slot);
    PutIsSound(h, t0.active, k, if now then slot else At(s.active, k));
  }

  lemma PutIsSound(h: Site, l: Layout, k: Key, slot: Option<Slot>)
    requires SoundLayout(h, l) && (slot.Some? ==> SoundSlot(h, k, slot.value))
    ensures SoundLayout(h, Put(l, k, slot))
  {
    forall j | j in Put(l, k, slot)
      ensures SoundSlot(h, j, Put(l, k, slot)[j])
    {
      assert j != k ==> SoundSlot(h, j, l[j]);
    }
  }

  /** One of these slots can be made to hold a cloud-init disk, whatever the others are. */
  lemma OneHolds(h: Site, e: Event, t0: VmState, k: Key) returns (t: VmState)
    requires e.call.Configure? && Outcome(h, e, t0) && Sound(h, e.before) && MayHold(e, k)
    ensures Outcome(h, e, t) && IsCloudInit(t.active, k)
    ensures forall j | j != k :: At(t.active, j) == At(t0.active, j)
  {
    var s := e.before;
    var now := !(s.running && IsCloudInit(s.active, k));
    var free := now && k in e.call.sets && !(e.call.sets[k].SetCloudInit? && PlainCloudInit(e.call.sets[k].cloudInit));
    var slot := if free then Some(CloudInitSlot(CloudInitDisk(RAW, ""))) else At(t0.staged, k);
    assert k in t0.staged <==> k in e.call.sets || (k in s.staged && k !in NamedIn(e.call.delete, s.staged.Keys));
    OtherOutcome(h, e, t0, k, slot, now);
    t := Varied(s, t0, k, slot, now);
  }

  /** A call that can succeed may give the guest a second cloud-init disk exactly when two slots may hold
      one after it. */
  lemma SecondExactly(h: Site, e: Event)
    requires e.call.Configure? && CanSucceed(h, e) && Sound(h, e.before)
    ensures CanGiveSecond(h, e) <==> TwoMayHold(e)
  {
    if CanGiveSecond(h, e) {
      var t: VmState, a, b :| Outcome(h, e, t) && TwoIn(t.active, a, b);
      HolderIsPossible(h, e, t, a);
      HolderIsPossible(h, e, t, b);
    }
    if TwoMayHold(e) {
      var a, b :| a != b && MayHold(e, a) && MayHold(e, b);
      var t0: VmState :| Outcome(h, e, t0);
      var t1 := OneHolds(h, e, t0, a);
      var t2 := OneHolds(h, e, t1, b);
      assert At(t2.active, a) == At(t1.active, a);
      assert TwoIn(t2.active, a, b);
    }
  }

  // ---------------------------------------------------------------- a second one, seen from the start

  /** A slot that is to hold a cloud-init disk, or a text the server may take for one. */
  predicate AsksForCloudInit(s: Storage) {
    s.cloudInit.Some? || (s.cdRom.Some? && CommaCdRom(s.cdRom.value)) ||
    (s.passthrough.Some? && !Absolute(s.passthrough.value.file))
  }

  /** The slot may hold a cloud-init disk after a call that is made for the desired disks in this state. */
  ghost predicate HolderAt(desired: Storages, s: VmState, k: Key) {
    || (s.running && IsCloudInit(s.active, k))
    || (if k in desired then AsksForCloudInit(desired[k]) else IsCloudInit(s.staged, k))
  }

  ghost predicate TwoHolders(desired: Storages, s: VmState) {
    exists a, b :: a != b && HolderAt(desired, s, a) && HolderAt(desired, s, b)
  }

  /** Something is deleted before the configuration call. */
  ghost predicate DeletesFirst(desired: Storages, recreate: bool, s: VmState) {
    recreate || exists k :: Displaced(desired, View(s.staged), k)
  }

  /** A cloud-init disk that is staged and not deleted then. */
  ghost predicate Left(desired: Storages, s: VmState, k: Key) {
    IsCloudInit(s.staged, k) && !Displaced(desired, View(s.staged), k)
  }

  /** The deletion can give the guest two: one in effect whose removal was pending, and another one that
      is left staged. */
  ghost predicate SecondInDeletion(desired: Storages, recreate: bool, s: VmState) {
    DeletesFirst(desired, recreate, s) && exists a, b :: a != b && IsCloudInit(s.active, a) && Left(desired, s, b)
  }

  /** The slot may hold a cloud-init disk after the configuration call of a run from this state, given
      whether the guest runs then. */
  ghost predicate Holder(desired: Storages, recreate: bool, s: VmState, running: bool, k: Key) {
    || (running && if DeletesFirst(desired, recreate, s) then Left(desired, s, k) else IsCloudInit(s.active, k))
    || (if k in desired then AsksForCloudInit(desired[k]) else Left(desired, s, k))
  }

  ghost predicate SecondInCall(desired: Storages, recreate: bool, s: VmState, running: bool) {
    exists a, b :: a != b && Holder(desired, recreate, s, running, a) && Holder(desired, recreate, s, running, b)
  }

  /** What a caller can check before the run. */
  ghost predicate SecondPossible(desired: Storages, recreate: bool, s: VmState) {
    SecondInDeletion(desired, recreate, s) || SecondInCall(desired, recreate, s, s.running)
  }

  // ---------------------------------------------------------------- moves and resizes

  /** Whether the disk of a slot is kept, judged by what was read. */
  predicate KeptAt(desired: Storages, l: Layout, k: Key) { Kept(Get(desired, k), Get(View(l), k)) }

  ghost predicate DistinctMoves(moves: seq<DiskMove>) {
    forall i, j | 0 <= i < j < |moves| :: moves[i].id != moves[j].id
  }

  ghost predicate DistinctResizes(resizes: seq<DiskResize>) {
    forall i, j | 0 <= i < j < |resizes| :: resizes[i].id != resizes[j].id
  }

  /** The staged configuration after moves: the named slots moved, the others as before. */
  ghost predicate AllMoved(h: Site, l: Layout, l': Layout, moves: seq<DiskMove>) {
    && (forall m | m in moves :: m.id in l && m.id in l' && MovedSlot(h, l[m.id], l'[m.id], m.storage, m.format))
    && (forall k | (forall m | m in moves :: m.id != k) :: At(l', k) == At(l, k))
  }

  ghost predicate AllResized(l: Layout, l': Layout, resizes: seq<DiskResize>) {
    && (forall r | r in resizes ::
         r.id in l && l[r.id].DiskSlot? && r.id in l' && l'[r.id] == l[r.id].(sizeKiB := r.sizeKiB))
    && (forall k | (forall r | r in resizes :: r.id != k) :: At(l', k) == At(l, k))
  }

  lemma OneMoreMoved(h: Site, l: Layout, l': Layout, l'': Layout, moves: seq<DiskMove>, m: DiskMove)
    requires AllMoved(h, l, l', moves) && forall e | e in moves :: e.id != m.id
    requires m.id in l' && m.id in l'' && MovedSlot(h, l'[m.id], l''[m.id], m.storage, m.format) &&
             l'' == l'[m.id := l''[m.id]]
    ensures AllMoved(h, l, l'', moves + [m])
  {
    assert At(l', m.id) == At(l, m.id);
    forall k | forall e | e in moves + [m] :: e.id != k
      ensures At(l'', k) == At(l, k)
    {
      assert m in moves + [m];
      forall e | e in moves
        ensures e.id != k
      {
        assert e in moves + [m];
      }
    }
  }

  lemma OneMoreResized(l: Layout, l': Layout, l'': Layout, resizes: seq<DiskResize>, r: DiskResize)
    requires AllResized(l, l', resizes) && forall e | e in resizes :: e.id != r.id
    requires r.id in l' && l'[r.id].DiskSlot? && l'' == l'[r.id := l'[r.id].(sizeKiB := r.sizeKiB)]
    ensures AllResized(l, l'', resizes + [r])
  {
    assert At(l', r.id) == At(l, r.id);
    forall k | forall e | e in resizes + [r] :: e.id != k
      ensures At(l'', k) == At(l, k)
    {
      assert r in resizes + [r];
      forall e | e in resizes
        ensures e.id != k
      {
        assert e in resizes + [r];
      }
    }
  }

  /** A kept disk after the moves and resizes: in the desired storage and format and of the desired
      size, the same volume when it was there already, with the options it had. */
  predicate Settled(h: Site, before: Slot, after: Slot, d: QemuDisk) {
    && before.DiskSlot? && after.DiskSlot? && after.options == before.options && after.sizeKiB == d.sizeKiB
    && (if ParsePath(before.path).storage == d.storage && ParsePath(before.path).format == d.format
        then after.path == before.path
        else IsOwnPath(h, after.path, d.storage, d.format))
  }

  /** Kept disks are settled, every other drive is as it was read. */
  ghost predicate Prepared(h: Site, desired: Storages, l: Layout, l': Layout) {
    forall k: Key | k.Drive? ::
      if KeptAt(desired, l, k)
      then k in l && k in l' && Settled(h, l[k], l'[k], desired[k].disk.value)
      else At(l', k) == At(l, k)
  }

  /** A kept disk is a disk on the server, of the size that was read. */
  lemma KeptIsDisk(h: Site, desired: Storages, l: Layout, k: Key)
    requires SoundLayout(h, l) && KeptAt(desired, l, k)
    ensures k in desired && desired[k].disk.Some? && k.Drive? && k in l && l[k].DiskSlot?
    ensures var p := ParsePath(l[k].path); MarkOf(Get(View(l), k)) == Some(DiskMark(p.format, l[k].sizeKiB, p.storage))
    ensures l[k].sizeKiB <= desired[k].disk.value.sizeKiB
  {
    assert SoundSlot(h, k, l[k]);
  }

  /** Every marked resize asks for more than the slot has, also after the moves. */
  lemma ResizesGrow(h: Site, desired: Storages, l: Layout, l': Layout, moves: seq<DiskMove>, order: seq<Key>)
    requires SoundLayout(h, l) && Enumerates(order, desired.Keys) && AllMoved(h, l, l', moves)
    ensures DistinctResizes(Resizes(desired, View(l), order))
    ensures forall r | r in Resizes(desired, View(l), order) ::
              r.id in l' && l'[r.id].DiskSlot? && l'[r.id].sizeKiB < r.sizeKiB
  {
    DiskLaws.ResizesMember(desired, View(l), order);
    forall r | r in Resizes(desired, View(l), order)
      ensures r.id in l' && l'[r.id].DiskSlot? && l'[r.id].sizeKiB < r.sizeKiB
    {
      KeptIsDisk(h, desired, l, r.id);
      DiskStays(h, l, l', moves, r.id);
    }
  }

  /** Moving disks changes no size and no options. */
  lemma DiskStays(h: Site, l: Layout, l': Layout, moves: seq<DiskMove>, k: Key)
    requires AllMoved(h, l, l', moves) && k in l && l[k].DiskSlot?
    ensures k in l' && l'[k].DiskSlot? && l'[k].sizeKiB == l[k].sizeKiB && l'[k].options == l[k].options
  {
    if m :| m in moves && m.id == k {
    } else {
      assert At(l', k) == At(l, k);
    }
  }

  /** After the marked moves and resizes every kept disk is settled. */
  lemma MarkedChangesPrepare(h: Site, desired: Storages, l: Layout, l1: Layout, l2: Layout, order: seq<Key>)
    requires SoundLayout(h, l) && Enumerates(order, desired.Keys)
    requires AllMoved(h, l, l1, Moves(desired, View(l), order)) && AllResized(l1, l2, Resizes(desired, View(l), order))
    ensures Prepared(h, desired, l, l2)
    ensures forall k: Key | !k.Drive? :: At(l2, k) == At(l, k)
  {
    forall k: Key
      ensures if KeptAt(desired, l, k)
              then k.Drive? && k in l && k in l2 && Settled(h, l[k], l2[k], desired[k].disk.value)
              else At(l2, k) == At(l, k)
    {
      if KeptAt(desired, l, k) {
        KeptIsDisk(h, desired, l, k);
        KeptIsSettled(h, desired, l, l1, l2, order, k);
      } else {
        OthersStay(h, desired, l, l1, l2, order, k);
      }
    }
  }

  lemma OthersStay(h: Site, desired: Storages, l: Layout, l1: Layout, l2: Layout, order: seq<Key>, k: Key)
    requires Enumerates(order, desired.Keys) && !KeptAt(desired, l, k)
    requires AllMoved(h, l, l1, Moves(desired, View(l), order)) && AllResized(l1, l2, Resizes(desired, View(l), order))
    ensures At(l2, k) == At(l, k)
  {
    DiskLaws.MovesMember(desired, View(l), order);
    DiskLaws.ResizesMember(desired, View(l), order);
    assert forall m | m in Moves(desired, View(l), order) :: m.id != k;
    assert forall r | r in Resizes(desired, View(l), order) :: r.id != k;
  }

  lemma KeptIsSettled(h: Site, desired: Storages, l: Layout, l1: Layout, l2: Layout, order: seq<Key>, k: Key)
    requires SoundLayout(h, l) && Enumerates(order, desired.Keys) && KeptAt(desired, l, k)
    requires AllMoved(h, l, l1, Moves(desired, View(l), order)) && AllResized(l1, l2, Resizes(desired, View(l), order))
    ensures k in l && k in l2 && k in desired && desired[k].disk.Some? && Settled(h, l[k], l2[k], desired[k].disk.value)
  {
    KeptIsDisk(h, desired, l, k);
    DiskStays(h, l, l1, Moves(desired, View(l), order), k);
    KeptIsMoved(h, desired, l, l1, order, k);
    KeptIsResized(desired, View(l), l1, l2, order, k);
  }

  lemma KeptIsResized(desired: Storages, current: Storages, l1: Layout, l2: Layout, order: seq<Key>, k: Key)
    requires Enumerates(order, desired.Keys) && Kept(Get(desired, k), Get(current, k))
    requires AllResized(l1, l2, Resizes(desired, current, order))
    requires k in l1 && l1[k].DiskSlot? && l1[k].sizeKiB == MarkOf(Get(current, k)).value.sizeKiB
    ensures k in l2 && l2[k] == l1[k].(sizeKiB := desired[k].disk.value.sizeKiB)
  {
    var d, c := Get(desired, k), Get(current, k);
    DiskLaws.ResizesMember(desired, current, order);
    if ResizeOf(d, c, k).Some? {
      assert ResizeOf(d, c, k).value in Resizes(desired, current, order);
    } else {
      assert forall r | r in Resizes(desired, current, order) :: r.id != k;
      assert At(l2, k) == At(l1, k);
    }
  }

  lemma KeptIsMoved(h: Site, desired: Storages, l: Layout, l1: Layout, order: seq<Key>, k: Key)
    requires SoundLayout(h, l) && Enumerates(order, desired.Keys) && KeptAt(desired, l, k)
    requires AllMoved(h, l, l1, Moves(desired, View(l), order))
    ensures k in l && l[k].DiskSlot? && k in l1 && l1[k].DiskSlot? && k in desired && desired[k].disk.Some?
    ensures var d := desired[k].disk.value;
            if ParsePath(l[k].path).storage == d.storage && ParsePath(l[k].path).format == d.format then l1[k] == l[k]
            else IsOwnPath(h, l1[k].path, d.storage, d.format)
  {
    KeptIsDisk(h, desired, l, k);
    var d, c := Get(desired, k), Get(View(l), k);
    DiskLaws.MovesMember(desired, View(l), order);
    if MoveOf(d, c, k).Some? {
      assert MoveOf(d, c, k).value in Moves(desired, View(l), order);
    } else {
      assert forall m | m in Moves(desired, View(l), order) :: m.id != k;
      assert At(l1, k) == At(l, k);
    }
  }

  // ---------------------------------------------------------------- what the plan relies on

  /** The current configuration is what the client reads from the server. */
  ghost predicate IsRead(l: Layout, disks: Option<Storages>, linkedVmId: uint) {
    (disks == if View(l) == map[] then None else Some(View(l))) && LinkedVmSeen(l, linkedVmId)
  }

  /** The configuration without some of its keys. */
  ghost function Without(l: Layout, keys: set<Key>): Layout { map k | k in l && k !in keys :: l[k] }

  /** What the plan of one slot is made from fits what the server holds there. A kept disk is where
      it has to be and of the desired size. Any other slot is as the client sees it, except for a
      cloud-init disk that is already gone and not wanted there. */
  ghost predicate ReadySlot(k: Key, s: Storage, current: Option<Storage>, slot: Option<Slot>) {
    if Kept(Some(s), current) then
      && k.Drive? && slot.Some? && slot.value.DiskSlot?
      && current == Some(EMPTY.(disk := Some(SeenDisk(slot.value.path, current.value.disk.value.sizeKiB,
                                                      slot.value.options, k.bus))))
      && ParsePath(slot.value.path).storage == s.disk.value.storage
      && ParsePath(slot.value.path).format == s.disk.value.format
      && slot.value.sizeKiB == s.disk.value.sizeKiB
    else if slot.Some? then k.Drive? && current == Some(Seen(slot.value, k.bus))
    else current.None? || (current == Some(EMPTY.(cloudInit := current.value.cloudInit)) &&
                           current.value.cloudInit.Some? && s.cloudInit.None?)
  }

  ghost predicate Ready(desired: Storages, current: Storages, l: Layout) {
    forall k | k in desired :: ReadySlot(k, desired[k], Get(current, k), At(l, k))
  }

  /** The slots the driver deletes before the update: at most a displaced cloud-init disk. */
  ghost predicate OnlyDisplaced(desired: Storages, l: Layout, gone: set<Key>) {
    forall k | k in gone && k.Drive? :: Displaced(desired, View(l), k)
  }

  /** Without moves, what was read first is still good for the plan. */
  lemma ReadyWithoutMoves(h: Site, desired: Storages, l: Layout, l1: Layout, l2: Layout, gone: set<Key>)
    requires SoundLayout(h, l) && SoundLayout(h, l2) && OnlySlots(desired)
    requires Prepared(h, desired, l, l1) && l2 == Without(l1, gone) && OnlyDisplaced(desired, l, gone)
    requires forall k | KeptAt(desired, l, k) :: MoveOf(Get(desired, k), Get(View(l), k), k).None?
    ensures Ready(desired, View(l), l2)
  {
    forall k | k in desired
      ensures ReadySlot(k, desired[k], Get(View(l), k), At(l2, k))
    {
      if KeptAt(desired, l, k) {
        KeptIsDisk(h, desired, l, k);
        assert SoundSlot(h, k, l[k]);
        assert k !in gone;
      }
    }
  }

  /** A volume the server created is read as what it was created for, and as no linked disk. */
  lemma OwnPathReads(h: Site, path: string, storage: string, format: string)
    requires ValidSite(h) && IsOwnPath(h, path, storage, format)
    ensures ParsePath(path).storage == storage && ParsePath(path).format == format && ParsePath(path).linkedVm.None?
  {
    OwnPathIsRead(h, NewVolume(h, storage, format, ParsePath(path).diskId));
  }

  lemma OwnPathIsAttached(h: Site, path: string, storage: string, format: string, linkedVmId: uint)
    requires ValidSite(h) && IsOwnPath(h, path, storage, format)
    ensures Attached(h, path, linkedVmId)
  {
    var v := NewVolume(h, storage, format, ParsePath(path).diskId);
    ValidFormatIsPlain(format);
    assert PlainStorage(storage);
    assert Reading.Names(h, v, linkedVmId) && path == PathText(v);
  }

  /** After moves, the plan is made from what is read then. */
  lemma ReadyAfterReading(h: Site, desired: Storages, l: Layout, l1: Layout, l2: Layout, gone: set<Key>)
    requires ValidSite(h) && SoundLayout(h, l) && SoundLayout(h, l2) && OnlySlots(desired)
    requires Prepared(h, desired, l, l1) && l2 == Without(l1, gone) && OnlyDisplaced(desired, l, gone)
    ensures Ready(desired, View(l2), l2)
    ensures forall k | k in desired :: KeptAt(desired, l2, k) <==> KeptAt(desired, l, k)
  {
    forall k | k in desired
      ensures ReadySlot(k, desired[k], Get(View(l2), k), At(l2, k))
      ensures KeptAt(desired, l2, k) <==> KeptAt(desired, l, k)
    {
      ReadAgain(h, desired, l, l1, l2, gone, k);
    }
  }

  lemma ReadAgain(h: Site, desired: Storages, l: Layout, l1: Layout, l2: Layout, gone: set<Key>, k: Key)
    requires ValidSite(h) && SoundLayout(h, l) && SoundLayout(h, l2) && OnlySlots(desired) && k in desired
    requires Prepared(h, desired, l, l1) && l2 == Without(l1, gone) && OnlyDisplaced(desired, l, gone)
    ensures ReadySlot(k, desired[k], Get(View(l2), k), At(l2, k))
    ensures KeptAt(desired, l2, k) <==> KeptAt(desired, l, k)
  {
    if k in l2 {
      assert SoundSlot(h, k, l2[k]);
    }
    if KeptAt(desired, l, k) {
      KeptIsDisk(h, desired, l, k);
      assert k !in gone;
      KeptReads(h, l[k], l2[k], desired[k].disk.value);
    } else {
      assert At(l1, k) == At(l, k);
    }
  }

  lemma KeptReads(h: Site, before: Slot, after: Slot, d: QemuDisk)
    requires ValidSite(h) && Settled(h, before, after, d)
    ensures ParsePath(after.path).storage == d.storage && ParsePath(after.path).format == d.format
  {
    if ParsePath(before.path).storage != d.storage || ParsePath(before.path).format != d.format {
      OwnPathReads(h, after.path, d.storage, d.format);
    }
  }

  // ---------------------------------------------------------------- what the update leaves

  /** The slot holds the desired device. */
  predicate HoldsFile(d: QemuDisk, slot: Slot) {
    slot.FileSlot? && slot.file == d.file && OptionsFor(slot.options, d.options, d.bus)
  }

  /** The slot holds the desired disk, in its storage, its format and with its options. */
  predicate HoldsDisk(d: QemuDisk, sizeKiB: nat, slot: Slot) {
    && slot.DiskSlot? && ParsePath(slot.path).storage == d.storage && ParsePath(slot.path).format == d.format
    && slot.sizeKiB == sizeKiB && OptionsFor(slot.options, d.options, d.bus)
  }

  /** The slot holds what was asked for, or nothing when nothing was asked for; a disk has the
      given size. */
  predicate HoldsSized(s: Storage, slot: Option<Slot>, sizeKiB: nat) {
    if s.cdRom.Some? then slot == Some(CdRomSlot(s.cdRom.value))
    else if s.cloudInit.Some? then slot == Some(CloudInitSlot(s.cloudInit.value))
    else if s.disk.Some? then slot.Some? && HoldsDisk(s.disk.value, sizeKiB, slot.value)
    else if s.passthrough.Some? then slot.Some? && HoldsFile(s.passthrough.value, slot.value)
    else slot.None?
  }

  /** The slot still holds the volume it held. */
  predicate SameVolume(before: Option<Slot>, after: Option<Slot>) {
    && before.Some? && before.value.DiskSlot? && after.Some? && after.value.DiskSlot?
    && after.value.path == before.value.path
  }

  function DesiredSize(s: Storage): nat { if s.disk.Some? then s.disk.value.sizeKiB else 0 }

  /** The slot is as it was asked for. */
  predicate HoldsAs(s: Storage, slot: Option<Slot>) { HoldsSized(s, slot, DesiredSize(s)) }

  /** The size of a disk after the configuration call, before the resizes of new disks. */
  function SizeForNow(h: Site, s: Storage, current: Option<Storage>): nat {
    if Created(Some(s), current) then CreatedSize(h, DesiredSize(s)) else DesiredSize(s)
  }

  /** What the configuration call does to a slot that is planned. */
  predicate PlanDone(h: Site, k: Key, plan: SlotPlan, before: Option<Slot>, after: Option<Slot>) {
    match plan
    case Keep => after == before
    case Set(value) => after.Some? && Becomes(h, k, before, value, after.value)
    case Remove => after.None?
  }

  /** A kept disk that is to get other options, and whose volume the client does not name. */
  ghost predicate Unnamed(h: Site, s: Storage, current: Option<Storage>, slot: Option<Slot>, linkedVmId: uint) {
    && Kept(Some(s), current) && slot.Some? && slot.value.DiskSlot?
    && !OptionsFor(slot.value.options, s.disk.value.options, s.disk.value.bus)
    && !Attached(h, slot.value.path, linkedVmId)
  }

  /** A slot whose text is read as something else: the file of a passthrough device is not absolute, or
      has a comma, or a separator is in the storage of a cloud-init disk or in the storage or the file of a
      CD-ROM. */
  predicate Misread(s: Storage) {
    || (s.cdRom.Some? && !PlainCdRom(s.cdRom.value)) || (s.cloudInit.Some? && !PlainCloudInit(s.cloudInit.value))
    || (s.passthrough.Some? && !PlainFile(s.passthrough.value.file))
  }

  /** The slots that can be missed. */
  ghost predicate Missable(h: Site, s: Storage, current: Option<Storage>, slot: Option<Slot>, linkedVmId: uint) {
    Misread(s) || Unnamed(h, s, current, slot, linkedVmId)
  }

  lemma PlannedDisk(h: Site, k: Key, s: Storage, current: Option<Storage>, before: Option<Slot>, after: Option<Slot>,
                    linkedVmId: uint)
    requires ValidSite(h) && IsSlot(k) && ValidStorage(s) && Converted(s, k.bus) && s.disk.Some?
    requires ReadySlot(k, s, current, before) && (before.Some? ==> SoundSlot(h, k, before.value))
    requires !Unnamed(h, s, current, before, linkedVmId)
    requires PlanDone(h, k, PlanSlot(Some(s), current, h.vmId, linkedVmId), before, after)
    ensures after.Some? && HoldsDisk(s.disk.value, SizeForNow(h, s, current), after.value)
    ensures Kept(Some(s), current) ==> SameVolume(before, after)
  {
    var d := s.disk.value;
    if Kept(Some(s), current) {
      var slot := before.value;
      var size := current.value.disk.value.sizeKiB;
      KeptDiskPlan(h, k, s, slot.path, size, slot.options, linkedVmId);
      UpdateNamesAttachedVolume(h, d, slot.path, size, slot.options, k.bus, linkedVmId);
    } else {
      assert PlanSlot(Some(s), current, h.vmId, linkedVmId) == Set(NewDiskValue(d));
      OwnPathReads(h, after.value.path, d.storage, d.format);
    }
  }

  /** A slot that holds a device reads as the client sees it. */
  lemma PlannedFile(h: Site, k: Key, s: Storage, current: Option<Storage>, before: Option<Slot>, after: Option<Slot>,
                    linkedVmId: uint)
    requires ValidSite(h) && IsSlot(k) && ValidStorage(s) && Converted(s, k.bus) && s.passthrough.Some? && !Misread(s)
    requires ReadySlot(k, s, current, before) && (before.Some? ==> SoundSlot(h, k, before.value))
    requires PlanDone(h, k, PlanSlot(Some(s), current, h.vmId, linkedVmId), before, after)
    ensures after.Some? && HoldsFile(s.passthrough.value, after.value)
  {
    var p := s.passthrough.value;
    ForBusIs(ForBus(p.options, k.bus), p.options, k.bus);
    var w := SetFile(p.file, ForBus(p.options, k.bus));
    assert Wanted(s, current, h.vmId, linkedVmId) == Some(w);
    FileIsQuiet(p.file);
    if PlanSlot(Some(s), current, h.vmId, linkedVmId).Keep? {
      var slot := before.value;
      assert Held(current, w, h.vmId, linkedVmId) == Some(SetFile(slot.file, slot.options));
      FileIsQuiet(slot.file);
      DeviceStringInjective(slot.file, slot.options, p.file, p.options, k.bus);
    } else {
      DeviceStringRoundTrip(p.file, p.options, k.bus);
    }
  }

  /** After the configuration call a slot holds what was asked for, except that a new disk may
      still have the size it was created with. */
  lemma PlannedSlot(h: Site, k: Key, s: Storage, current: Option<Storage>, before: Option<Slot>, after: Option<Slot>,
                    linkedVmId: uint)
    requires ValidSite(h) && IsSlot(k) && ValidStorage(s) && Converted(s, k.bus)
    requires ReadySlot(k, s, current, before) && (before.Some? ==> SoundSlot(h, k, before.value))
    requires !Missable(h, s, current, before, linkedVmId)
    requires PlanDone(h, k, PlanSlot(Some(s), current, h.vmId, linkedVmId), before, after)
    ensures HoldsSized(s, after, SizeForNow(h, s, current))
    ensures Kept(Some(s), current) ==> SameVolume(before, after)
  {
    if s.disk.Some? {
      PlannedDisk(h, k, s, current, before, after, linkedVmId);
    } else if s.passthrough.Some? {
      PlannedFile(h, k, s, current, before, after, linkedVmId);
    } else {
      PlannedRest(h, k, s, current, before, after, linkedVmId);
    }
  }

  lemma PlannedRest(h: Site, k: Key, s: Storage, current: Option<Storage>, before: Option<Slot>, after: Option<Slot>,
                    linkedVmId: uint)
    requires IsSlot(k) && ValidStorage(s) && s.disk.None? && s.passthrough.None? && !Misread(s)
    requires ReadySlot(k, s, current, before) && (before.Some? ==> SoundSlot(h, k, before.value))
    requires PlanDone(h, k, PlanSlot(Some(s), current, h.vmId, linkedVmId), before, after)
    ensures HoldsSized(s, after, 0)
  {
    var w := Wanted(s, current, h.vmId, linkedVmId);
    if w.Some? {
      var held := Held(current, w.value, h.vmId, linkedVmId);
      assert before.Some? || held.None?;
      if held.Some? && s.cdRom.Some? && ValueText(held.value) == ValueText(w.value) {
        CdRomTextInjective(before.value.cdRom, s.cdRom.value);
      } else if held.Some? && s.cdRom.None? && ValueText(held.value) == ValueText(w.value) {
        CloudInitTextInjective(before.value.cloudInit, s.cloudInit.value);
      }
    }
  }

  /** Every mentioned slot holds what was asked for, new disks in the size they were created with, kept
      ones on their volumes, unless it can be missed. */
  ghost predicate Nearly(h: Site, desired: Storages, current: Storages, linkedVmId: uint, before: Layout,
                         after: Layout) {
    forall k | k in desired && !Missable(h, desired[k], Get(current, k), At(before, k), linkedVmId) ::
      && HoldsSized(desired[k], At(after, k), SizeForNow(h, desired[k], Get(current, k)))
      && (Kept(Some(desired[k]), Get(current, k)) ==> SameVolume(At(before, k), At(after, k)))
  }

  /** The drives of a call are those of the plan: set, deleted, or left alone. */
  ghost predicate FollowsPlan(h: Site, desired: Storages, current: Storages, linkedVmId: uint, s: VmState,
                              sets: map<Key, Value>, delete: string)
  {
    forall k: Key | k.Drive? ::
      match PlanOf(desired, current, k, h.vmId, linkedVmId)
      case Set(value) => k in sets && sets[k] == value
      case Remove => k !in sets && (k in s.staged ==> k in NamedIn(delete, s.staged.Keys))
      case Keep => k !in sets && k !in NamedIn(delete, s.staged.Keys)
  }

  lemma ConfiguredSlot(h: Site, desired: Storages, current: Storages, linkedVmId: uint, s: VmState, t: VmState,
                       sets: map<Key, Value>, delete: string, k: Key)
    requires Configured(h, s, t, sets, delete) && k.Drive?
    requires FollowsPlan(h, desired, current, linkedVmId, s, sets, delete)
    ensures PlanDone(h, k, PlanOf(desired, current, k, h.vmId, linkedVmId), At(s.staged, k), At(t.staged, k))
  {
    var deleted := NamedIn(delete, s.staged.Keys);
    var plan := PlanOf(desired, current, k, h.vmId, linkedVmId);
    assert k in t.staged <==> k in sets || (k in s.staged && k !in deleted);
  }

  lemma ConfiguredAsPlanned(h: Site, desired: Storages, current: Storages, linkedVmId: uint, s: VmState, t: VmState,
                            sets: map<Key, Value>, delete: string)
    requires ValidSite(h) && SoundLayout(h, s.staged) && DiskPlan.Valid(desired) && AllConverted(desired)
    requires Configured(h, s, t, sets, delete) && FollowsPlan(h, desired, current, linkedVmId, s, sets, delete)
    requires Ready(desired, current, s.staged)
    ensures Nearly(h, desired, current, linkedVmId, s.staged, t.staged)
    ensures forall k: Key | k.Drive? && k !in desired :: At(t.staged, k) == At(s.staged, k)
  {
    forall k | k in desired && !Missable(h, desired[k], Get(current, k), At(s.staged, k), linkedVmId)
      ensures HoldsSized(desired[k], At(t.staged, k), SizeForNow(h, desired[k], Get(current, k)))
      ensures Kept(Some(desired[k]), Get(current, k)) ==> SameVolume(At(s.staged, k), At(t.staged, k))
    {
      assert IsSlot(k) && Converted(desired[k], k.bus) && ValidStorage(desired[k]);
      assert k in s.staged ==> SoundSlot(h, k, s.staged[k]);
      ConfiguredSlot(h, desired, current, linkedVmId, s, t, sets, delete, k);
      PlannedSlot(h, k, desired[k], Get(current, k), At(s.staged, k), At(t.staged, k), linkedVmId);
    }
    forall k: Key | k.Drive? && k !in desired
      ensures At(t.staged, k) == At(s.staged, k)
    {
      ConfiguredSlot(h, desired, current, linkedVmId, s, t, sets, delete, k);
    }
  }

  /** A new disk is resized from the size it was created with, which is smaller. */
  lemma InitialResizesGrow(h: Site, desired: Storages, current: Storages, linkedVmId: uint, before: Layout, l: Layout,
                           order: seq<Key>)
    requires ValidSite(h) && DiskPlan.Valid(desired) && AllConverted(desired) && Enumerates(order, desired.Keys)
    requires Nearly(h, desired, current, linkedVmId, before, l)
    ensures var resizes := InitialResizes(desired, current, order);
            && DistinctResizes(resizes)
            && forall r | r in resizes :: r.id in l && l[r.id].DiskSlot? && l[r.id].sizeKiB < r.sizeKiB
  {
    DiskLaws.InitialResizesMember(desired, current, order);
    forall r | r in InitialResizes(desired, current, order)
      ensures r.id in l && l[r.id].DiskSlot? && l[r.id].sizeKiB < r.sizeKiB
    {
      NewDiskGrows(h, desired, current, linkedVmId, before, l, r);
    }
  }

  lemma NewDiskGrows(h: Site, desired: Storages, current: Storages, linkedVmId: uint, before: Layout, l: Layout,
                     r: DiskResize)
    requires ValidSite(h) && DiskPlan.Valid(desired) && AllConverted(desired) &&
             Nearly(h, desired, current, linkedVmId, before, l)
    requires InitialResizeOf(Get(desired, r.id), Get(current, r.id), r.id) == Some(r)
    ensures r.id in l && l[r.id].DiskSlot? && l[r.id].sizeKiB < r.sizeKiB
  {
    var s := desired[r.id];
    assert !Missable(h, s, Get(current, r.id), At(before, r.id), linkedVmId);
    assert HoldsSized(s, At(l, r.id), SizeForNow(h, s, Get(current, r.id)));
    assert ValidStorage(s) && Converted(s, r.id.bus);
  }

  /** After the resizes of new disks every mentioned slot holds exactly what was asked for, and kept disks
      are on their volumes. */
  lemma InitialResizesFinish(h: Site, desired: Storages, current: Storages, linkedVmId: uint, before: Layout,
                             l: Layout, l': Layout, order: seq<Key>)
    requires DiskPlan.Valid(desired) && Enumerates(order, desired.Keys)
    requires Nearly(h, desired, current, linkedVmId, before, l) &&
             AllResized(l, l', InitialResizes(desired, current, order))
    ensures forall k | k in desired && !Missable(h, desired[k], Get(current, k), At(before, k), linkedVmId) ::
              && HoldsAs(desired[k], At(l', k))
              && (Kept(Some(desired[k]), Get(current, k)) ==> SameVolume(At(before, k), At(l', k)))
    ensures forall k: Key | k !in desired :: At(l', k) == At(l, k)
  {
    var resizes := InitialResizes(desired, current, order);
    DiskLaws.InitialResizesMember(desired, current, order);
    forall k | k in desired && !Missable(h, desired[k], Get(current, k), At(before, k), linkedVmId)
      ensures HoldsAs(desired[k], At(l', k))
      ensures Kept(Some(desired[k]), Get(current, k)) ==> SameVolume(At(before, k), At(l', k))
    {
      assert HoldsSized(desired[k], At(l, k), SizeForNow(h, desired[k], Get(current, k)));
      assert ValidStorage(desired[k]);
      if InitialResizeOf(Some(desired[k]), Get(current, k), k).Some? {
        assert InitialResizeOf(Get(desired, k), Get(current, k), k).value in resizes;
      } else {
        assert forall r | r in resizes :: r.id != k;
        assert At(l', k) == At(l, k);
      }
    }
    forall k: Key | k !in desired
      ensures At(l', k) == At(l, k)
    {
      assert forall r | r in resizes :: r.id != k;
    }
  }

  // ---------------------------------------------------------------- slots that can be missed

  lemma UnnamedCanMiss(h: Site, k: Key, s: Storage, current: Option<Storage>, before: Option<Slot>, linkedVmId: uint)
    returns (after: Slot)
    requires ValidSite(h) && IsSlot(k) && ValidStorage(s) && Converted(s, k.bus) && s.disk.Some?
    requires ReadySlot(k, s, current, before) && before.Some? && SoundSlot(h, k, before.value)
    requires Unnamed(h, s, current, before, linkedVmId)
    ensures var plan := PlanSlot(Some(s), current, h.vmId, linkedVmId);
            plan.Set? && Becomes(h, k, before, plan.value, after) && !HoldsDisk(s.disk.value, DesiredSize(s), after)
  {
    var slot := before.value;
    var size := current.value.disk.value.sizeKiB;
    KeptDiskPlan(h, k, s, slot.path, size, slot.options, linkedVmId);
    UpdateNamesAttachedVolume(h, s.disk.value, slot.path, size, slot.options, k.bus, linkedVmId);
    ForBusOptionsAreKnown(s.disk.value.options, k);
    var plan := PlanSlot(Some(s), current, h.vmId, linkedVmId);
    after := DiskSlot(plan.value.path, 0, plan.value.options); // another volume, of another size
  }

  lemma ForBusOptionsAreKnown(o: Options, k: Key)
    requires ValidOptions(o) && k.Drive?
    ensures KnownOptions(ForBus(o, k.bus), k)
  {
  }

  /** The call may leave a slot without what was asked for. */
  ghost predicate CanMiss(h: Site, e: Event, k: Key, s: Storage, sizeKiB: nat)
    requires e.call.Configure?
  {
    exists t: VmState :: Outcome(h, e, t) && !HoldsSized(s, At(t.staged, k), sizeKiB)
  }

  /** The call leaves a mentioned slot as asked for under every outcome exactly when it is neither a
      passthrough device whose text is read as something else, nor a kept disk with other options that the
      client does not name. */
  lemma MissExactly(h: Site, desired: Storages, current: Storages, linkedVmId: uint, e: Event, k: Key)
    requires ValidSite(h) && Sound(h, e.before) && DiskPlan.Valid(desired) && AllConverted(desired) && k in desired
    requires e.call.Configure? && CanSucceed(h, e) && Ready(desired, current, e.before.staged)
    requires FollowsPlan(h, desired, current, linkedVmId, e.before, e.call.sets, e.call.delete)
    ensures CanMiss(h, e, k, desired[k], SizeForNow(h, desired[k], Get(current, k))) <==>
            Missable(h, desired[k], Get(current, k), At(e.before.staged, k), linkedVmId)
  {
    var s := e.before;
    var t0: VmState :| Outcome(h, e, t0);
    assert IsSlot(k) && Converted(desired[k], k.bus) && ValidStorage(desired[k]);
    if Misread(desired[k]) {
      assert k in t0.staged ==> SoundSlot(h, k, t0.staged[k]);
      assert !HoldsSized(desired[k], At(t0.staged, k), SizeForNow(h, desired[k], Get(current, k)));
    } else if Unnamed(h, desired[k], Get(current, k), At(s.staged, k), linkedVmId) {
      UnnamedMisses(h, desired, current, linkedVmId, e, t0, k);
    } else {
      forall t: VmState | Outcome(h, e, t)
        ensures HoldsSized(desired[k], At(t.staged, k), SizeForNow(h, desired[k], Get(current, k)))
      {
        ConfiguredAsPlanned(h, desired, current, linkedVmId, s, t, e.call.sets, e.call.delete);
      }
    }
  }

  /** The slots a call can miss are those that can be missed. */
  ghost predicate MissesExactly(h: Site, desired: Storages, current: Storages, linkedVmId: uint, e: Event)
    requires e.call.Configure?
  {
    forall k | k in desired ::
      CanMiss(h, e, k, desired[k], SizeForNow(h, desired[k], Get(current, k))) <==>
      Missable(h, desired[k], Get(current, k), At(e.before.staged, k), linkedVmId)
  }

  lemma MissesAreExact(h: Site, desired: Storages, current: Storages, linkedVmId: uint, e: Event)
    requires ValidSite(h) && Sound(h, e.before) && DiskPlan.Valid(desired) && AllConverted(desired)
    requires e.call.Configure? && CanSucceed(h, e) && Ready(desired, current, e.before.staged)
    requires FollowsPlan(h, desired, current, linkedVmId, e.before, e.call.sets, e.call.delete)
    ensures MissesExactly(h, desired, current, linkedVmId, e)
  {
    forall k | k in desired
      ensures CanMiss(h, e, k, desired[k], SizeForNow(h, desired[k], Get(current, k))) <==>
              Missable(h, desired[k], Get(current, k), At(e.before.staged, k), linkedVmId)
    {
      MissExactly(h, desired, current, linkedVmId, e, k);
    }
  }

  lemma UnnamedMisses(h: Site, desired: Storages, current: Storages, linkedVmId: uint, e: Event, t0: VmState, k: Key)
    requires ValidSite(h) && Sound(h, e.before) && DiskPlan.Valid(desired) && AllConverted(desired) && k in desired
    requires e.call.Configure? && Outcome(h, e, t0) && Ready(desired, current, e.before.staged)
    requires FollowsPlan(h, desired, current, linkedVmId, e.before, e.call.sets, e.call.delete)
    requires Unnamed(h, desired[k], Get(current, k), At(e.before.staged, k), linkedVmId)
    ensures CanMiss(h, e, k, desired[k], SizeForNow(h, desired[k], Get(current, k)))
  {
    var staged := e.before.staged;
    assert IsSlot(k) && Converted(desired[k], k.bus) && ValidStorage(desired[k]);
    assert SoundSlot(h, k, staged[k]);
    assert ReadySlot(k, desired[k], Get(current, k), At(staged, k));
    var after := UnnamedCanMiss(h, k, desired[k], Get(current, k), At(staged, k), linkedVmId);
    assert PlanOf(desired, current, k, h.vmId, linkedVmId) ==
           PlanSlot(Some(desired[k]), Get(current, k), h.vmId, linkedVmId);
    OtherOutcome(h, e, t0, k, Some(after), false);
    assert At(Varied(e.before, t0, k, Some(after), false).staged, k) == Some(after);
  }

  // ---------------------------------------------------------------- what is created, what is left alone

  /** The call creates a disk exactly where one is wanted and none is, or one that would have to shrink. */
  lemma NewDisksExactly(h: Site, desired: Storages, current: Storages, linkedVmId: uint, e: Event, k: Key)
    requires DiskPlan.Valid(desired) && AllConverted(desired) && k in desired && e.call.Configure?
    requires FollowsPlan(h, desired, current, linkedVmId, e.before, e.call.sets, e.call.delete)
    ensures CreatesAt(e, k) <==> Created(Some(desired[k]), Get(current, k))
  {
    assert IsSlot(k) && ValidStorage(desired[k]);
    assert PlanOf(desired, current, k, h.vmId, linkedVmId) ==
           PlanSlot(Some(desired[k]), Get(current, k), h.vmId, linkedVmId);
  }

  predicate CreatesAt(e: Event, k: Key)
    requires e.call.Configure?
  {
    k in e.call.sets && e.call.sets[k].SetNewDisk?
  }

  /** A slot that is as asked for is left alone, so that an update of a guest that is as desired sends
      nothing for its drives. */
  lemma SettledSlotIsLeftAlone(h: Site, k: Key, s: Storage, slot: Option<Slot>, linkedVmId: uint)
    requires ValidSite(h) && IsSlot(k) && ValidStorage(s) && Converted(s, k.bus)
    requires (slot.Some? ==> SoundSlot(h, k, slot.value)) && HoldsAs(s, slot)
    ensures PlanSlot(Some(s), if slot.Some? then Some(Seen(slot.value, k.bus)) else None, h.vmId, linkedVmId) == Keep
  {
    if s.disk.Some? {
      var d := slot.value;
      Reading.VolumePathIsRead(d.path);
      ForBusIs(d.options, s.disk.value.options, s.disk.value.bus);
      KeptDiskPlan(h, k, s, d.path, d.sizeKiB, d.options, linkedVmId);
    } else if s.passthrough.Some? {
      ForBusIs(slot.value.options, s.passthrough.value.options, s.passthrough.value.bus);
    }
  }

  // ---------------------------------------------------------------- what the caller can check

  /** The configuration without the disks that are moved. */
  ghost function Unmoved(desired: Storages, l: Layout): Layout {
    map k | k in l && MoveOf(Get(desired, k), Get(View(l), k), k).None? :: l[k]
  }

  /** A disk that is wanted where one is, no smaller, in the storage and the format it is in. */
  predicate Stays(desired: Storages, l: Layout, k: Key) {
    && k.Drive? && k in desired && desired[k].disk.Some? && k in l && l[k].DiskSlot?
    && l[k].sizeKiB <= desired[k].disk.value.sizeKiB
    && ParsePath(l[k].path).storage == desired[k].disk.value.storage
    && ParsePath(l[k].path).format == desired[k].disk.value.format
  }

  lemma StaysExactly(h: Site, desired: Storages, l: Layout, k: Key)
    requires SoundLayout(h, l)
    ensures Stays(desired, l, k) <==>
            KeptAt(desired, l, k) && MoveOf(Get(desired, k), Get(View(l), k), k).None?
    ensures KeptAt(desired, l, k) <==>
            k.Drive? && k in desired && desired[k].disk.Some? && k in l && l[k].DiskSlot? &&
            l[k].sizeKiB <= desired[k].disk.value.sizeKiB
  {
    if k in l {
      assert SoundSlot(h, k, l[k]);
    }
  }

  /** A kept disk that is to get other options, stays where it is, and whose path is none the client
      prints for this guest and the base guest it takes for all: that of the last linked disk that stays
      where it is. */
  ghost predicate Misnamed(h: Site, desired: Storages, l: Layout, k: Key) {
    && Stays(desired, l, k)
    && !OptionsFor(l[k].options, desired[k].disk.value.options, desired[k].disk.value.bus)
    && exists id: uint :: LinkedVmSeen(Unmoved(desired, l), id) && !Attached(h, l[k].path, id)
  }

  /** The slots a run can miss. */
  ghost predicate MayMiss(h: Site, desired: Storages, l: Layout, k: Key)
    requires k in desired
  {
    Misread(desired[k]) || Misnamed(h, desired, l, k)
  }

  /** After the moves the client reads the linked VM id of the disks that stayed. */
  lemma LinkedAfterMoves(h: Site, desired: Storages, l: Layout, l1: Layout, l2: Layout, gone: set<Key>, id: uint)
    requires ValidSite(h) && SoundLayout(h, l) && Prepared(h, desired, l, l1) && l2 == Without(l1, gone) &&
             OnlyDisplaced(desired, l, gone)
    ensures LinkedVmSeen(l2, id) <==> LinkedVmSeen(Unmoved(desired, l), id)
  {
    forall k
      ensures LinkedVmAt(l2, k) == LinkedVmAt(Unmoved(desired, l), k)
    {
      if k.Drive? {
        LinkedAfterMove(h, desired, l, l1, l2, gone, k);
      }
    }
    SameLinked(l2, Unmoved(desired, l), id);
  }

  lemma LinkedAfterMove(h: Site, desired: Storages, l: Layout, l1: Layout, l2: Layout, gone: set<Key>, k: Key)
    requires ValidSite(h) && SoundLayout(h, l) && Prepared(h, desired, l, l1) && l2 == Without(l1, gone) &&
             OnlyDisplaced(desired, l, gone)
    requires k.Drive?
    ensures LinkedVmAt(l2, k) == LinkedVmAt(Unmoved(desired, l), k)
  {
    if KeptAt(desired, l, k) {
      KeptIsDisk(h, desired, l, k);
      assert k !in gone;
      var d := desired[k].disk.value;
      if MoveOf(Get(desired, k), Get(View(l), k), k).Some? {
        OwnPathReads(h, l1[k].path, d.storage, d.format);
      }
    } else {
      assert At(l1, k) == At(l, k);
    }
  }

  /** Every disk has a path the client prints for this guest, and all linked disks give one base guest. */
  ghost predicate Canonical(h: Site, l: Layout) {
    && (forall k: Key | k.Drive? && k in l && l[k].DiskSlot? :: CanonicalPath(h, l[k].path))
    && (forall a, b | IsLinked(l, a) && IsLinked(l, b) :: LinkedVmAt(l, a) == LinkedVmAt(l, b))
  }

  ghost predicate CanonicalPath(h: Site, path: string) {
    exists v :: DiskPath.Printable(v) && NumbersFit(v) && v.owner == h.vmId && path == PathText(v)
  }

  /** In such a configuration every disk is named, whatever is asked for. */
  lemma CanonicalIsNamed(h: Site, desired: Storages, l: Layout, k: Key)
    requires Canonical(h, l)
    ensures !Misnamed(h, desired, l, k)
  {
    if Stays(desired, l, k) {
      assert MoveOf(Get(desired, k), Get(View(l), k), k).None?;
      forall id: uint | LinkedVmSeen(Unmoved(desired, l), id)
        ensures Attached(h, l[k].path, id)
      {
        CanonicalIsAttached(h, desired, l, k, id);
      }
    }
  }

  lemma CanonicalIsAttached(h: Site, desired: Storages, l: Layout, k: Key, id: uint)
    requires Canonical(h, l) && LinkedVmSeen(Unmoved(desired, l), id)
    requires k.Drive? && k in l && l[k].DiskSlot? && MoveOf(Get(desired, k), Get(View(l), k), k).None?
    ensures Attached(h, l[k].path, id)
  {
    var unmoved := Unmoved(desired, l);
    assert CanonicalPath(h, l[k].path);
    var v :| DiskPath.Printable(v) && NumbersFit(v) && v.owner == h.vmId && l[k].path == PathText(v);
    PathRoundTrip(v);
    if v.base.Some? {
      assert LinkedVmAt(l, k) == Some(v.base.value.vm) == LinkedVmAt(unmoved, k);
      assert IsLinked(unmoved, k) && IsLinked(l, k);
      var last :| LastLinked(unmoved, last) && LinkedVmAt(unmoved, last) == Some(id);
      assert IsLinked(l, last) && LinkedVmAt(l, last) == Some(id);
    }
    assert Reading.Names(h, v, id);
  }

  // ---------------------------------------------------------------- layouts that can be missed

  /** A disk that stays where it is and is to get other options, as the only one. */
  lemma OnlyDiskIsMisnamed(h: Site, path: string, size: uint, o: Options, d: QemuDisk)
    requires FitsInt(size) && ParsePath(path).linkedVm.None? && !Attached(h, path, 0)
    requires d.storage == ParsePath(path).storage && d.format == ParsePath(path).format
    requires d.sizeKiB >= size && !OptionsFor(o, d.options, d.bus)
    ensures var k := Drive(Scsi, 0);
            Misnamed(h, map[k := EMPTY.(disk := Some(d))], map[k := DiskSlot(path, size, o)], k)
  {
    var k := Drive(Scsi, 0);
    var desired: Storages, l: Layout := map[k := EMPTY.(disk := Some(d))], map[k := DiskSlot(path, size, o)];
    assert Get(View(l), k) == Some(Seen(l[k], Scsi));
    assert forall j :: !IsLinked(Unmoved(desired, l), j);
    assert LinkedVmSeen(Unmoved(desired, l), 0);
  }

  /** A volume of another guest, whose options are to change. */
  lemma ForeignDiskIsMisnamed(h: Site, v: Volume, size: uint, o: Options, d: QemuDisk)
    requires FitsInt(size) && DiskPath.Printable(v) && NumbersFit(v) && v.owner != h.vmId && v.base.None?
    requires d.storage == v.storage && d.format == Meant(v).format && d.sizeKiB >= size
    requires !OptionsFor(o, d.options, d.bus)
    ensures var k := Drive(Scsi, 0);
            Misnamed(h, map[k := EMPTY.(disk := Some(d))], map[k := DiskSlot(PathText(v), size, o)], k)
  {
    PathRoundTrip(v);
    AttachedExactly(h, v, 0);
    OnlyDiskIsMisnamed(h, PathText(v), size, o, d);
  }

  /** The disk of a template, which belongs to the guest itself but has the name of a base image. */
  lemma TemplateDiskIsMisnamed(h: Site, storage: string, format: string, id: uint, syntax: Syntax, size: uint,
                               o: Options, d: QemuDisk)
    requires FitsInt(size) && ValidFormat(format) && ':' !in storage
    requires d.storage == storage && d.format == (if syntax == FileSyntax then format else RAW)
    requires d.sizeKiB >= size && !OptionsFor(o, d.options, d.bus)
    ensures var k := Drive(Scsi, 0);
            var path := BasePath(storage, h.vmId, id, format, syntax);
            Misnamed(h, map[k := EMPTY.(disk := Some(d))], map[k := DiskSlot(path, size, o)], k)
  {
    var path := BasePath(storage, h.vmId, id, format, syntax);
    ValidFormatIsPlain(format);
    BasePathIsRead(storage, h.vmId, id, format, syntax);
    BaseIsNotAttached(h, storage, id, format, syntax, 0);
    OnlyDiskIsMisnamed(h, path, size, o, d);
  }

  /** An ISO file whose storage has a colon: its text can be that of another file on the server, which is then
      left there. */
  lemma ColonIsoIsMisread(h: Site, k: Key, storage: string, a: string, b: string, linkedVmId: uint)
    ensures var wanted := CdRom(Some(IsoFile(storage + ":iso/" + a, b)), false);
            var there := CdRom(Some(IsoFile(storage, a + ":iso/" + b)), false);
            var s := EMPTY.(cdRom := Some(wanted));
            && PlanSlot(Some(s), Some(EMPTY.(cdRom := Some(there))), h.vmId, linkedVmId) == Keep
            && Misread(s) && !HoldsAs(s, Some(CdRomSlot(there)))
  {
    var wanted := CdRom(Some(IsoFile(storage + ":iso/" + a, b)), false);
    var there := CdRom(Some(IsoFile(storage, a + ":iso/" + b)), false);
    assert ":iso/"[0] == ':';
    assert CdRomText(wanted) == (storage + ":iso/" + a) + ":iso/" + b + ",media=cdrom";
    assert CdRomText(there) == storage + ":iso/" + (a + ":iso/" + b) + ",media=cdrom";
    assert |storage + ":iso/" + a| > |storage|;
  }

  lemma NewFileIsSet(current: Storages, k: Key, d: QemuDisk, vmID: uint)
    requires k !in current
    ensures SetsOf(map[k := EMPTY.(passthrough := Some(d))], current, vmID, 0) ==
            map[k := SetFile(d.file, ForBus(d.options, d.bus))]
  {
    var desired: Storages := map[k := EMPTY.(passthrough := Some(d))];
    assert PlanOf(desired, current, k, vmID, 0) == Set(SetFile(d.file, ForBus(d.options, d.bus)));
  }

  /** A guest with nothing but this device. */
  lemma NewFileIsStored(h: Site, k: Key, file: string, o: Options)
    requires Absolute(file) && SoundSlot(h, k, FileOf(file + OptionText(o, None)))
    ensures var s, l := VmState(map[], map[], false), map[k := FileOf(file + OptionText(o, None))];
            Outcome(h, Event(Configure(map[k := SetFile(file, o)], ""), s, s, false), VmState(l, l, false))
  {
  }

  lemma OneFileIsValid(d: QemuDisk, k: Key)
    requires IsSlot(k) && ValidDisk(d) && !d.isDisk && d.storage == "" && d.bus == k.bus
    ensures var desired: Storages := map[k := EMPTY.(passthrough := Some(d))];
            DiskPlan.Valid(desired) && AllConverted(desired)
  {
  }

  lemma FrontIsOther(d: QemuDisk, slot: Slot)
    requires slot.FileSlot? && PlainFile(slot.file) && ',' in d.file
    ensures !HoldsSized(EMPTY.(passthrough := Some(d)), Some(slot), 0) && Misread(EMPTY.(passthrough := Some(d)))
  {
  }

  /** A passthrough file with a comma: a configuration call that creates the device succeeds, and leaves a
      read-only device with another file. */
  lemma CommaFileIsMisread(h: Site, front: string, o: Options)
    requires ValidSite(h) && PlainFile(front) && ValidOptions(o) && !o.readOnly
    ensures var k := Drive(Scsi, 0);
            var d := QemuDisk(o, false, front + [','] + "ro=1", FileSyntax, "", 0, None, 0, "", Scsi);
            var desired: Storages := map[k := EMPTY.(passthrough := Some(d))];
            var sets := SetsOf(desired, map[], h.vmId, 0);
            var s, l := VmState(map[], map[], false), map[k := FileSlot(front, ForBus(o, Scsi).(readOnly := true))];
            var e := Event(Configure(sets, ""), s, s, false);
            && DiskPlan.Valid(desired) && AllConverted(desired) && MayMiss(h, desired, map[], k)
            && Outcome(h, e, VmState(l, l, false)) && CanMiss(h, e, k, desired[k], 0)
  {
    var k := Drive(Scsi, 0);
    var d := QemuDisk(o, false, front + [','] + "ro=1", FileSyntax, "", 0, None, 0, "", Scsi);
    var desired: Storages := map[k := EMPTY.(passthrough := Some(d))];
    var sets := SetsOf(desired, map[], h.vmId, 0);
    var s, l := VmState(map[], map[], false), map[k := FileSlot(front, ForBus(o, Scsi).(readOnly := true))];
    var e := Event(Configure(sets, ""), s, s, false);
    FileCanSetOption(front, o, Scsi);
    assert OptionName(RO) + "=" + "1" == "ro=1";
    NewFileIsSet(map[], k, d, h.vmId);
    NewFileIsStored(h, k, d.file, ForBus(o, Scsi));
    FrontIsOther(d, l[k]);
    OneFileIsValid(d, k);
    assert Outcome(h, e, VmState(l, l, false));
  }

  // ---------------------------------------------------------------- a second one: call and start

  /** A device is left alone only when its file is absolute. */
  lemma FileKeptIsAbsolute(h: Site, k: Key, s: Storage, current: Option<Storage>, slot: Option<Slot>, linkedVmId: uint)
    requires IsSlot(k) && ValidStorage(s) && Converted(s, k.bus) && s.passthrough.Some?
    requires ReadySlot(k, s, current, slot)
    requires slot.Some? ==> SoundSlot(h, k, slot.value)
    requires PlanSlot(Some(s), current, h.vmId, linkedVmId).Keep?
    ensures slot.Some? && slot.value.FileSlot? && Absolute(s.passthrough.value.file)
  {
    var p := s.passthrough.value;
    var w := SetFile(p.file, ForBus(p.options, k.bus));
    assert Wanted(s, current, h.vmId, linkedVmId) == Some(w);
    var held := slot.value;
    assert Held(current, w, h.vmId, linkedVmId) == Some(SetFile(held.file, held.options));
    assert ValueText(SetFile(held.file, held.options))[0] == held.file[0];
    assert ValueText(w)[0] == p.file[0];
  }

  /** A slot may hold a cloud-init disk after a planned call exactly when it may judging by what is
      desired. */
  lemma HolderIsPlanned(h: Site, desired: Storages, current: Storages, linkedVmId: uint, e: Event, k: Key)
    requires Sound(h, e.before) && DiskPlan.Valid(desired) && AllConverted(desired)
    requires e.call.Configure? && Ready(desired, current, e.before.staged)
    requires FollowsPlan(h, desired, current, linkedVmId, e.before, e.call.sets, e.call.delete)
    ensures MayHold(e, k) <==> HolderAt(desired, e.before, k)
  {
    var s := e.before;
    assert k in s.staged ==> SoundSlot(h, k, s.staged[k]);
    if k in desired {
      assert IsSlot(k) && Converted(desired[k], k.bus) && ValidStorage(desired[k]);
      assert ReadySlot(k, desired[k], Get(current, k), At(s.staged, k));
      PlannedHolder(h, k, desired[k], Get(current, k), At(s.staged, k), linkedVmId);
    }
  }

  /** What the plan of a mentioned slot says about cloud-init disks. */
  lemma PlannedHolder(h: Site, k: Key, s: Storage, current: Option<Storage>, slot: Option<Slot>, linkedVmId: uint)
    requires IsSlot(k) && ValidStorage(s) && Converted(s, k.bus) && ReadySlot(k, s, current, slot)
    requires slot.Some? ==> SoundSlot(h, k, slot.value)
    ensures match PlanSlot(Some(s), current, h.vmId, linkedVmId)
            case Set(value) => LeadsToCloudInit(value) <==> AsksForCloudInit(s)
            case Remove => !AsksForCloudInit(s)
            case Keep => AsksForCloudInit(s) <==> slot.Some? && slot.value.CloudInitSlot?
  {
    if s.cdRom.Some? && CommaCdRom(s.cdRom.value) && slot.Some? && slot.value.CdRomSlot? {
      CommaCdRomDiffers(s.cdRom.value, slot.value.cdRom);
    }
    if s.passthrough.Some? {
      if PlanSlot(Some(s), current, h.vmId, linkedVmId).Keep? {
        FileKeptIsAbsolute(h, k, s, current, slot, linkedVmId);
      }
    }
  }

  /** So two slots may hold one exactly when two may judging by what is desired. */
  lemma SamePlanned(h: Site, desired: Storages, current: Storages, linkedVmId: uint, e: Event)
    requires Sound(h, e.before) && DiskPlan.Valid(desired) && AllConverted(desired)
    requires e.call.Configure? && Ready(desired, current, e.before.staged)
    requires FollowsPlan(h, desired, current, linkedVmId, e.before, e.call.sets, e.call.delete)
    ensures TwoMayHold(e) <==> TwoHolders(desired, e.before)
  {
    forall k
      ensures MayHold(e, k) <==> HolderAt(desired, e.before, k)
    {
      HolderIsPlanned(h, desired, current, linkedVmId, e, k);
    }
  }

  // ---------------------------------------------------------------- states in which a second one is possible

  /** A guest without pending changes gets no second one, wherever the one it has is moved to, unless a text
      is sent that the server may take for one. */
  lemma NoneWithoutPending(h: Site, desired: Storages, recreate: bool, s: VmState)
    requires Sound(h, s) && s.active == s.staged && Single(s.staged) && AtMostOneCloudInit(desired)
    requires forall k | k in desired && AsksForCloudInit(desired[k]) :: desired[k].cloudInit.Some?
    ensures !SecondPossible(desired, recreate, s)
  {
    forall k
      ensures Holder(desired, recreate, s, s.running, k) ==> HasCloudInit(desired, k) || Left(desired, s, k)
      ensures Left(desired, s, k) && !HasCloudInit(desired, k) ==> forall n :: !HasCloudInit(desired, n)
      ensures Left(desired, s, k) ==> IsCloudInit(s.active, k)
    {
      assert k in s.staged ==> SoundSlot(h, k, s.staged[k]);
    }
  }

  /** While the removal of a cloud-init disk is still pending, the client does not see the disk, an update
      that wants one elsewhere displaces nothing, and its call may give the guest two. */
  lemma PendingRemovalAllowsTwo(h: Site, c: CloudInitDisk)
    requires PlainCloudInit(c)
    ensures var old_, new_ := Drive(Ide, 2), Drive(Ide, 3);
            var s := VmState(map[old_ := CloudInitSlot(c)], map[], true);
            var t := VmState(map[old_ := CloudInitSlot(c), new_ := CloudInitSlot(c)], map[new_ := CloudInitSlot(c)],
                             true);
            var desired: Storages := map[new_ := EMPTY.(cloudInit := Some(c))];
            && OneEach(s) && SecondPossible(desired, false, s)
            && Configured(h, s, t, SetsOf(desired, View(s.staged), h.vmId, 0), "")
            && TwoIn(t.active, old_, new_)
  {
    var old_, new_ := Drive(Ide, 2), Drive(Ide, 3);
    var desired: Storages := map[new_ := EMPTY.(cloudInit := Some(c))];
    var s := VmState(map[old_ := CloudInitSlot(c)], map[], true);
    assert Holder(desired, false, s, true, old_) && Holder(desired, false, s, true, new_);
    assert PlanOf(desired, View(s.staged), new_, h.vmId, 0) == Set(SetCloudInit(c));
    assert SetsOf(desired, View(s.staged), h.vmId, 0) == map[new_ := SetCloudInit(c)];
  }

  /** When that call leaves both changes pending, the next call may give the guest two even when it
      changes nothing. */
  lemma StagedElsewhereAllowsTwo(h: Site, c: CloudInitDisk)
    requires PlainCloudInit(c)
    ensures var old_, new_ := Drive(Ide, 2), Drive(Ide, 3);
            var s := VmState(map[old_ := CloudInitSlot(c)], map[new_ := CloudInitSlot(c)], true);
            var t := s.(active := map[old_ := CloudInitSlot(c), new_ := CloudInitSlot(c)]);
            && OneEach(s) && SecondPossible(map[], false, s) && Configured(h, s, t, map[], "")
            && TwoIn(t.active, old_, new_)
  {
    var old_, new_ := Drive(Ide, 2), Drive(Ide, 3);
    var s := VmState(map[old_ := CloudInitSlot(c)], map[new_ := CloudInitSlot(c)], true);
    assert Holder(map[], false, s, true, old_) && Holder(map[], false, s, true, new_);
    NamedInList([], s.staged.Keys);
    assert NamedIn("", s.staged.Keys) == {};
  }

  /** So may a call that sets a passthrough device whose file is not absolute, which names a cloud-init
      disk to the server. */
  lemma RelativeFileAllowsTwo(h: Site, c: CloudInitDisk, file: string, o: Options)
    requires file != "" && !Absolute(file) && PlainCloudInit(c)
    ensures var old_, new_ := Drive(Ide, 2), Drive(Scsi, 0);
            var l: Layout := map[old_ := CloudInitSlot(c)];
            var l': Layout := l[new_ := CloudInitSlot(c)];
            var d := QemuDisk(o, false, file, FileSyntax, "", 0, None, 0, "", Scsi);
            var desired: Storages := map[new_ := EMPTY.(passthrough := Some(d))];
            && SecondPossible(desired, false, VmState(l, l, false))
            && Configured(h, VmState(l, l, false), VmState(l', l', false), SetsOf(desired, View(l), h.vmId, 0), "")
            && TwoIn(l', old_, new_)
  {
    var old_, new_ := Drive(Ide, 2), Drive(Scsi, 0);
    var l: Layout := map[old_ := CloudInitSlot(c)];
    var d := QemuDisk(o, false, file, FileSyntax, "", 0, None, 0, "", Scsi);
    var desired: Storages := map[new_ := EMPTY.(passthrough := Some(d))];
    var s := VmState(l, l, false);
    assert Left(desired, s, old_) && Holder(desired, false, s, false, old_) && Holder(desired, false, s, false, new_);
    NewFileIsSet(View(l), new_, d, h.vmId);
    NamedInList([], l.Keys);
    assert NamedIn("", l.Keys) == {};
  }
}

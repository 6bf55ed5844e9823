/** Guest memory and ballooning (proxmox/config_qemu_memory.go). */
module MemoryConfig {
  import opened Text
  import opened Keys
  import opened ApiParams

  /** `QemuMemory`, as a request and as the state read from the server. */
  datatype QemuMemory = QemuMemory(capacity: Option<nat>, balloon: Option<nat>, shares: Option<nat>)

  const CAPACITY_MAX: nat := 4178944
  const SHARES_MAX: nat := 50000

  /** `QemuMemory.Validate`. */
  method Validate(config: QemuMemory, current: Option<QemuMemory>) returns (ok: bool)
    ensures ok <==> Valid(config, current)
  {
    var eventualCapacity, eventualMinimum: nat := 0, 0;
    if config.balloon.Some? {
      if config.balloon.value > CAPACITY_MAX {
        return false;
      }
      if config.capacity.Some? && config.balloon.value > config.capacity.value {
        return false;
      }
      eventualMinimum := config.balloon.value;
      eventualCapacity := eventualMinimum;
    } else if current.Some? && current.value.balloon.Some? {
      eventualMinimum := current.value.balloon.value;
    }
    if config.capacity.Some? {
      if config.capacity.value == 0 || config.capacity.value > CAPACITY_MAX {
        return false;
      }
      eventualCapacity := config.capacity.value;
    } else if current.Some? && current.value.capacity.Some? {
      eventualCapacity := current.value.capacity.value;
    }
    if eventualCapacity == 0 {
      return false;
    }
    if config.shares.Some? {
      if config.shares.value > SHARES_MAX {
        return false;
      }
      if config.shares.value > 0 && eventualCapacity == eventualMinimum {
        return false;
      }
    }
    ok := true;
  }

  /** The capacity after the update as the validation sees it. */
  function EventualCapacity(config: QemuMemory, current: Option<QemuMemory>): nat {
    if config.capacity.Some? then config.capacity.value
    else if current.Some? && current.value.capacity.Some? then current.value.capacity.value
    else if config.balloon.Some? then config.balloon.value
    else 0
  }

  function EventualMinimum(config: QemuMemory, current: Option<QemuMemory>): nat {
    if config.balloon.Some? then config.balloon.value
    else if current.Some? && current.value.balloon.Some? then current.value.balloon.value
    else 0
  }

  predicate Valid(config: QemuMemory, current: Option<QemuMemory>) {
    && (config.balloon.Some? ==> config.balloon.value <= CAPACITY_MAX)
    && (config.capacity.Some? ==> 1 <= config.capacity.value <= CAPACITY_MAX)
    && (config.balloon.Some? && config.capacity.Some? ==> config.balloon.value <= config.capacity.value)
    && EventualCapacity(config, current) > 0
    && (config.shares.Some? ==> config.shares.value <= SHARES_MAX)
    && (config.shares.Some? && config.shares.value > 0 ==>
         EventualCapacity(config, current) != EventualMinimum(config, current))
  }

  // ---------------------------------------------------------------- what is sent

  /** The parameters of a call: what is set, and whether the shares are deleted. */
  datatype Sent = Sent(memory: Option<nat>, balloon: Option<nat>, shares: Option<nat>, deleteShares: bool)

  /** The current balloon no longer fits below the new capacity. */
  predicate Squeezes(config: QemuMemory, current: QemuMemory) {
    config.capacity.Some? && config.balloon.None? && current.balloon.Some? &&
    current.balloon.value > config.capacity.value
  }

  function SentOf(config: QemuMemory, current: Option<QemuMemory>): Sent {
    match current
    case None =>
      Sent(if config.capacity.Some? then config.capacity else config.balloon, config.balloon,
           if config.shares.Some? && config.shares.value > 0 then config.shares else None, false)
    case Some(c) =>
      if Squeezes(config, c) then Sent(config.capacity, config.capacity, None, true)
      else if config.balloon == Some(0) then Sent(config.capacity, Some(0), None, true)
      else if config.shares == Some(0) then Sent(config.capacity, config.balloon, None, true)
      else Sent(config.capacity, config.balloon, config.shares, false)
  }

  /** The values a call writes over the parameters collected before it. */
  function Writes(base: map<Key, Value>, s: Sent): map<Key, Value> {
    var withMemory := if s.memory.Some? then base[Plain(Memory) := SetNumber(s.memory.value)] else base;
    var withBalloon := if s.balloon.Some? then withMemory[Plain(Balloon) := SetNumber(s.balloon.value)] else withMemory;
    if s.shares.Some? then withBalloon[Plain(Shares) := SetNumber(s.shares.value)] else withBalloon
  }

  function DeletedKeys(config: QemuMemory, current: Option<QemuMemory>): seq<Key> {
    if SentOf(config, current).deleteShares then [Plain(Shares)] else []
  }

  /** `QemuMemory.mapToAPI`. */
  method MapToApi(config: QemuMemory, current: Option<QemuMemory>, params: Params) returns (delete: string)
    modifies params
    ensures params.values == Writes(old(params.values), SentOf(config, current))
    ensures delete == if SentOf(config, current).deleteShares then ",shares" else ""
  {
    if current.None? { // create
      if config.capacity.Some? {
        params.values := params.values[Plain(Memory) := SetNumber(config.capacity.value)];
      }
      if config.balloon.Some? {
        ghost var before := params.values;
        params.values := params.values[Plain(Balloon) := SetNumber(config.balloon.value)];
        if config.capacity.None? {
          params.values := params.values[Plain(Memory) := SetNumber(config.balloon.value)];
          assert params.values ==
            before[Plain(Memory) := SetNumber(config.balloon.value)][Plain(Balloon) := SetNumber(config.balloon.value)];
        }
      }
      if config.shares.Some? && config.shares.value > 0 {
        params.values := params.values[Plain(Shares) := SetNumber(config.shares.value)];
      }
      return "";
    }
    if config.capacity.Some? {
      params.values := params.values[Plain(Memory) := SetNumber(config.capacity.value)];
      if config.balloon.None? && current.value.balloon.Some? && current.value.balloon.value > config.capacity.value {
        params.values := params.values[Plain(Balloon) := SetNumber(config.capacity.value)];
        return ",shares";
      }
    }
    if config.balloon.Some? {
      params.values := params.values[Plain(Balloon) := SetNumber(config.balloon.value)];
      if config.balloon.value == 0 {
        return ",shares";
      }
    }
    if config.shares.Some? {
      if config.shares.value == 0 {
        return ",shares";
      }
      params.values := params.values[Plain(Shares) := SetNumber(config.shares.value)];
    }
    return "";
  }

  /** Shares are never both set and deleted. */
  lemma SharesSetOrDeleted(config: QemuMemory, current: Option<QemuMemory>)
    ensures !(SentOf(config, current).shares.Some? && SentOf(config, current).deleteShares)
  {
  }

  // ---------------------------------------------------------------- on the server

  const MEMORY_WORDS: set<Word> := {Memory, Balloon, Shares}

  /** A 32-bit number under a parameter name. */
  function Read32(texts: map<Key, string>, w: Word): Option<nat> {
    match NumberAt(texts, w) case Some(n) => Some(n % 0x1_0000_0000) case None => None
  }

  /** `QemuMemory.mapToSDK`. */
  function Read(texts: map<Key, string>): QemuMemory {
    QemuMemory(Read32(texts, Memory), Read32(texts, Balloon), Read32(texts, Shares))
  }

  /** A smaller capacity without a balloon pulls down the balloon that is there. */
  predicate Shrinks(config: QemuMemory, before: map<Key, string>) {
    config.capacity.Some? && config.balloon.None? && Read32(before, Balloon).Some? &&
    Read32(before, Balloon).value > config.capacity.value
  }

  /** The memory parameters are as asked for, in terms of the fields of the configuration: a new guest
      without a capacity gets the memory of its balloon; a balloon is set as given, and pulled down to a
      smaller capacity; shares are set as given, and removed from an existing guest when they are zero,
      when the balloon is, or when the balloon is pulled down. */
  predicate AsAsked(config: QemuMemory, exists_: bool, before: map<Key, string>, after: map<Key, string>) {
    && TextAt(after, Plain(Memory)) == (
         if config.capacity.Some? then Some(Decimal(config.capacity.value))
         else if !exists_ && config.balloon.Some? then Some(Decimal(config.balloon.value))
         else TextAt(before, Plain(Memory)))
    && TextAt(after, Plain(Balloon)) == (
         if config.balloon.Some? then Some(Decimal(config.balloon.value))
         else if exists_ && Shrinks(config, before) then Some(Decimal(config.capacity.value))
         else TextAt(before, Plain(Balloon)))
    && TextAt(after, Plain(Shares)) == (
         if exists_ && (Shrinks(config, before) || config.balloon == Some(0) || config.shares == Some(0)) then None
         else if config.shares.Some? && config.shares.value > 0 then Some(Decimal(config.shares.value))
         else TextAt(before, Plain(Shares)))
  }

  function SentValue(config: QemuMemory, current: Option<QemuMemory>, w: Word): Option<Value> {
    var values := Writes(map[], SentOf(config, current));
    if Plain(w) in values then Some(values[Plain(w)]) else None
  }

  /** What a call leaves of the memory parameters. */
  ghost predicate CallPatches(config: QemuMemory, current: Option<QemuMemory>, before: map<Key, string>,
                              after: map<Key, string>) {
    forall w | w in MEMORY_WORDS ::
      Patched(before, after, Plain(w), SentValue(config, current, w), Plain(w) in DeletedKeys(config, current))
  }

  predicate IsCurrent(current: Option<QemuMemory>, before: map<Key, string>) {
    current == Some(Read(before)) || (current.None? && before == map[])
  }

  lemma CallIsAsAsked(config: QemuMemory, current: Option<QemuMemory>, before: map<Key, string>,
                      after: map<Key, string>)
    requires IsCurrent(current, before) && CallPatches(config, current, before, after)
    ensures AsAsked(config, current.Some?, before, after)
  {
    assert Memory in MEMORY_WORDS && Balloon in MEMORY_WORDS && Shares in MEMORY_WORDS;
  }

  // ---------------------------------------------------------------- over every sequence of updates

  /** The guest after a call. */
  function Apply(current: QemuMemory, s: Sent): QemuMemory {
    QemuMemory(
      if s.memory.Some? then s.memory else current.capacity,
      if s.balloon.Some? then s.balloon else current.balloon,
      if s.shares.Some? then s.shares else if s.deleteShares then None else current.shares)
  }

  function Update(current: QemuMemory, config: QemuMemory): QemuMemory {
    Apply(current, SentOf(config, Some(current)))
  }

  /** The balloon does not exceed the memory. */
  predicate Consistent(m: QemuMemory) {
    m.capacity.Some? && m.balloon.Some? ==> m.balloon.value <= m.capacity.value
  }

  /** What has to be checked before an update. The validation does not compare a new balloon with
      the current capacity when no capacity is named. */
  predicate Guarded(current: QemuMemory, config: QemuMemory) {
    config.capacity.Some? || config.balloon.None? || current.capacity.None? ||
    config.balloon.value <= current.capacity.value
  }

  /** A validated update keeps the balloon within the memory exactly when it is guarded. */
  lemma UpdateConsistent(current: QemuMemory, config: QemuMemory)
    requires Consistent(current) && Valid(config, Some(current))
    ensures Consistent(Update(current, config)) <==> Guarded(current, config)
  {
  }

  /** The unguarded case exists: a validated update that names only a balloon above the memory. */
  lemma BalloonCanExceedMemory()
    ensures var current, config := QemuMemory(Some(1024), None, None), QemuMemory(None, Some(2048), None);
            Consistent(current) && Valid(config, Some(current)) && !Consistent(Update(current, config))
  {
  }

  /** The guest after a sequence of updates. */
  function Run(start: QemuMemory, configs: seq<QemuMemory>): QemuMemory {
    if configs == [] then start else Update(Run(start, configs[..|configs| - 1]), configs[|configs| - 1])
  }

  /** Every update is validated and guarded in the state it meets. */
  ghost predicate AllGuarded(start: QemuMemory, configs: seq<QemuMemory>) {
    forall i | 0 <= i < |configs| ::
      var current := Run(start, configs[..i]);
      Valid(configs[i], Some(current)) && Guarded(current, configs[i])
  }

  /** Over every sequence of validated, guarded updates of a guest that was created from a
      validated configuration, the balloon never exceeds the memory. */
  lemma {:induction false} BalloonWithinMemory(start: QemuMemory, configs: seq<QemuMemory>)
    requires Consistent(start) && AllGuarded(start, configs)
    ensures Consistent(Run(start, configs))
  {
    if configs != [] {
      var n := |configs| - 1;
      PrefixGuarded(start, configs);
      BalloonWithinMemory(start, configs[..n]);
      UpdateConsistent(Run(start, configs[..n]), configs[n]);
    }
  }

  lemma PrefixGuarded(start: QemuMemory, configs: seq<QemuMemory>)
    requires configs != [] && AllGuarded(start, configs)
    ensures AllGuarded(start, configs[..|configs| - 1])
    ensures var n := |configs| - 1;
            Valid(configs[n], Some(Run(start, configs[..n]))) && Guarded(Run(start, configs[..n]), configs[n])
  {
    var n := |configs| - 1;
    assert forall i | 0 <= i < n :: configs[..n][..i] == configs[..i];
  }

  /** A validated creation gives a guest whose balloon is within its memory. */
  lemma CreationConsistent(config: QemuMemory)
    requires Valid(config, None)
    ensures Consistent(Created(config))
  {
  }

  function Created(config: QemuMemory): QemuMemory { Apply(QemuMemory(None, None, None), SentOf(config, None)) }

  /** From the creation of a guest on, over every sequence of guarded updates. */
  lemma BalloonWithinMemoryForLife(creation: QemuMemory, configs: seq<QemuMemory>)
    requires Valid(creation, None) && AllGuarded(Created(creation), configs)
    ensures Consistent(Run(Created(creation), configs))
  {
    CreationConsistent(creation);
    BalloonWithinMemory(Created(creation), configs);
  }

  /** Whenever a creation or an update sends shares, the memory that results differs from the
      balloon that results, so that there is something to share. */
  lemma SharesImplyBallooning(config: QemuMemory, current: Option<QemuMemory>)
    requires Valid(config, current)
    requires SentOf(config, current).shares.Some?
    ensures var before := if current.Some? then current.value else QemuMemory(None, None, None);
            var after := Apply(before, SentOf(config, current));
            after.capacity.Some? && after.balloon != after.capacity
  {
  }
}

/** Pool membership: setting the guests of a pool before and since version 8 of the server, and
    moving one guest between pools (proxmox/config_pool.go, proxmox/config_guest.go). */
module Pools {
  import opened Text

  // ---------------------------------------------------------------- lists of guests

  /** `subtractArray` (proxmox/util.go). */
  method SubtractArray(a: seq<uint>, b: seq<uint>) returns (result: seq<uint>)
    ensures result == Subtract(a, b)
  {
    var elements: set<uint> := {};
    for i := 0 to |b|
      invariant forall x: uint :: x in elements <==> x in b[..i]
    {
      elements := elements + {b[i]};
    }
    result := [];
    for i := 0 to |a|
      invariant result == Subtract(a[..i], b)
    {
      assert a[..i + 1][..i] == a[..i];
      if a[i] !in elements {
        result := result + [a[i]];
      }
    }
    assert a[..|a|] == a;
  }

  function Subtract(a: seq<uint>, b: seq<uint>): seq<uint> {
    if a == [] then []
    else
      var n := |a| - 1;
      Subtract(a[..n], b) + if a[n] !in b then [a[n]] else []
  }

  function Members(s: seq<uint>): set<uint> { set x | x in s }

  lemma {:induction false} SubtractIs(a: seq<uint>, b: seq<uint>)
    ensures Members(Subtract(a, b)) == Members(a) - Members(b)
  {
    if a != [] {
      var n := |a| - 1;
      SubtractIs(a[..n], b);
      assert a == a[..n] + [a[n]];
      assert Members(a) == Members(a[..n]) + {a[n]};
      var last := if a[n] !in b then [a[n]] else [];
      assert Members(Subtract(a, b)) == Members(Subtract(a[..n], b)) + Members(last);
    }
  }

  function Texts(guests: seq<uint>): (texts: seq<string>)
    ensures |texts| == |guests| && forall i | 0 <= i < |guests| :: texts[i] == UintText(guests[i])
  {
    seq(|guests|, i requires 0 <= i < |guests| => UintText(guests[i]))
  }

  /** `PoolName.mapToString`. */
  method MapToString(guests: seq<uint>) returns (vms: string)
    ensures vms == Join(Texts(guests), ',')
  {
    vms := "";
    for i := 0 to |guests|
      invariant if i == 0 then vms == "" else vms == "," + Join(Texts(guests[..i]), ',')
    {
      OneMoreText(guests, i);
      vms := vms + ("," + UintText(guests[i]));
    }
    assert guests[..|guests|] == guests;
    if |vms| > 0 {
      vms := vms[1..];
    }
  }

  lemma OneMoreText(guests: seq<uint>, i: nat)
    requires i < |guests|
    ensures if i == 0 then "" + ("," + UintText(guests[i])) == "," + Join(Texts(guests[..i + 1]), ',')
            else ("," + Join(Texts(guests[..i]), ',')) + ("," + UintText(guests[i])) ==
                 "," + Join(Texts(guests[..i + 1]), ',')
  {
    assert Texts(guests[..i + 1]) == Texts(guests[..i]) + [UintText(guests[i])];
    if i > 0 {
      JoinAppend(Texts(guests[..i]), [UintText(guests[i])], ',');
      Regroup(Join(Texts(guests[..i]), ','), UintText(guests[i]));
    }
  }

  lemma Regroup(a: string, b: string)
    ensures ("," + a) + ("," + b) == "," + (a + [','] + b)
  {
  }

  /** The guests a list text names. */
  predicate Names(vms: string, guest: uint) { vms != "" && UintText(guest) in Split(vms, ',') }

  /** The text of a list of guests names exactly these guests. */
  lemma NamesExactly(guests: seq<uint>, guest: uint)
    ensures Names(Join(Texts(guests), ','), guest) <==> guest in guests
  {
    if guests != [] {
      forall t | t in Texts(guests)
        ensures ',' !in t && t != ""
      {
        var i :| 0 <= i < |guests| && t == UintText(guests[i]);
        var n := ToInt(guests[i]);
        DecimalHasOnlyDigits(if n < 0 then -n else n, ',');
      }
      assert Texts(guests)[0] in Texts(guests);
      SplitJoin(Texts(guests), ',');
      TextsContain(guests, guest);
    }
  }

  lemma TextsContain(guests: seq<uint>, guest: uint)
    ensures UintText(guest) in Texts(guests) <==> guest in guests
  {
    if UintText(guest) in Texts(guests) {
      var i :| 0 <= i < |guests| && Texts(guests)[i] == UintText(guest);
      UintTextRoundTrip(guests[i]);
      UintTextRoundTrip(guest);
    }
    if guest in guests {
      var i :| 0 <= i < |guests| && guests[i] == guest;
      assert Texts(guests)[i] == UintText(guest);
    }
  }

  // ---------------------------------------------------------------- the server

  type Contents = map<string, set<uint>>

  ghost predicate InSomePool(pools: Contents, guest: uint) { exists p :: p in pools && guest in pools[p] }

  /** Every guest is in at most one pool. */
  ghost predicate AtMostOnePool(pools: Contents) {
    forall p, q, guest: uint | p in pools && q in pools && guest in pools[p] && guest in pools[q] :: p == q
  }

  datatype GuestResource = GuestResource(id: uint, pool: string)

  /** The records tell the pool of every guest. */
  ghost predicate Accurate(guests: seq<GuestResource>, pools: Contents) {
    && (forall e | e in guests && e.pool != "" :: e.pool in pools && e.id in pools[e.pool])
    && (forall p, guest: uint | p in pools && guest in pools[p] :: exists e ::
        e in guests && e.id == guest && e.pool != "")
  }

  /** The guests among some that a list text names. */
  function NamedIn(vms: string, guests: set<uint>): set<uint> { set guest | guest in guests && Names(vms, guest) }

  /** Every item of a list text is the number of a guest. */
  predicate AllExist(vms: string, guests: set<uint>) {
    vms != "" ==> forall t | t in Split(vms, ',') :: exists guest :: guest in guests && UintText(guest) == t
  }

  /** The pools of a server. Every call may fail. `refused` tells whether it was ever asked to add
      a guest that was still in a pool without leave to move it. */
  class PoolServer {
    const version8: bool
    const recordsCarryPool: bool
    const guests: set<uint>
    var pools: Contents
    var refused: bool
    ghost var failures: nat

    ghost predicate Valid()
      reads this
    {
      AtMostOnePool(pools) && "" !in pools && forall p | p in pools :: pools[p] <= guests
    }

    constructor (version8: bool, recordsCarryPool: bool, guests: set<uint>, pools: Contents)
      requires AtMostOnePool(pools) && "" !in pools && forall p | p in pools :: pools[p] <= guests
      ensures Valid() && this.pools == pools && !refused && this.guests == guests
      ensures this.version8 == version8 && this.recordsCarryPool == recordsCarryPool
    {
      this.version8, this.recordsCarryPool, this.guests, this.pools, this.refused := version8, recordsCarryPool, guests,
      pools, false;
      failures := 0;
    }

    /** Any call may fail, whether or not it could succeed; the calls that fail are counted. */
    method Call(possible: bool) returns (ok: bool)
      modifies this`failures
      ensures ok ==> possible
      ensures failures == old(failures) + if ok then 0 else 1
    {
      ok := *;
      ok := ok && possible;
      if !ok {
        failures := failures + 1;
      }
    }

    /** `PUT` with `delete`: takes guests out of a pool. */
    method Delete(pool: string, vms: string) returns (ok: bool)
      requires Valid()
      modifies this`pools, this`failures
      ensures Valid()
      ensures failures == old(failures) + if ok then 0 else 1
      ensures if ok then pool in old(pools) && pools == old(pools)[pool := old(pools)[pool] - NamedIn(vms, guests)]
              else pools == old(pools)
    {
      ok := Call(pool in pools);
      if ok {
        pools := pools[pool := pools[pool] - NamedIn(vms, guests)];
      }
    }

    /** `PUT` before version 8, and later without `allow-move`: the guests must be in no pool. */
    method Add(pool: string, vms: string) returns (ok: bool)
      requires Valid()
      modifies this
      ensures Valid()
      ensures failures == old(failures) + if ok then 0 else 1
      ensures refused <==> old(refused) || exists guest ::
              guest in NamedIn(vms, guests) && InSomePool(old(pools), guest)
      ensures ok ==> pool in old(pools) && AllExist(vms, guests) && forall guest | guest in NamedIn(vms, guests) ::
              !InSomePool(old(pools), guest)
      ensures pools == if ok then old(pools)[pool := old(pools)[pool] + NamedIn(vms, guests)] else old(pools)
    {
      var free := forall guest | guest in NamedIn(vms, guests) :: forall p | p in pools :: guest !in pools[p];
      if !free {
        refused := true;
      }
      ok := Call(pool in pools && AllExist(vms, guests) && free);
      if ok {
        pools := pools[pool := pools[pool] + NamedIn(vms, guests)];
      }
    }

    /** `PUT` with `allow-move`: the guests leave their pools. */
    method Move(pool: string, vms: string) returns (ok: bool)
      requires Valid()
      modifies this`pools, this`failures
      ensures Valid()
      ensures failures == old(failures) + if ok then 0 else 1
      ensures ok ==> pool in old(pools) && AllExist(vms, guests)
      ensures pools == if ok then Joined(old(pools), pool, NamedIn(vms, guests)) else old(pools)
    {
      ok := Call(pool in pools && AllExist(vms, guests));
      if ok {
        pools := Joined(pools, pool, NamedIn(vms, guests));
      }
    }

    /** The guest records; their pools are only told when the records carry them. */
    method ListGuests() returns (list: seq<GuestResource>, ok: bool)
      requires Valid()
      modifies this`failures
      ensures Valid() && failures == old(failures) + if ok then 0 else 1
      ensures ok && recordsCarryPool ==> Accurate(list, pools)
      ensures ok && !recordsCarryPool ==> forall e | e in list :: e.pool == ""
    {
      list := [];
      ok := Call(true);
      if ok && recordsCarryPool {
        list := ListPools(pools);
      }
    }
  }

  /** Some guests join a pool and leave all others. */
  function Joined(pools: Contents, pool: string, joining: set<uint>): Contents {
    map p | p in pools :: if p == pool then pools[p] + joining else pools[p] - joining
  }

  method ListPools(pools: Contents) returns (list: seq<GuestResource>)
    requires "" !in pools
    ensures Accurate(list, pools)
  {
    list := [];
    var todo := pools.Keys;
    while todo != {}
      invariant todo <= pools.Keys
      invariant forall e | e in list :: e.pool in pools && e.id in pools[e.pool]
      invariant forall p, guest: uint | p in pools && p !in todo && guest in pools[p] ::
        exists e :: e in list && e.id == guest && e.pool != ""
    {
      var p :| p in todo;
      ghost var before := list;
      var some := ListPool(p, pools[p]);
      list := list + some;
      assert forall e | e in before :: e in list;
      assert forall e | e in some :: e in list;
      assert forall guest | guest in pools[p] :: GuestResource(guest, p) in list;
      todo := todo - {p};
    }
  }

  method ListPool(p: string, content: set<uint>) returns (list: seq<GuestResource>)
    ensures forall e :: e in list <==> e.pool == p && e.id in content
  {
    list := [];
    var todo := content;
    while todo != {}
      invariant todo <= content
      invariant forall e :: e in list <==> e.pool == p && e.id in content && e.id !in todo
    {
      var guest :| guest in todo;
      list := list + [GuestResource(guest, p)];
      todo := todo - {guest};
    }
  }

  // ---------------------------------------------------------------- calls of the client

  /** The text of a list of guests names exactly them, when they exist. */
  lemma NamesMembers(guestIDs: seq<uint>, guests: set<uint>)
    ensures var vms := Join(Texts(guestIDs), ',');
            && NamedIn(vms, guests) == Members(guestIDs) * guests
            && (AllExist(vms, guests) ==> Members(guestIDs) <= guests)
  {
    var vms := Join(Texts(guestIDs), ',');
    forall guest: uint
      ensures Names(vms, guest) <==> guest in guestIDs
    {
      NamesExactly(guestIDs, guest);
    }
    if AllExist(vms, guests) {
      forall guest | guest in guestIDs
        ensures guest in guests
      {
        assert Names(vms, guest);
        var g :| g in guests && UintText(g) == UintText(guest);
        UintTextRoundTrip(g);
        UintTextRoundTrip(guest);
      }
    }
  }

  /** `PoolName.removeGuests_Unsafe`. */
  method RemoveGuests(server: PoolServer, pool: string, guestIDs: seq<uint>) returns (ok: bool)
    requires server.Valid()
    modifies server`pools, server`failures
    ensures server.Valid() && server.failures == old(server.failures) + if ok then 0 else 1
    ensures if ok then pool in old(server.pools) &&
                       server.pools == old(server.pools)[pool := old(server.pools)[pool] - Members(guestIDs)]
            else server.pools == old(server.pools)
  {
    var vms := MapToString(guestIDs);
    NamesMembers(guestIDs, server.guests);
    ok := server.Delete(pool, vms);
    if ok {
      assert old(server.pools)[pool] - Members(guestIDs) * server.guests == old(server.pools)[pool] - Members(guestIDs);
    }
  }

  /** `PoolName.addGuests_UnsafeV7`. */
  method AddGuestsV7(server: PoolServer, pool: string, guestIDs: seq<uint>) returns (ok: bool)
    requires server.Valid()
    modifies server
    ensures server.Valid() && server.failures == old(server.failures) + if ok then 0 else 1
    ensures server.refused <==> old(server.refused) || exists guest ::
            guest in guestIDs && InSomePool(old(server.pools), guest)
    ensures ok ==> pool in old(server.pools) && forall guest | guest in guestIDs ::
            !InSomePool(old(server.pools), guest)
    ensures server.pools == if ok then old(server.pools)[pool := old(server.pools)[pool] + Members(guestIDs)]
            else old(server.pools)
  {
    var vms := MapToString(guestIDs);
    NamesMembers(guestIDs, server.guests);
    ghost var before := server.pools;
    ok := server.Add(pool, vms);
    assert forall guest: uint | InSomePool(before, guest) :: guest in server.guests;
    if ok {
      assert Members(guestIDs) * server.guests == Members(guestIDs);
    }
  }

  /** `PoolName.addGuests_UnsafeV8`. */
  method AddGuestsV8(server: PoolServer, pool: string, guestIDs: seq<uint>) returns (ok: bool)
    requires server.Valid()
    modifies server`pools, server`failures
    ensures server.Valid() && server.failures == old(server.failures) + if ok then 0 else 1
    ensures ok ==> pool in old(server.pools)
    ensures server.pools == if ok then Joined(old(server.pools), pool, Members(guestIDs)) else old(server.pools)
  {
    var vms := MapToString(guestIDs);
    NamesMembers(guestIDs, server.guests);
    ok := server.Move(pool, vms);
    if ok {
      assert Members(guestIDs) * server.guests == Members(guestIDs);
    }
  }

  // ---------------------------------------------------------------- setting the guests

  /** The pool the records tell for a guest; the last record counts. */
  function PoolsTold(guests: seq<GuestResource>): map<uint, string> {
    if guests == [] then map[]
    else
      var e := guests[|guests| - 1];
      var before := PoolsTold(guests[..|guests| - 1]);
      if e.pool != "" then before[e.id := e.pool] else before
  }

  /** The guests of a list that are told to be in a pool, in their order. */
  function ToldIn(guestsMap: map<uint, string>, guestsToAdd: seq<uint>, pool: string): seq<uint> {
    if guestsToAdd == [] then []
    else
      var n := |guestsToAdd| - 1;
      var g := guestsToAdd[n];
      ToldIn(guestsMap, guestsToAdd[..n], pool) + if g in guestsMap && guestsMap[g] == pool then [g] else []
  }

  /** The guests by pool. */
  ghost predicate Grouped(guestsMap: map<uint, string>, guestsToAdd: seq<uint>, poolMap: map<string, seq<uint>>) {
    forall p :: (p in poolMap <==> ToldIn(guestsMap, guestsToAdd, p) != []) &&
                (p in poolMap ==> poolMap[p] == ToldIn(guestsMap, guestsToAdd, p))
  }

  /** `PoolName.guestsToRemoveFromPools`. */
  method GuestsToRemoveFromPools(guests: seq<GuestResource>, guestsToAdd: seq<uint>)
      returns (poolMap: map<string, seq<uint>>)
    ensures Grouped(PoolsTold(guests), guestsToAdd, poolMap)
  {
    var guestsMap := map[];
    for i := 0 to |guests|
      invariant guestsMap == PoolsTold(guests[..i])
    {
      assert guests[..i + 1][..i] == guests[..i];
      if guests[i].pool != "" {
        guestsMap := guestsMap[guests[i].id := guests[i].pool];
      }
    }
    assert guests[..|guests|] == guests;
    poolMap := map[];
    for i := 0 to |guestsToAdd|
      invariant Grouped(guestsMap, guestsToAdd[..i], poolMap)
    {
      assert guestsToAdd[..i + 1][..i] == guestsToAdd[..i];
      var e := guestsToAdd[i];
      if e in guestsMap {
        var pool := guestsMap[e];
        poolMap := poolMap[pool := if pool in poolMap then poolMap[pool] + [e] else [e]];
      }
    }
    assert guestsToAdd[..|guestsToAdd|] == guestsToAdd;
  }

  lemma {:induction false} ToldInIs(guestsMap: map<uint, string>, guestsToAdd: seq<uint>, pool: string)
    ensures forall g: uint :: g in ToldIn(guestsMap, guestsToAdd, pool) <==>
            g in guestsToAdd && g in guestsMap && guestsMap[g] == pool
  {
    if guestsToAdd != [] {
      var n := |guestsToAdd| - 1;
      ToldInIs(guestsMap, guestsToAdd[..n], pool);
      assert guestsToAdd == guestsToAdd[..n] + [guestsToAdd[n]];
    }
  }

  lemma {:induction false} ToldIsRecorded(guests: seq<GuestResource>, g: uint)
    ensures g in PoolsTold(guests) ==> GuestResource(g, PoolsTold(guests)[g]) in guests && PoolsTold(guests)[g] != ""
    ensures (exists e :: e in guests && e.id == g && e.pool != "") ==> g in PoolsTold(guests)
  {
    if guests != [] {
      var n := |guests| - 1;
      ToldIsRecorded(guests[..n], g);
      assert guests == guests[..n] + [guests[n]];
    }
  }

  /** With accurate records the told pool of a guest is the pool it is in. */
  lemma ToldIsTrue(guests: seq<GuestResource>, pools: Contents, g: uint, p: string)
    requires Accurate(guests, pools) && AtMostOnePool(pools) && p in pools
    ensures g in PoolsTold(guests) && PoolsTold(guests)[g] == p <==> g in pools[p]
  {
    ToldIsRecorded(guests, g);
    if g in pools[p] {
      assert exists e :: e in guests && e.id == g && e.pool != "";
      assert GuestResource(g, PoolsTold(guests)[g]) in guests;
    }
  }

  /** What setting the guests of a pool is for: exactly these guests are in it, and they are in no
      other; all other guests are where they were. */
  ghost function Assigned(pools: Contents, pool: string, guestIDs: set<uint>): Contents {
    map p | p in pools :: if p == pool then guestIDs else pools[p] - guestIDs
  }

  /** On the way there guests only leave the other pools, and only the given ones. */
  ghost predicate OnTheWay(before: Contents, now: Contents, pool: string, guestIDs: set<uint>) {
    && now.Keys == before.Keys
    && forall p | p in before && p != pool :: before[p] - guestIDs <= now[p] <= before[p]
  }

  /** Takes guests out of the pools they are told to be in, pool after pool in any order. */
  method RemoveFromPools(server: PoolServer, poolMap: map<string, seq<uint>>)
      returns (ok: bool, ghost done: set<string>)
    requires server.Valid()
    modifies server`pools, server`failures
    ensures server.Valid() && done <= poolMap.Keys && (ok ==> done == poolMap.Keys)
    ensures server.pools.Keys == old(server.pools).Keys
    ensures forall p | p in server.pools ::
              server.pools[p] == if p in done then old(server.pools)[p] - Members(poolMap[p]) else old(server.pools)[p]
    ensures done <= server.pools.Keys
    ensures server.failures == old(server.failures) + if ok then 0 else 1
  {
    done, ok := {}, true;
    var todo := poolMap.Keys;
    while todo != {}
      invariant server.failures == old(server.failures)
      invariant server.Valid() && todo <= poolMap.Keys && done == poolMap.Keys - todo
      invariant server.pools.Keys == old(server.pools).Keys && done <= server.pools.Keys
      invariant forall p | p in server.pools ::
        server.pools[p] == if p in done then old(server.pools)[p] - Members(poolMap[p]) else old(server.pools)[p]
    {
      var p :| p in todo;
      ok := RemoveGuests(server, p, poolMap[p]);
      if !ok {
        return;
      }
      todo, done := todo - {p}, done + {p};
    }
    ok := true;
  }

  /** `PoolName.addGuests_Unsafe` once the guests to add are known. Before version 8 the guests first
      leave their pools. With records that carry the pools the server is never asked to add a guest
      that is still in one; with records that do not, exactly when one of the guests is in a pool. */
  method AddMissing(server: PoolServer, pool: string, guestsToAdd: seq<uint>) returns (ok: bool, ghost asked: bool)
    requires server.Valid()
    modifies server
    ensures server.Valid() && OnTheWay(old(server.pools), server.pools, pool, Members(guestsToAdd))
    ensures pool in server.pools ==> server.pools[pool] <= old(server.pools)[pool] + Members(guestsToAdd)
    ensures ok ==> pool in server.pools && server.pools == Joined(old(server.pools), pool, Members(guestsToAdd))
    ensures server.failures == old(server.failures) + if ok then 0 else 1
    ensures server.version8 || server.recordsCarryPool ==> server.refused == old(server.refused)
    ensures !server.version8 && !server.recordsCarryPool ==>
              && (ok ==> asked && forall g | g in guestsToAdd :: !InSomePool(old(server.pools), g))
              && (asked ==>
                   (server.refused <==>
                    old(server.refused) || exists g :: g in guestsToAdd && InSomePool(old(server.pools), g)))
  {
    ghost var start := server.pools;
    asked := false;
    if server.version8 {
      ok := AddGuestsV8(server, pool, guestsToAdd);
      return;
    }
    var guests;
    guests, ok := server.ListGuests();
    if !ok {
      return;
    }
    var poolMap := GuestsToRemoveFromPools(guests, guestsToAdd);
    ghost var done;
    ok, done := RemoveFromPools(server, poolMap);
    ghost var between := server.pools;
    LeaveTold(guests, guestsToAdd, poolMap, start, between, done);
    if !ok {
      return;
    }
    if server.recordsCarryPool {
      NobodyLeft(guests, guestsToAdd, poolMap, start, between);
    } else {
      NobodyTold(guests, guestsToAdd, poolMap);
      assert start == between;
    }
    ok := AddGuestsV7(server, pool, guestsToAdd);
    asked := true;
    if ok {
      JoinedAfterLeaving(start, between, server.pools, pool, Members(guestsToAdd));
    }
  }

  /** Only guests that are to be added leave, and only where they are told to be. */
  lemma LeaveTold(guests: seq<GuestResource>, guestsToAdd: seq<uint>, poolMap: map<string, seq<uint>>,
                  start: Contents, between: Contents, done: set<string>)
    requires Grouped(PoolsTold(guests), guestsToAdd, poolMap) && done <= poolMap.Keys && between.Keys == start.Keys
    requires forall p | p in between :: between[p] == if p in done then start[p] - Members(poolMap[p]) else start[p]
    ensures forall p | p in start :: start[p] - Members(guestsToAdd) <= between[p] <= start[p]
  {
    forall p | p in start
      ensures start[p] - Members(guestsToAdd) <= between[p] <= start[p]
    {
      ToldInIs(PoolsTold(guests), guestsToAdd, p);
      if p in done {
        assert Members(poolMap[p]) <= Members(guestsToAdd);
      }
    }
  }

  /** With accurate records, none of the guests to add is in a pool any more. */
  lemma NobodyLeft(guests: seq<GuestResource>, guestsToAdd: seq<uint>, poolMap: map<string, seq<uint>>, start: Contents,
                   between: Contents)
    requires Grouped(PoolsTold(guests), guestsToAdd, poolMap) && between.Keys == start.Keys
    requires Accurate(guests, start) && AtMostOnePool(start)
    requires forall p | p in between :: between[p] == if p in poolMap then start[p] - Members(poolMap[p]) else start[p]
    ensures forall g | g in guestsToAdd :: !InSomePool(between, g)
  {
    forall g, p | g in guestsToAdd && p in between
      ensures g !in between[p]
    {
      ToldInIs(PoolsTold(guests), guestsToAdd, p);
      ToldIsTrue(guests, start, g, p);
      if g in start[p] {
        assert g in ToldIn(PoolsTold(guests), guestsToAdd, p);
      }
    }
  }

  /** Records without pools tell of nobody. */
  lemma NobodyTold(guests: seq<GuestResource>, guestsToAdd: seq<uint>, poolMap: map<string, seq<uint>>)
    requires Grouped(PoolsTold(guests), guestsToAdd, poolMap) && forall e | e in guests :: e.pool == ""
    ensures poolMap == map[]
  {
    forall p
      ensures p !in poolMap
    {
      ToldInIs(PoolsTold(guests), guestsToAdd, p);
      var told := ToldIn(PoolsTold(guests), guestsToAdd, p);
      if told != [] {
        assert told[0] in told;
        ToldIsRecorded(guests, told[0]);
      }
    }
  }

  lemma JoinedAfterLeaving(start: Contents, between: Contents, now: Contents, pool: string, joining: set<uint>)
    requires pool in between && between.Keys == start.Keys && now == between[pool := between[pool] + joining]
    requires forall p | p in start :: start[p] - joining <= between[p] <= start[p]
    requires forall g | g in joining :: !InSomePool(between, g)
    ensures now == Joined(start, pool, joining)
  {
    forall p | p in start
      ensures now[p] == if p == pool then start[p] + joining else start[p] - joining
    {
      assert forall g | g in joining :: g !in between[p];
      assert between[p] == start[p] - joining;
    }
    assert now.Keys == start.Keys;
  }

  /** `PoolName.setGuests_Unsafe`. Both protocols lead to the same contents. */
  method SetGuests(server: PoolServer, pool: string, guestIDs: seq<uint>, currentGuests: Option<seq<uint>>)
      returns (ok: bool)
    requires server.Valid()
    requires pool in server.pools && server.pools[pool] ==
             (if currentGuests.Some? then Members(currentGuests.value) else {})
    modifies server
    ensures server.Valid() && OnTheWay(old(server.pools), server.pools, pool, Members(guestIDs))
    ensures ok ==> server.pools == Assigned(old(server.pools), pool, Members(guestIDs))
    ensures server.failures == old(server.failures) + if ok then 0 else 1
    ensures server.version8 || server.recordsCarryPool ==> server.refused == old(server.refused)
    ensures !server.version8 && !server.recordsCarryPool && ok ==>
              forall g, p | g in guestIDs && p in old(server.pools) && p != pool :: g !in old(server.pools)[p]
  {
    ghost var start := server.pools;
    var current := if currentGuests.Some? then currentGuests.value else [];
    if currentGuests.Some? && |currentGuests.value| > 0 {
      var leaving := SubtractArray(currentGuests.value, guestIDs);
      SubtractIs(currentGuests.value, guestIDs);
      ok := RemoveGuests(server, pool, leaving);
      if !ok {
        return;
      }
    }
    ghost var between := server.pools;
    Staying(start, between, pool, Members(guestIDs), Members(current));
    ok := AddGuests(server, pool, guestIDs, currentGuests);
    if ok {
      AssignedInTwoSteps(start, between, server.pools, pool, Members(guestIDs), Members(current));
      forall g, p | !server.version8 && !server.recordsCarryPool && g in guestIDs && p in start && p != pool
        ensures g !in start[p]
      {
        assert p in between && between[p] == start[p];
        if g in start[p] {
          assert g !in start[pool];
          assert InSomePool(between, g);
        }
      }
    }
  }

  /** After the first step the pool holds the guests that stay. */
  lemma Staying(start: Contents, between: Contents, pool: string, guests: set<uint>, current: set<uint>)
    requires pool in start && start[pool] == current
    requires between == start[pool := current - (current - guests)] || (current == {} && between == start)
    ensures between == start[pool := current * guests]
  {
    if between == start[pool := current - (current - guests)] {
      assert current - (current - guests) == current * guests;
    } else {
      assert current * guests == {};
    }
  }

  lemma NobodyJoins(pools: Contents, pool: string)
    ensures Joined(pools, pool, {}) == pools
  {
    assert forall p | p in pools :: pools[p] + {} == pools[p] && pools[p] - {} == pools[p];
  }

  lemma AssignedInTwoSteps(start: Contents, between: Contents, now: Contents, pool: string, guests: set<uint>,
                           current: set<uint>)
    requires pool in start && start[pool] == current && AtMostOnePool(start)
    requires between == start[pool := current * guests] && now == Joined(between, pool, guests - current)
    ensures now == Assigned(start, pool, guests)
  {
    assert now.Keys == start.Keys;
    forall p | p in start
      ensures p in now && now[p] == if p == pool then guests else start[p] - guests
    {
      if p == pool {
        assert current * guests + (guests - current) == guests;
      } else {
        assert start[p] * current == {};
      }
    }
  }

  /** `PoolName.addGuests_Unsafe`: only the guests that are not in the pool are added. */
  method AddGuests(server: PoolServer, pool: string, guestIDs: seq<uint>, currentGuests: Option<seq<uint>>)
      returns (ok: bool)
    requires server.Valid()
    modifies server
    ensures server.Valid()
    ensures var current := if currentGuests.Some? then Members(currentGuests.value) else {};
            var joining := Members(guestIDs) - current;
            && OnTheWay(old(server.pools), server.pools, pool, joining)
            && (ok ==> server.pools == Joined(old(server.pools), pool, joining))
            && (!server.version8 && !server.recordsCarryPool && ok ==> forall g | g in joining ::
                !InSomePool(old(server.pools), g))
    ensures server.failures == old(server.failures) + if ok then 0 else 1
    ensures server.version8 || server.recordsCarryPool ==> server.refused == old(server.refused)
  {
    var guestsToAdd := guestIDs;
    if currentGuests.Some? && |currentGuests.value| > 0 {
      guestsToAdd := SubtractArray(guestIDs, currentGuests.value);
      SubtractIs(guestIDs, currentGuests.value);
    }
    ghost var current := if currentGuests.Some? then Members(currentGuests.value) else {};
    assert Members(guestsToAdd) == Members(guestIDs) - current;
    if |guestsToAdd| == 0 {
      assert Members(guestsToAdd) == {};
      NobodyJoins(server.pools, pool);
      return true;
    }
    assert guestsToAdd[0] in Members(guestsToAdd);
    ghost var asked;
    ok, asked := AddMissing(server, pool, guestsToAdd);
  }

  // ---------------------------------------------------------------- what setting the guests means

  /** Exactly the given guests are in the pool, each guest is in at most one pool, and a guest that
      was not given is where it was, or in no pool when it was in this one. */
  lemma AssignedMeans(pools: Contents, pool: string, guestIDs: set<uint>)
    requires pool in pools && AtMostOnePool(pools)
    ensures var after := Assigned(pools, pool, guestIDs);
            && after[pool] == guestIDs && AtMostOnePool(after)
            && (forall g | g in guestIDs :: forall p | p in after && p != pool :: g !in after[p])
            && (forall g: uint, p | g !in guestIDs && p in after && p != pool :: g in after[p] <==> g in pools[p])
  {
  }

  // ---------------------------------------------------------------- one guest

  ghost predicate IsIn(pools: Contents, guest: uint, pool: string) {
    if pool == "" then !InSomePool(pools, guest) else pool in pools && guest in pools[pool]
  }

  /** The guest in one pool, or in none, and every other guest where it was. */
  ghost function Placed(pools: Contents, guest: uint, pool: string): Contents {
    map p | p in pools :: if p == pool then pools[p] + {guest} else pools[p] - {guest}
  }

  /** The guest is in another pool than the one the caller takes it to be in. */
  ghost predicate Elsewhere(pools: Contents, guest: uint, currentPool: string) {
    exists p :: p in pools && p != currentPool && guest in pools[p]
  }

  /** The guest taken out of one pool. */
  ghost function TakenOut(pools: Contents, guest: uint, pool: string): Contents {
    if pool in pools then pools[pool := pools[pool] - {guest}] else pools
  }

  /** The guest left its pool before version 8 and has not joined the new one. */
  ghost predicate LeftOnly(before: Contents, now: Contents, guest: uint, currentPool: string) {
    && currentPool in before && now == TakenOut(before, guest, currentPool)
    && (IsIn(before, guest, currentPool) ==> !InSomePool(now, guest))
  }

  /** `guestSetPool_Unsafe`. Joining a pool from version 8 on is the one case whose error is dropped:
      it is reported as a success even when the pool does not exist. In every other case success means
      that the guest is where it was asked to be, if it was in the pool it was said to be in; without
      that, exactly when it was in no other pool than that one, or is to join another pool than that one.
      A failure changes nothing, except that a change of pool before version 8 can leave the guest in no
      pool. */
  method GuestSetPool(server: PoolServer, guest: uint, newPool: string, currentPool: string) returns (ok: bool)
    requires server.Valid()
    modifies server
    ensures server.Valid()
    ensures !ok ==> server.failures == old(server.failures) + 1
    ensures ok && server.failures != old(server.failures) ==> newPool != "" && currentPool == "" && server.version8
    ensures IsIn(old(server.pools), guest, currentPool) ==> server.refused == old(server.refused)
    ensures var dropped := newPool != "" && currentPool == "" && server.version8;
            && (dropped ==>
                 ok && (server.pools == old(server.pools) || server.pools == Placed(old(server.pools), guest, newPool)))
            && (dropped && newPool !in old(server.pools) ==> ok && !IsIn(server.pools, guest, newPool))
            && (ok && !dropped && (newPool in {currentPool, ""} ==> IsIn(old(server.pools), guest, currentPool)) ==>
                 server.pools == Placed(old(server.pools), guest, newPool) && IsIn(server.pools, guest, newPool))
    ensures ok && newPool == "" ==>
              && server.pools == TakenOut(old(server.pools), guest, currentPool)
              && (IsIn(server.pools, guest, "") <==> !Elsewhere(old(server.pools), guest, currentPool))
    ensures newPool != "" && newPool == currentPool ==> ok && server.pools == old(server.pools)
    ensures !ok ==>
              || server.pools == old(server.pools)
              || (!server.version8 && newPool != "" && newPool != currentPool &&
                  LeftOnly(old(server.pools), server.pools, guest, currentPool))
  {
    ghost var start := server.pools;
    ok := true;
    OneGuest(start, guest, newPool, currentPool);
    if newPool == "" {
      if currentPool != "" { // leave pool
        ok := RemoveGuests(server, currentPool, [guest]);
      }
    } else if currentPool == "" { // join pool
      if !server.version8 {
        ok := AddGuestsV7(server, newPool, [guest]);
      } else {
        var _ := AddGuestsV8(server, newPool, [guest]);
      }
    } else if newPool != currentPool { // change pool
      if !server.version8 {
        ok := RemoveGuests(server, currentPool, [guest]);
        if !ok {
          return;
        }
        ok := AddGuestsV7(server, newPool, [guest]);
      } else {
        ok := AddGuestsV8(server, newPool, [guest]);
      }
    }
  }

  lemma OneGuest(pools: Contents, guest: uint, newPool: string, currentPool: string)
    requires AtMostOnePool(pools) && "" !in pools
    ensures Members([guest]) == {guest}
    ensures Joined(pools, newPool, {guest}) == Placed(pools, guest, newPool)
    ensures newPool == currentPool && IsIn(pools, guest, currentPool) ==> Placed(pools, guest, newPool) == pools
    ensures !InSomePool(pools, guest) && newPool in pools ==>
            pools[newPool := pools[newPool] + {guest}] == Placed(pools, guest, newPool)
    ensures var left := TakenOut(pools, guest, currentPool);
            && (InSomePool(left, guest) <==> Elsewhere(pools, guest, currentPool))
            && (IsIn(pools, guest, currentPool) ==> !Elsewhere(pools, guest, currentPool))
            && (!InSomePool(left, guest) && newPool == "" ==> left == Placed(pools, guest, newPool))
            && (!InSomePool(left, guest) && newPool in pools && newPool != currentPool ==>
                left[newPool := left[newPool] + {guest}] == Placed(pools, guest, newPool))
  {
    var left := TakenOut(pools, guest, currentPool);
    if p :| p in pools && p != currentPool && guest in pools[p] {
      assert guest in left[p] && InSomePool(left, guest);
    }
    if IsIn(pools, guest, currentPool) {
      OnlyThere(pools, guest, currentPool);
    }
    if !InSomePool(pools, guest) {
      FreeIsPlaced(pools, guest, newPool);
    }
    if !InSomePool(left, guest) {
      FreeIsPlaced(left, guest, newPool);
      assert newPool == "" || newPool != currentPool ==>
             Placed(left, guest, newPool) == Placed(pools, guest, newPool);
    }
  }

  lemma FreeIsPlaced(pools: Contents, guest: uint, newPool: string)
    requires !InSomePool(pools, guest)
    ensures newPool in pools ==> pools[newPool := pools[newPool] + {guest}] == Placed(pools, guest, newPool)
    ensures newPool !in pools ==> pools == Placed(pools, guest, newPool)
  {
    forall p | p in pools
      ensures pools[p] - {guest} == pools[p]
    {
      assert guest !in pools[p];
    }
  }

  lemma OnlyThere(pools: Contents, guest: uint, currentPool: string)
    requires IsIn(pools, guest, currentPool) && AtMostOnePool(pools)
    ensures forall p | p in pools && p != currentPool :: guest !in pools[p] && pools[p] - {guest} == pools[p]
    ensures currentPool in pools && currentPool != "" ==> pools[currentPool] + {guest} == pools[currentPool]
  {
    forall p | p in pools && p != currentPool
      ensures guest !in pools[p]
    {
      assert guest in pools[p] ==> InSomePool(pools, guest);
    }
  }
}

/** Group membership: user ids, group lists, and the reconciliation of the members of a group in
    two phases from one listing (proxmox/config_group.go, proxmox/config_user.go). */
module Groups {
  import opened Text

  // ---------------------------------------------------------------- user ids

  datatype UserID = UserID(name: string, realm: string)

  /** `UserID.String`. */
  function UserText(id: UserID): string {
    if id.name == "" || id.realm == "" then "" else id.name + "@" + id.realm
  }

  /** `NewUserID`. */
  function NewUserID(userId: string): Option<UserID> {
    var tmpList := Split(userId, '@');
    if |tmpList| == 2 && tmpList[0] != "" && tmpList[1] != "" then Some(UserID(tmpList[0], tmpList[1])) else None
  }

  /** `UserID.mapToStruct`: a malformed text gives the empty id. */
  function ReadUser(userId: string): UserID {
    match NewUserID(userId) case Some(id) => id case None => UserID("", "")
  }

  predicate WellFormed(id: UserID) { id.name != "" && id.realm != "" && '@' !in id.name && '@' !in id.realm }

  /** An id is read back exactly when it is well formed. */
  lemma UserRoundTrip(id: UserID)
    ensures NewUserID(UserText(id)) == Some(id) <==> WellFormed(id)
  {
    if WellFormed(id) {
      SplitFirst(id.name, id.realm, '@');
      SplitPlain(id.realm, '@');
    }
  }

  /** A text is printed back exactly when it reads as an id, or is empty. */
  lemma UserTextRoundTrip(userId: string)
    ensures UserText(ReadUser(userId)) == userId <==> NewUserID(userId).Some? || userId == ""
  {
    if NewUserID(userId).Some? {
      JoinSplit(userId, '@');
      var parts := Split(userId, '@');
      assert parts == [parts[0], parts[1]];
      assert parts[1..] == [parts[1]];
    }
  }

  // ---------------------------------------------------------------- group lists

  function CsvText(groups: seq<string>): string { Join(groups, ',') }

  function CsvGroups(csv: string): seq<string> { if csv == "" then [] else Split(csv, ',') }

  lemma JoinSnoc(parts: seq<string>, last: string)
    requires parts != []
    ensures Join(parts + [last], ',') == Join(parts, ',') + [','] + last
  {
    JoinAppend(parts, [last], ',');
  }

  /** `GroupName.arrayToCsv`. */
  method ArrayToCsv(groupList: Option<seq<string>>) returns (groups: string)
    ensures groups == if groupList.Some? then CsvText(groupList.value) else ""
  {
    groups := "";
    if groupList.None? || |groupList.value| == 0 {
      return;
    }
    var list := groupList.value;
    if |list| == 1 {
      return list[0];
    }
    for i := 0 to |list|
      invariant groups == CsvText(list[..i])
    {
      if i > 0 {
        JoinSnoc(list[..i], list[i]);
        groups := groups + ",";
      }
      groups := groups + list[i];
      assert list[..i + 1] == list[..i] + [list[i]];
    }
    assert list[..|list|] == list;
  }

  /** `GroupName.csvToArray`. */
  method CsvToArray(csv: string) returns (groups: seq<string>)
    ensures groups == CsvGroups(csv)
  {
    if csv == "" {
      return [];
    }
    var tmpArray := Split(csv, ',');
    groups := [];
    for i := 0 to |tmpArray|
      invariant groups == tmpArray[..i]
    {
      groups := groups + [tmpArray[i]];
    }
  }

  /** A group list survives the text form exactly when no name has a comma and the list is not one
      empty name. */
  lemma CsvRoundTrip(groups: seq<string>)
    ensures CsvGroups(CsvText(groups)) == groups <==> (forall g | g in groups :: ',' !in g) && groups != [""]
  {
    if (forall g | g in groups :: ',' !in g) && groups != [""] {
      if groups != [] {
        SplitJoin(groups, ',');
        NotEmptyText(groups);
      }
    }
  }

  lemma NotEmptyText(groups: seq<string>)
    requires groups != [] && groups != [""]
    ensures CsvText(groups) != ""
  {
    if |groups| == 1 {
      assert groups == [groups[0]];
    }
  }

  /** `GroupName.inArray`. */
  method InArray(group: string, groups: seq<string>) returns (found: bool)
    ensures found <==> group != "" && group in groups
  {
    if group == "" {
      return false;
    }
    for i := 0 to |groups|
      invariant group !in groups[..i]
    {
      if groups[i] == group {
        return true;
      }
    }
    found := false;
  }

  function Without(group: string, groups: seq<string>): seq<string> {
    if groups == [] then []
    else
      var n := |groups| - 1;
      Without(group, groups[..n]) + if groups[n] != group then [groups[n]] else []
  }

  /** `GroupName.removeFromArray`. */
  method RemoveFromArray(group: string, groups: seq<string>) returns (newGroups: seq<string>)
    ensures newGroups == Without(group, groups)
  {
    newGroups := [];
    for i := 0 to |groups|
      invariant newGroups == Without(group, groups[..i])
    {
      if groups[i] != group {
        newGroups := newGroups + [groups[i]];
      }
      assert groups[..i + 1][..i] == groups[..i];
    }
    assert groups[..|groups|] == groups;
  }

  /** Removing a group removes it everywhere and keeps the others, each as often as before. */
  lemma {:induction false} WithoutIs(group: string, groups: seq<string>, g: string)
    ensures multiset(Without(group, groups))[g] == if g == group then 0 else multiset(groups)[g]
  {
    if groups != [] {
      var n := |groups| - 1;
      WithoutIs(group, groups[..n], g);
      assert groups == groups[..n] + [groups[n]];
    }
  }

  // ---------------------------------------------------------------- planning

  /** One user of a listing, as far as it is looked at. */
  datatype Entry = Entry(userid: Option<string>, groups: Option<string>)

  /** `configUserShort`. */
  datatype Update = Update(user: UserID, groups: seq<string>)

  function EntryGroups(e: Entry): seq<string> { if e.groups.Some? then CsvGroups(e.groups.value) else [] }

  predicate Named(members: Option<seq<UserID>>, userid: string) {
    members.Some? && exists i | 0 <= i < |members.value| :: UserText(members.value[i]) == userid
  }

  function Removal(group: string, e: Entry, members: Option<seq<UserID>>): seq<Update> {
    if e.userid.Some? && !Named(members, e.userid.value) && group in EntryGroups(e)
    then [Update(ReadUser(e.userid.value), Without(group, EntryGroups(e)))] else []
  }

  /** The users that are members and not named, without the group. */
  function Removals(group: string, users: seq<Entry>, members: Option<seq<UserID>>): seq<Update> {
    if users == [] then []
    else
      var n := |users| - 1;
      Removals(group, users[..n], members) + Removal(group, users[n], members)
  }

  function Addition(group: string, e: Entry, members: seq<UserID>): seq<Update> {
    if members == [] then []
    else
      var n := |members| - 1;
      Addition(group, e, members[..n]) +
      (if e.userid.Some? && UserText(members[n]) == e.userid.value && group !in EntryGroups(e)
       then [Update(members[n], EntryGroups(e) + [group])] else [])
  }

  /** The named users that are no members, with the group; once for every time they are named. */
  function Additions(group: string, users: seq<Entry>, members: seq<UserID>): seq<Update> {
    if users == [] then []
    else
      var n := |users| - 1;
      Additions(group, users[..n], members) + Addition(group, users[n], members)
  }

  method RemoveUser(group: string, e: Entry, usersToUpdate: seq<Update>, ghost members: Option<seq<UserID>>)
    returns (updates: seq<Update>)
    requires group != "" && e.userid.Some? && !Named(members, e.userid.value)
    ensures updates == usersToUpdate + Removal(group, e, members)
  {
    updates := usersToUpdate;
    var groups := [];
    if e.groups.Some? {
      groups := CsvToArray(e.groups.value);
    }
    var isMember := InArray(group, groups);
    if isMember {
      groups := RemoveFromArray(group, groups);
      updates := updates + [Update(ReadUser(e.userid.value), groups)];
    }
  }

  /** `GroupName.removeAllUsersFromGroup`. */
  method RemoveAllUsersFromGroup(group: string, users: seq<Entry>) returns (usersToUpdate: seq<Update>)
    requires group != ""
    ensures usersToUpdate == Removals(group, users, None)
  {
    usersToUpdate := [];
    for i := 0 to |users|
      invariant usersToUpdate == Removals(group, users[..i], None)
    {
      assert users[..i + 1][..i] == users[..i];
      var e := users[i];
      if e.userid.None? {
        continue;
      }
      if e.groups.None? {
        continue;
      }
      usersToUpdate := RemoveUser(group, e, usersToUpdate, None);
    }
    assert users[..|users|] == users;
  }

  method IsNamed(members: seq<UserID>, userid: string) returns (userInMembers: bool)
    ensures userInMembers == Named(Some(members), userid)
  {
    for i := 0 to |members|
      invariant forall j | 0 <= j < i :: UserText(members[j]) != userid
    {
      if UserText(members[i]) == userid {
        return true;
      }
    }
    userInMembers := false;
  }

  /** `GroupName.removeAllUsersFromGroupExcept`. */
  method RemoveAllUsersFromGroupExcept(group: string, users: seq<Entry>, members: Option<seq<UserID>>)
    returns (usersToUpdate: Option<seq<Update>>)
    ensures group == "" ==> usersToUpdate.None?
    ensures group != "" ==> usersToUpdate == Some(Removals(group, users, members))
  {
    if group == "" {
      return None;
    }
    if members.None? || |members.value| == 0 {
      var all := RemoveAllUsersFromGroup(group, users);
      NobodyNamed(group, users, members);
      return Some(all);
    }
    var updates := [];
    for i := 0 to |users|
      invariant updates == Removals(group, users[..i], members)
    {
      assert users[..i + 1][..i] == users[..i];
      var e := users[i];
      if e.userid.None? {
        continue;
      }
      var userInMembers := IsNamed(members.value, e.userid.value);
      if !userInMembers {
        updates := RemoveUser(group, e, updates, members);
      }
    }
    assert users[..|users|] == users;
    usersToUpdate := Some(updates);
  }

  lemma {:induction false} NobodyNamed(group: string, users: seq<Entry>, members: Option<seq<UserID>>)
    requires members.Some? ==> members.value == []
    ensures Removals(group, users, members) == Removals(group, users, None)
  {
    if users != [] {
      NobodyNamed(group, users[..|users| - 1], members);
    }
  }

  /** `GroupName.usersToAddToGroup`. */
  method UsersToAddToGroup(group: string, users: seq<Entry>, members: Option<seq<UserID>>)
    returns (usersToUpdate: Option<seq<Update>>)
    ensures group == "" || members.None? ==> usersToUpdate.None?
    ensures group != "" && members.Some? ==> usersToUpdate == Some(Additions(group, users, members.value))
  {
    if group == "" || members.None? {
      return None;
    }
    var updates := [];
    for i := 0 to |users|
      invariant updates == Additions(group, users[..i], members.value)
    {
      assert users[..i + 1][..i] == users[..i];
      updates := AddUser(group, users[i], members.value, updates);
    }
    assert users[..|users|] == users;
    usersToUpdate := Some(updates);
  }

  method AddUser(group: string, e: Entry, members: seq<UserID>, usersToUpdate: seq<Update>)
      returns (updates: seq<Update>)
    requires group != ""
    ensures updates == usersToUpdate + Addition(group, e, members)
  {
    updates := usersToUpdate;
    if e.userid.None? {
      NoAddition(group, e, members);
      return;
    }
    for ii := 0 to |members|
      invariant updates == usersToUpdate + Addition(group, e, members[..ii])
    {
      assert members[..ii + 1][..ii] == members[..ii];
      if e.userid.value == UserText(members[ii]) {
        var groups := [];
        if e.groups.Some? {
          groups := CsvToArray(e.groups.value);
        }
        var isMember := InArray(group, groups);
        if !isMember {
          groups := groups + [group];
          updates := updates + [Update(members[ii], groups)];
        }
      }
    }
    assert members[..|members|] == members;
  }

  lemma {:induction false} NoAddition(group: string, e: Entry, members: seq<UserID>)
    requires e.userid.None?
    ensures Addition(group, e, members) == []
  {
    if members != [] {
      NoAddition(group, e, members[..|members| - 1]);
    }
  }

  // ---------------------------------------------------------------- the server

  /** The group list of every user, by user id. */
  type Memberships = map<string, string>

  function Apply(m: Memberships, updates: seq<Update>): Memberships {
    if updates == [] then m
    else
      var n := |updates| - 1;
      Apply(m, updates[..n])[UserText(updates[n].user) := CsvText(updates[n].groups)]
  }

  lemma ApplyOneMore(m: Memberships, updates: seq<Update>, i: nat)
    requires i < |updates|
    ensures Apply(m, updates[..i + 1]) ==
            Apply(m, updates[..i])[UserText(updates[i].user) := CsvText(updates[i].groups)]
    ensures updates[..i + 1] == updates[..i] + [updates[i]]
  {
    assert updates[..i + 1][..i] == updates[..i];
  }

  /** The call that is made for an update. */
  function UpdateCall(u: Update): (string, string) { (UserText(u.user), CsvText(u.groups)) }

  class AccessServer {
    var groupsOf: Memberships
    ghost var failed: seq<(string, string)>

    constructor (groupsOf: Memberships)
      ensures this.groupsOf == groupsOf && failed == []
    {
      this.groupsOf, failed := groupsOf, [];
    }

    /** An update of a user; it fails for an unknown user, and may fail for any. A call that fails is
        recorded. */
    method PutUser(userid: string, groups: string) returns (ok: bool)
      modifies this
      ensures if ok then userid in old(groupsOf) && groupsOf == old(groupsOf)[userid := groups]
              else groupsOf == old(groupsOf)
      ensures failed == old(failed) + if ok then [] else [(userid, groups)]
    {
      ok := *;
      ok := ok && userid in groupsOf;
      if ok {
        groupsOf := groupsOf[userid := groups];
      } else {
        failed := failed + [(userid, groups)];
      }
    }

    /** `configUserShort.updateUsersMembership`: one user after the other until a call fails. */
    method UpdateUsersMembership(users: Option<seq<Update>>) returns (ok: bool, ghost done: seq<Update>)
      modifies this
      ensures done <= if users.Some? then users.value else []
      ensures groupsOf == Apply(old(groupsOf), done)
      ensures ok ==> done == if users.Some? then users.value else []
      ensures users.None? ==> ok
      ensures ok ==> failed == old(failed)
      ensures !ok ==>
                && users.Some? && |done| < |users.value|
                && failed == old(failed) + [UpdateCall(users.value[|done|])]
      ensures forall u | u in done :: UserText(u.user) in old(groupsOf)
    {
      ok, done := true, [];
      if users.None? {
        return;
      }
      var updates := users.value;
      for i := 0 to |updates|
        invariant groupsOf == Apply(old(groupsOf), updates[..i]) && groupsOf.Keys == old(groupsOf).Keys
        invariant failed == old(failed)
        invariant forall u | u in updates[..i] :: UserText(u.user) in old(groupsOf)
      {
        done := updates[..i];
        var csv := ArrayToCsv(Some(updates[i].groups));
        ok := PutUser(UserText(updates[i].user), csv);
        if !ok {
          return;
        }
        ApplyOneMore(old(groupsOf), updates, i);
      }
      assert updates[..|updates|] == updates;
      ok, done := true, updates;
    }
  }

  // ---------------------------------------------------------------- setting the members

  /** The listing tells the groups of every user of the server, none of which has an empty id. */
  ghost predicate Lists(users: seq<Entry>, m: Memberships) {
    && "" !in m
    && (forall e | e in users && e.userid.Some? ::
        e.userid.value in m && EntryGroups(e) == CsvGroups(m[e.userid.value]))
    && (forall id | id in m :: exists e :: e in users && e.userid == Some(id))
  }

  /** The group list a user should have: with the group exactly when the user is named, and with
      the other groups as they are. */
  function Wanted(group: string, members: Option<seq<UserID>>, userid: string, csv: string): string {
    var groups := CsvGroups(csv);
    if Named(members, userid) then (if group in groups then csv else CsvText(groups + [group]))
    else if group in groups then CsvText(Without(group, groups))
    else csv
  }

  /** What a wanted list says when it is read: the group is in it exactly when the user is named and the
      name of the group has no comma. A group with a comma is read as the names between the commas, which
      a named user joins instead. Every other group is in the list as often as before. */
  ghost predicate IsReconciled(group: string, members: Option<seq<UserID>>, id: string, csv: string, csv': string) {
    && (group in CsvGroups(csv') <==> Named(members, id) && ',' !in group)
    && forall g | g != "" && g != group ::
      multiset(CsvGroups(csv'))[g] ==
      multiset(CsvGroups(csv))[g] + if Named(members, id) && ',' in group then multiset(Split(group, ','))[g] else 0
  }

  /** The members of the group are the named users, and all other memberships are as before. */
  lemma WantedMembership(group: string, members: Option<seq<UserID>>, id: string, csv: string)
    requires group != ""
    ensures IsReconciled(group, members, id, csv, Wanted(group, members, id, csv))
  {
    var groups := CsvGroups(csv);
    GroupsArePlain(csv);
    if Named(members, id) {
      if group !in groups {
        JoinedGroups(groups, group);
        JoinedMeans(groups, group);
      } else {
        assert group in Split(csv, ',');
      }
    } else if group in groups {
      LeftGroups(groups, group);
      LeftMeans(groups, group);
    }
  }

  lemma GroupsArePlain(csv: string)
    ensures (forall g | g in CsvGroups(csv) :: ',' !in g) && CsvGroups(csv) != [""]
  {
    if csv != "" {
      JoinSplit(csv, ',');
    }
  }

  /** The list with a group appended reads as the groups and the names in that group. */
  lemma JoinedGroups(groups: seq<string>, group: string)
    requires group != "" && forall g | g in groups :: ',' !in g
    ensures CsvGroups(CsvText(groups + [group])) == groups + Split(group, ',')
  {
    var names := Split(group, ',');
    JoinSplit(group, ',');
    if groups == [] {
      assert groups + [group] == [group] && groups + names == names;
    } else {
      JoinSnoc(groups, group);
      JoinAppend(groups, names, ',');
      assert CsvText(groups + [group]) == CsvText(groups + names);
      SplitJoin(groups + names, ',');
    }
  }

  lemma JoinedMeans(groups: seq<string>, group: string)
    requires (forall g | g in groups :: ',' !in g) && group !in groups
    ensures group in groups + Split(group, ',') <==> ',' !in group
    ensures forall g | g != group ::
              multiset(groups + Split(group, ','))[g] ==
              multiset(groups)[g] + if ',' in group then multiset(Split(group, ','))[g] else 0
  {
    if ',' !in group {
      SplitPlain(group, ',');
    }
  }

  /** Removing a group leaves a list that is read back, but for an empty name on its own. */
  lemma LeftGroups(groups: seq<string>, group: string)
    requires forall g | g in groups :: ',' !in g
    ensures forall g | g != "" ::
              multiset(CsvGroups(CsvText(Without(group, groups))))[g] == multiset(Without(group, groups))[g]
  {
    forall g | g in Without(group, groups)
      ensures ',' !in g
    {
      WithoutIs(group, groups, g);
      assert multiset(groups)[g] > 0;
    }
    CsvRoundTrip(Without(group, groups));
  }

  lemma LeftMeans(groups: seq<string>, group: string)
    requires group in groups
    ensures multiset(Without(group, groups))[group] == 0
    ensures forall g | g != group :: multiset(Without(group, groups))[g] == multiset(groups)[g]
  {
    forall g
      ensures multiset(Without(group, groups))[g] == if g == group then 0 else multiset(groups)[g]
    {
      WithoutIs(group, groups, g);
    }
  }

  /** A group whose name has a comma is not joined, but the groups it is read as are. */
  lemma CommaGroupIsNotJoined(user: UserID)
    ensures var csv := Wanted("x,y", Some([user]), UserText(user), "");
            CsvGroups(csv) == ["x", "y"] && "x,y" !in CsvGroups(csv)
  {
    var members := [user];
    assert UserText(members[0]) == UserText(user);
    assert Named(Some(members), UserText(user));
    JoinedGroups([], "x,y");
    SplitFirst("x", "y", ',');
    SplitPlain("y", ',');
    assert "x" + [','] + "y" == "x,y";
    var none: seq<string> := [];
    assert none + Split("x,y", ',') == ["x", "y"];
    assert CsvGroups("") == none;
  }

  /** The update gives its user the wanted list. */
  ghost predicate Fits(group: string, members: Option<seq<UserID>>, m: Memberships, u: Update) {
    var id := UserText(u.user);
    id in m && CsvText(u.groups) == Wanted(group, members, id, m[id])
  }

  /** A user has to be removed whose id does not read as a user id, so that the update names nobody. */
  ghost predicate CannotBeNamed(group: string, members: Option<seq<UserID>>, m: Memberships, id: string) {
    id in m && !Named(members, id) && group in CsvGroups(m[id]) && NewUserID(id).None?
  }

  /** The updates of both phases. */
  function Planned(group: string, users: seq<Entry>, members: Option<seq<UserID>>): seq<Update> {
    if group == "" then []
    else Removals(group, users, members) + if members.Some? then Additions(group, users, members.value) else []
  }

  /** `GroupName.SetMembers`, after the listing. When a call fails, every user has either the old or
      the wanted list; when none does, all have the wanted one, so that exactly the named users are in the
      group unless its name has a comma. An error is reported only when the call for one of the planned
      updates has failed, and no call is made after it. A call does fail when a user has to be removed whose
      id cannot be named. */
  method SetMembers(server: AccessServer, group: string, users: seq<Entry>, members: Option<seq<UserID>>)
      returns (ok: bool)
    requires Lists(users, server.groupsOf)
    modifies server
    ensures group == "" ==> ok && server.groupsOf == old(server.groupsOf)
    ensures OldOrWanted(group, members, old(server.groupsOf), server.groupsOf)
    ensures ok && group != "" ==> forall id | id in old(server.groupsOf) ::
              IsReconciled(group, members, id, old(server.groupsOf)[id], server.groupsOf[id])
    ensures ok && group != "" ==> forall id | id in old(server.groupsOf) ::
              server.groupsOf[id] == Wanted(group, members, id, old(server.groupsOf)[id])
    ensures ok && group != "" ==> forall id :: !CannotBeNamed(group, members, old(server.groupsOf), id)
    ensures ok ==> server.failed == old(server.failed)
    ensures !ok ==> exists u ::
              u in Planned(group, users, members) && server.failed == old(server.failed) + [UpdateCall(u)]
  {
    ghost var m := server.groupsOf;
    ghost var first, second;
    var removals := RemoveAllUsersFromGroupExcept(group, users, members);
    ok, first := server.UpdateUsersMembership(removals);
    FirstPhase(group, users, members, m, first);
    if !ok {
      return;
    }
    ghost var m1 := server.groupsOf;
    var additions := UsersToAddToGroup(group, users, members);
    ok, second := server.UpdateUsersMembership(additions);
    SecondPhase(group, users, members, m, m1, second);
    if ok && group != "" {
      BothPhases(group, users, members, m, m1, server.groupsOf);
      forall id | id in m
        ensures IsReconciled(group, members, id, m[id], server.groupsOf[id])
      {
        WantedMembership(group, members, id, m[id]);
      }
    }
  }

  /** Every user has the old or the wanted list. */
  ghost predicate OldOrWanted(group: string, members: Option<seq<UserID>>, m: Memberships, m1: Memberships) {
    m1.Keys == m.Keys && forall id | id in m :: m1[id] == m[id] || m1[id] == Wanted(group, members, id, m[id])
  }

  /** The users the phase is for have the wanted list, and whoever had it keeps it. */
  ghost predicate PhaseDone(group: string, members: Option<seq<UserID>>, m: Memberships, m1: Memberships,
                            m2: Memberships, named: bool)
    requires m1.Keys == m.Keys == m2.Keys
  {
    && (forall id | id in m && Named(members, id) == named :: m2[id] == Wanted(group, members, id, m[id]))
    && (forall id | id in m && m1[id] == Wanted(group, members, id, m[id]) ::
        m2[id] == Wanted(group, members, id, m[id]))
  }

  lemma FirstPhase(group: string, users: seq<Entry>, members: Option<seq<UserID>>, m: Memberships, done: seq<Update>)
    requires Lists(users, m) && done <= (if group == "" then [] else Removals(group, users, members))
    requires forall u | u in done :: UserText(u.user) in m
    ensures OldOrWanted(group, members, m, Apply(m, done))
    ensures group != "" && done == Removals(group, users, members) ==>
              && PhaseDone(group, members, m, m, Apply(m, done), false)
              && forall id :: !CannotBeNamed(group, members, m, id)
  {
    RemovalsFit(group, users, members, m);
    assert forall u | u in done :: u in Removals(group, users, members);
    FittingUpdates(group, members, m, m, done);
    if group != "" && done == Removals(group, users, members) {
      forall id
        ensures !CannotBeNamed(group, members, m, id)
      {
        if CannotBeNamed(group, members, m, id) {
          RemovedUserIsUpdated(group, users, members, m, id);
        }
      }
      EveryRemovalDone(group, users, members, m, done);
    }
  }

  lemma EveryRemovalDone(group: string, users: seq<Entry>, members: Option<seq<UserID>>, m: Memberships,
                         done: seq<Update>)
    requires Lists(users, m) && done == Removals(group, users, members)
    requires forall id :: !CannotBeNamed(group, members, m, id)
    requires Apply(m, done).Keys == m.Keys && forall u | u in done :: IsUpdated(group, members, m, Apply(m, done), u)
    requires forall id | id in m ::
             Apply(m, done)[id] == m[id] || Apply(m, done)[id] == Wanted(group, members, id, m[id])
    ensures PhaseDone(group, members, m, m, Apply(m, done), false)
  {
    forall id | id in m && !Named(members, id)
      ensures Apply(m, done)[id] == Wanted(group, members, id, m[id])
    {
      if Wanted(group, members, id, m[id]) != m[id] {
        RemovedUserIsUpdated(group, users, members, m, id);
        UserTextRoundTrip(id);
        assert !CannotBeNamed(group, members, m, id);
        var u :| u in done && UserText(u.user) == id;
        assert IsUpdated(group, members, m, Apply(m, done), u);
      }
    }
  }

  lemma SecondPhase(group: string, users: seq<Entry>, members: Option<seq<UserID>>, m: Memberships, m1: Memberships,
                    done: seq<Update>)
    requires Lists(users, m) && OldOrWanted(group, members, m, m1)
    requires done <= if group == "" || members.None? then [] else Additions(group, users, members.value)
    ensures OldOrWanted(group, members, m, Apply(m1, done))
    ensures group != "" && done == (if members.None? then [] else Additions(group, users, members.value)) ==>
              PhaseDone(group, members, m, m1, Apply(m1, done), true)
  {
    if members.Some? {
      AdditionsFit(group, users, members.value, m);
      PrefixFits(group, members, m, Additions(group, users, members.value), done);
    }
    FittingUpdates(group, members, m, m1, done);
    if group != "" && done == (if members.None? then [] else Additions(group, users, members.value)) {
      forall id | id in m && Named(members, id)
        ensures Apply(m1, done)[id] == Wanted(group, members, id, m[id])
      {
        if Wanted(group, members, id, m[id]) != m[id] {
          AddedUserIsUpdated(group, users, members.value, m, id);
          var u :| u in done && UserText(u.user) == id;
          assert IsUpdated(group, members, m, Apply(m1, done), u);
        }
      }
    }
  }

  lemma BothPhases(group: string, users: seq<Entry>, members: Option<seq<UserID>>, m: Memberships, m1: Memberships,
                   m2: Memberships)
    requires m1.Keys == m.Keys == m2.Keys
    requires PhaseDone(group, members, m, m, m1, false) && PhaseDone(group, members, m, m1, m2, true)
    ensures forall id | id in m :: m2[id] == Wanted(group, members, id, m[id])
  {
  }

  lemma PrefixFits(group: string, members: Option<seq<UserID>>, m: Memberships, updates: seq<Update>, done: seq<Update>)
    requires done <= updates && forall u | u in updates :: Fits(group, members, m, u)
    ensures forall u | u in done :: Fits(group, members, m, u)
  {
    assert forall u | u in done :: u in updates;
  }

  ghost predicate IsUpdated(group: string, members: Option<seq<UserID>>, m: Memberships, m2: Memberships, u: Update) {
    var id := UserText(u.user);
    id in m && id in m2 && m2[id] == Wanted(group, members, id, m[id])
  }

  /** After fitting updates a user has the list from before or the wanted one, and the wanted one
      when an update was for this user. */
  lemma {:induction false} FittingUpdates(group: string, members: Option<seq<UserID>>, m: Memberships, m1: Memberships,
                                          updates: seq<Update>)
    requires m1.Keys == m.Keys && forall u | u in updates :: Fits(group, members, m, u)
    ensures var m2 := Apply(m1, updates);
            && m2.Keys == m.Keys
            && (forall id | id in m :: m2[id] == m1[id] || m2[id] == Wanted(group, members, id, m[id]))
            && (forall u | u in updates :: IsUpdated(group, members, m, m2, u))
  {
    if updates != [] {
      var n := |updates| - 1;
      FittingUpdates(group, members, m, m1, updates[..n]);
      assert updates == updates[..n] + [updates[n]];
      assert Fits(group, members, m, updates[n]);
    }
  }

  /** Every removal is for a user of the listing, and gives the user it names the wanted list. */
  lemma {:induction false} RemovalsFit(group: string, users: seq<Entry>, members: Option<seq<UserID>>, m: Memberships)
    requires forall e | e in users && e.userid.Some? ::
             e.userid.value in m && EntryGroups(e) == CsvGroups(m[e.userid.value])
    ensures forall u | u in Removals(group, users, members) ::
              UserText(u.user) == "" || (Fits(group, members, m, u) && !Named(members, UserText(u.user)))
    ensures forall e | e in users && e.userid.Some? && !Named(members, e.userid.value) && group in EntryGroups(e) ::
              exists u :: u in Removals(group, users, members) && u.user == ReadUser(e.userid.value)
  {
    if users != [] {
      var n := |users| - 1;
      RemovalsFit(group, users[..n], members, m);
      assert users == users[..n] + [users[n]];
      var all, e := Removals(group, users, members), users[n];
      assert forall u | u in Removals(group, users[..n], members) :: u in all;
      if Removal(group, e, members) != [] {
        UserTextRoundTrip(e.userid.value);
        var u := Update(ReadUser(e.userid.value), Without(group, EntryGroups(e)));
        assert Removal(group, e, members)[0] == u && u in all;
      }
    }
  }

  lemma {:induction false} AdditionFits(group: string, e: Entry, members: seq<UserID>, all: seq<UserID>, m: Memberships)
    requires e.userid.Some? ==> e.userid.value in m && EntryGroups(e) == CsvGroups(m[e.userid.value])
    requires members <= all
    ensures forall u | u in Addition(group, e, members) ::
              Fits(group, Some(all), m, u) && Named(Some(all), UserText(u.user)) && e.userid == Some(UserText(u.user))
    ensures e.userid.Some? && group !in EntryGroups(e) && Named(Some(members), e.userid.value) ==>
              exists u :: u in Addition(group, e, members) && UserText(u.user) == e.userid.value
  {
    if members != [] {
      var n := |members| - 1;
      AdditionFits(group, e, members[..n], all, m);
      assert all[n] == members[n];
      assert forall u | u in Addition(group, e, members[..n]) :: u in Addition(group, e, members);
      if e.userid.Some? && UserText(members[n]) == e.userid.value && group !in EntryGroups(e) {
        var u := Update(members[n], EntryGroups(e) + [group]);
        assert Addition(group, e, members) == Addition(group, e, members[..n]) + [u];
        assert u in Addition(group, e, members);
      }
    }
  }

  lemma {:induction false} AdditionsFit(group: string, users: seq<Entry>, members: seq<UserID>, m: Memberships)
    requires forall e | e in users && e.userid.Some? ::
             e.userid.value in m && EntryGroups(e) == CsvGroups(m[e.userid.value])
    ensures forall u | u in Additions(group, users, members) ::
            Fits(group, Some(members), m, u) && Named(Some(members), UserText(u.user))
    ensures forall e | e in users && e.userid.Some? && Named(Some(members), e.userid.value) &&
            group !in EntryGroups(e) ::
              exists u :: u in Additions(group, users, members) && UserText(u.user) == e.userid.value
  {
    if users != [] {
      var n := |users| - 1;
      AdditionsFit(group, users[..n], members, m);
      AdditionFits(group, users[n], members, members, m);
      assert users == users[..n] + [users[n]];
      var all := Additions(group, users, members);
      assert forall u | u in Additions(group, users[..n], members) :: u in all;
      assert forall u | u in Addition(group, users[n], members) :: u in all;
    }
  }

  /** Every user that has to lose the group is updated in the first phase, under the id that is read. */
  lemma RemovedUserIsUpdated(group: string, users: seq<Entry>, members: Option<seq<UserID>>, m: Memberships, id: string)
    requires Lists(users, m) && id in m && !Named(members, id) && group in CsvGroups(m[id])
    ensures exists u :: u in Removals(group, users, members) && UserText(u.user) == UserText(ReadUser(id))
  {
    var e :| e in users && e.userid == Some(id);
    RemovalsFit(group, users, members, m);
  }

  /** Every user that has to get the group is updated in the second phase. */
  lemma AddedUserIsUpdated(group: string, users: seq<Entry>, members: seq<UserID>, m: Memberships, id: string)
    requires Lists(users, m) && id in m && Named(Some(members), id) && group !in CsvGroups(m[id])
    ensures exists u :: u in Additions(group, users, members) && UserText(u.user) == id
  {
    var e :| e in users && e.userid == Some(id);
    AdditionsFit(group, users, members, m);
  }

  /** The two phases update disjoint sets of users. */
  lemma PhasesAreDisjoint(group: string, users: seq<Entry>, members: seq<UserID>, m: Memberships)
    requires Lists(users, m)
    ensures forall r, a | r in Removals(group, users, Some(members)) && a in Additions(group, users, members) ::
              UserText(r.user) != UserText(a.user)
  {
    RemovalsFit(group, users, Some(members), m);
    AdditionsFit(group, users, members, m);
  }

  /** The memberships after both phases, when no call fails. */
  function AfterBoth(group: string, users: seq<Entry>, members: seq<UserID>, m: Memberships): Memberships {
    Apply(Apply(m, Removals(group, users, Some(members))), Additions(group, users, members))
  }

  /** When every user that has to be removed can be named, both phases together give every user the
      wanted list. */
  lemma AfterBothIsWanted(group: string, users: seq<Entry>, members: seq<UserID>, m: Memberships)
    requires group != "" && Lists(users, m) && forall id :: !CannotBeNamed(group, Some(members), m, id)
    ensures AfterBoth(group, users, members, m) == map id | id in m :: Wanted(group, Some(members), id, m[id])
  {
    var removals, additions := Removals(group, users, Some(members)), Additions(group, users, members);
    RemovalsCanBeNamed(group, users, Some(members), m, users);
    FirstPhase(group, users, Some(members), m, removals);
    var m1 := Apply(m, removals);
    SecondPhase(group, users, Some(members), m, m1, additions);
    BothPhases(group, users, Some(members), m, m1, Apply(m1, additions));
  }

  lemma {:induction false} RemovalsCanBeNamed(group: string, users: seq<Entry>, members: Option<seq<UserID>>,
                                              m: Memberships,
                                              some: seq<Entry>)
    requires Lists(users, m) && forall id :: !CannotBeNamed(group, members, m, id)
    requires forall e | e in some :: e in users
    ensures forall u | u in Removals(group, some, members) :: UserText(u.user) in m
  {
    if some != [] {
      var n := |some| - 1;
      RemovalsCanBeNamed(group, users, members, m, some[..n]);
      assert some[n] in some;
      if Removal(group, some[n], members) != [] {
        var id := some[n].userid.value;
        assert !CannotBeNamed(group, members, m, id);
        UserTextRoundTrip(id);
      }
    }
  }

  /** Lists that name the same users lead to the same memberships, in whatever order and however often
      they name them. */
  lemma OnlyNamesMatter(group: string, users: seq<Entry>, a: seq<UserID>, b: seq<UserID>, m: Memberships)
    requires group != "" && Lists(users, m) && forall id :: !CannotBeNamed(group, Some(a), m, id)
    requires forall id :: Named(Some(a), id) <==> Named(Some(b), id)
    ensures AfterBoth(group, users, a, m) == AfterBoth(group, users, b, m)
  {
    forall id
      ensures !CannotBeNamed(group, Some(b), m, id)
    {
      assert !CannotBeNamed(group, Some(a), m, id);
    }
    AfterBothIsWanted(group, users, a, m);
    AfterBothIsWanted(group, users, b, m);
    SameWanted(group, Some(a), Some(b), m);
  }

  /** Naming a user once more repeats updates, but leaves the same memberships. */
  lemma RepeatedEntryChangesNothing(group: string, users: seq<Entry>, members: seq<UserID>, m: Memberships, i: nat)
    requires group != "" && Lists(users, m) && forall id :: !CannotBeNamed(group, Some(members), m, id)
    requires i < |members|
    ensures AfterBoth(group, users, members + [members[i]], m) == AfterBoth(group, users, members, m)
  {
    NamedOnceMore(members, i);
    OnlyNamesMatter(group, users, members, members + [members[i]], m);
  }

  lemma NamedOnceMore(members: seq<UserID>, i: nat)
    requires i < |members|
    ensures forall id :: Named(Some(members + [members[i]]), id) <==> Named(Some(members), id)
  {
    var repeated := members + [members[i]];
    forall id
      ensures Named(Some(repeated), id) <==> Named(Some(members), id)
    {
      assert forall j | 0 <= j < |members| :: repeated[j] == members[j];
    }
  }

  lemma SameWanted(group: string, a: Option<seq<UserID>>, b: Option<seq<UserID>>, m: Memberships)
    requires forall id :: Named(a, id) <==> Named(b, id)
    ensures (map id | id in m :: Wanted(group, a, id, m[id])) == (map id | id in m :: Wanted(group, b, id, m[id]))
  {
  }
}

/** The `aad o365group user list` command of
    src/m365/aad/commands/o365group/o365group-user-list.ts: the owners of a
    group relabelled as owners, its members and guests added unless only
    owners are asked for, and the role filter over the collected users. */
module O365GroupUserList {
  import opened Wrappers
  import opened JsStrings

  datatype User = User(id: string, displayName: string, userPrincipalName: string, userType: Option<string>)

  const Roles: seq<string> := ["Owner", "Member", "Guest"]
  const Owner := "Owner"

  function InvalidGuid(groupId: string): string {
    groupId + " is not a valid GUID"
  }

  function InvalidRole(role: string): string {
    role + " is not a valid role value. Allowed values Owner|Member|Guest"
  }

  // ---------------------------------------------------------------------------
  // specification functions

  /** Every user with `userType` overwritten to "Owner". */
  function AsOwners(users: seq<User>): seq<User>
  {
    if users == [] then [] else [users[0].(userType := Some(Owner))] + AsOwners(users[1..])
  }

  /** `users.filter(i => i.userType === role)`. */
  function WithRole(users: seq<User>, role: string): seq<User>
  {
    if users == [] then []
    else (if users[0].userType == Some(role) then [users[0]] else []) + WithRole(users[1..], role)
  }

  /** Relabelling keeps length and order and changes only `userType`. */
  lemma {:induction false} AsOwnersPointwise(users: seq<User>)
    ensures |AsOwners(users)| == |users|
    ensures forall i :: 0 <= i < |users| ==> AsOwners(users)[i] == users[i].(userType := Some(Owner))
  {
    if users != [] {
      AsOwnersPointwise(users[1..]);
    }
  }

  /** Filtering a concatenation filters each part. */
  lemma {:induction false} WithRoleAppend(a: seq<User>, b: seq<User>, role: string)
    ensures WithRole(a + b, role) == WithRole(a, role) + WithRole(b, role)
  {
    if a == [] {
      assert a + b == b;
    } else {
      assert (a + b)[0] == a[0];
      assert (a + b)[1..] == a[1..] + b;
      WithRoleAppend(a[1..], b, role);
      var head := if a[0].userType == Some(role) then [a[0]] else [];
      assert WithRole(a + b, role) == head + (WithRole(a[1..], role) + WithRole(b, role));
      assert head + (WithRole(a[1..], role) + WithRole(b, role)) == (head + WithRole(a[1..], role)) + WithRole(b, role);
    }
  }

  /** The filter keeps exactly the users of that role and nothing else. */
  lemma {:induction false} WithRoleMembers(users: seq<User>, role: string)
    ensures forall u :: u in WithRole(users, role) <==> u in users && u.userType == Some(role)
    ensures |WithRole(users, role)| <= |users|
    ensures (forall i :: 0 <= i < |users| ==> users[i].userType == Some(role)) ==> WithRole(users, role) == users
  {
    if users != [] {
      WithRoleMembers(users[1..], role);
      assert users == [users[0]] + users[1..];
    }
  }

  /** The filter keeps each user of that role as often as it occurs. */
  lemma {:induction false} WithRoleCounts(users: seq<User>, role: string)
    ensures forall u :: multiset(WithRole(users, role))[u] == if u.userType == Some(role) then multiset(users)[u] else 0
  {
    if users != [] {
      WithRoleCounts(users[1..], role);
      assert users == [users[0]] + users[1..];
      assert multiset(users) == multiset([users[0]]) + multiset(users[1..]);
    }
  }

  /** After relabelling, the owner filter keeps everyone and any other role
      keeps no one. */
  lemma {:induction false} WithRoleOfOwners(users: seq<User>, role: string)
    ensures WithRole(AsOwners(users), role) == if role == Owner then AsOwners(users) else []
  {
    if users != [] {
      WithRoleOfOwners(users[1..], role);
    }
  }

  /** Lines 35-56: the users listed, from the owners fetch and, unless the
      role is "Owner", the members fetch (transport errors as `Err`). */
  function Listed(role: Option<string>, owners: Result<seq<User>, string>, members: Result<seq<User>, string>)
    : Result<seq<User>, string>
  {
    if owners.Err? then Err(owners.error)
    else
      var collected :=
        if role == Some(Owner) then Ok(AsOwners(owners.value))
        else if members.Err? then Err(members.error)
        else Ok(AsOwners(owners.value) + members.value);
      if collected.Err? then collected
      else if Truthy(role) then Ok(WithRole(collected.value, role.value))
      else collected
  }

  /** Asking for owners never depends on the members fetch, and lists every
      owner. */
  lemma OwnersOnly(owners: seq<User>, members: Result<seq<User>, string>, other: Result<seq<User>, string>)
    ensures Listed(Some(Owner), Ok(owners), members) == Listed(Some(Owner), Ok(owners), other) == Ok(AsOwners(owners))
  {
    WithRoleOfOwners(owners, Owner);
  }

  /** Asking for another role lists exactly the members of that role: the
      relabelled owners never match it. */
  lemma OtherRole(role: string, owners: seq<User>, members: seq<User>)
    requires role != "" && role != Owner
    ensures Listed(Some(role), Ok(owners), Ok(members)) == Ok(WithRole(members, role))
  {
    WithRoleAppend(AsOwners(owners), members, role);
    WithRoleOfOwners(owners, role);
    assert [] + WithRole(members, role) == WithRole(members, role);
  }

  /** Without a role, owners then members and guests, unfiltered. */
  lemma NoRole(role: Option<string>, owners: seq<User>, members: seq<User>)
    requires !Truthy(role)
    ensures Listed(role, Ok(owners), Ok(members)) == Ok(AsOwners(owners) + members)
  {
  }

  // ---------------------------------------------------------------------------
  // validate

  /** Lines 92-104; `isValidGuid` stands for `Utils.isValidGuid`. */
  function Validate(groupId: string, role: Option<string>, isValidGuid: string -> bool): Validation
  {
    if !isValidGuid(groupId) then Invalid(InvalidGuid(groupId))
    else if Truthy(role) && role.value !in Roles then Invalid(InvalidRole(role.value))
    else Valid
  }

  /** Accepted exactly for a GUID group id and a role, when given, among
      Owner, Member and Guest; the group id is checked first. */
  lemma ValidateSpec(groupId: string, role: Option<string>, isValidGuid: string -> bool)
    ensures Validate(groupId, role, isValidGuid) == Valid <==>
      isValidGuid(groupId) && (Truthy(role) ==> role.value == "Owner" || role.value == "Member" || role.value == "Guest")
    ensures !isValidGuid(groupId) ==> Validate(groupId, role, isValidGuid) == Invalid(InvalidGuid(groupId))
  {
  }

  // ---------------------------------------------------------------------------
  // the command

  /** The users `aad o365group user list` collects. A fetch with `firstRun`
      set replaces them, a later one appends to them. */
  class O365GroupUserListCommand {
    var items: seq<User>

    constructor()
      ensures items == []
    {
      items := [];
    }

    /** Lines 58-70: the owners fetched, then every `userType` overwritten
        in place. */
    method GetOwners(fetched: Result<seq<User>, string>) returns (r: Result<(), string>)
      modifies this
      ensures fetched.Err? ==> r == Err(fetched.error) && items == old(items)
      ensures fetched.Ok? ==> r == Ok(()) && items == AsOwners(fetched.value)
    {
      if fetched.Err? {
        return Err(fetched.error);
      }
      items := fetched.value;
      AsOwnersPointwise(fetched.value);
      var i := 0;
      while i < |items|
        invariant 0 <= i <= |items| == |fetched.value|
        invariant forall k :: 0 <= k < i ==> items[k] == fetched.value[k].(userType := Some(Owner))
        invariant items[i..] == fetched.value[i..]
      {
        items := items[i := items[i].(userType := Some(Owner))];
        i := i + 1;
      }
      assert items == AsOwners(fetched.value);
      return Ok(());
    }

    /** Lines 72-75: the members and guests appended to the owners. */
    method GetMembersAndGuests(fetched: Result<seq<User>, string>) returns (r: Result<(), string>)
      modifies this
      ensures fetched.Err? ==> r == Err(fetched.error) && items == old(items)
      ensures fetched.Ok? ==> r == Ok(()) && items == old(items) + fetched.value
    {
      if fetched.Err? {
        return Err(fetched.error);
      }
      items := items + fetched.value;
      return Ok(());
    }

    /** Lines 35-56: what is listed, and the users the command then holds. */
    method CommandAction(role: Option<string>, owners: Result<seq<User>, string>, members: Result<seq<User>, string>)
      returns (r: Result<seq<User>, string>)
      modifies this
      ensures r == Listed(role, owners, members)
      ensures r.Ok? ==> items == r.value
    {
      var got := GetOwners(owners);
      if got.Err? {
        return Err(got.error);
      }
      if role != Some(Owner) {
        got := GetMembersAndGuests(members);
        if got.Err? {
          return Err(got.error);
        }
      }
      if Truthy(role) {
        items := WithRole(items, role.value);
      }
      return Ok(items);
    }
  }
}

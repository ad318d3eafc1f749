/** Resolution of the `--apisDelegated` and `--apisApplication` options of
    `aad app add` into `requiredResourceAccess` entries, as
    `getRequiredResourceAccessForApis` and the merge loop of `resolveApis`
    in src/m365/aad/commands/app/app-add.ts do it. The service principals
    are the ones the command fetched beforehand (its `items`). */
module AppPermissions {
  import opened Wrappers
  import opened JsStrings

  /** An OAuth2 permission scope or an app role of a service principal. */
  datatype Permission = Permission(id: string, value: string)

  datatype ServicePrincipal = ServicePrincipal(
    appId: string,
    appRoles: seq<Permission>,
    oauth2PermissionScopes: seq<Permission>,
    servicePrincipalNames: seq<string>)

  /** `{ id, type }`: a granted permission and whether it is a `Scope` or a `Role`. */
  datatype ResourceAccess = ResourceAccess(id: string, kind: string)

  datatype RequiredResourceAccess = RequiredResourceAccess(resourceAppId: string, resourceAccess: seq<ResourceAccess>)

  // ---------------------------------------------------------------------------
  // searching

  /** `items.find(...)` on the principals: the first one answering to `name`. */
  function FindPrincipal(items: seq<ServicePrincipal>, name: string): (r: Option<nat>)
    ensures r.Some? ==> r.value < |items| && Matches(items[r.value], name)
                        && forall j :: 0 <= j < r.value ==> !Matches(items[j], name)
    ensures r.None? ==> forall j :: 0 <= j < |items| ==> !Matches(items[j], name)
  {
    if items == [] then None
    else if Matches(items[0], name) then Some(0)
    else match FindPrincipal(items[1..], name)
      case None => None
      case Some(i) => Some(i + 1)
  }

  /** `scopesOfType.find(...)`: the first permission with the given value. */
  function FindPermission(scopes: seq<Permission>, value: string): (r: Option<nat>)
    ensures r.Some? ==> r.value < |scopes| && scopes[r.value].value == value
                        && forall j :: 0 <= j < r.value ==> scopes[j].value != value
    ensures r.None? ==> forall j :: 0 <= j < |scopes| ==> scopes[j].value != value
  {
    if scopes == [] then None
    else if scopes[0].value == value then Some(0)
    else match FindPermission(scopes[1..], value)
      case None => None
      case Some(i) => Some(i + 1)
  }

  /** `resolvedApis.find(...)`: the first entry for a resource. */
  function FindEntry(list: seq<RequiredResourceAccess>, appId: string): (r: Option<nat>)
    ensures r.Some? ==> r.value < |list| && list[r.value].resourceAppId == appId
                        && forall j :: 0 <= j < r.value ==> list[j].resourceAppId != appId
    ensures r.None? ==> forall j :: 0 <= j < |list| ==> list[j].resourceAppId != appId
  {
    if list == [] then None
    else if list[0].resourceAppId == appId then Some(0)
    else match FindEntry(list[1..], appId)
      case None => None
      case Some(i) => Some(i + 1)
  }

  // ---------------------------------------------------------------------------
  // one requested permission

  /** A requested `principal/permission`, split at its last `/`: the permission
      is what follows it, the principal what precedes it; without a `/` the
      principal is `""` (`substr(0, -1)`) and the permission the whole text. */
  function ParseRequest(api: string): (string, string)
  {
    var pos := LastIndexOf(api, '/');
    if pos < 0 then ("", api) else (api[..pos], api[pos + 1..])
  }

  /** The permission name holds no `/`; with a `/` the request is the
      principal name, a `/` and the permission name. */
  lemma ParseRequestSplits(api: string)
    ensures var (principal, permission) := ParseRequest(api);
      && '/' !in permission
      && ('/' in api ==> api == principal + "/" + permission)
      && ('/' !in api ==> principal == "" && permission == api)
  {
    var pos := LastIndexOf(api, '/');
    if pos >= 0 {
      assert api == api[..pos] + "/" + api[pos + 1..];
    }
  }

  /** A service principal answers to a name it lists, or to that name with a trailing `/`. */
  predicate Matches(sp: ServicePrincipal, name: string) {
    name in sp.servicePrincipalNames || name + "/" in sp.servicePrincipalNames
  }

  /** The permissions of a principal a scope type draws from: scopes for
      `Scope`, app roles for anything else. */
  function PermissionsOfType(sp: ServicePrincipal, scopeType: string): seq<Permission>
  {
    if scopeType == "Scope" then sp.oauth2PermissionScopes else sp.appRoles
  }

  function PrincipalNotFound(principal: string): string {
    "Service principal " + principal + " not found"
  }

  function PermissionNotFound(permission: string, principal: string): string {
    "Permission " + permission + " for service principal " + principal + " not found"
  }

  /** One requested (already trimmed) permission resolved against the fetched
      principals: the `appId` of the first matching principal and the id of
      its first permission of the right type with that value. */
  function ResolveRequest(items: seq<ServicePrincipal>, api: string, scopeType: string): Result<(string, string), string>
  {
    var (principal, permission) := ParseRequest(api);
    match FindPrincipal(items, principal)
    case None => Err(PrincipalNotFound(principal))
    case Some(i) =>
      var scopes := PermissionsOfType(items[i], scopeType);
      match FindPermission(scopes, permission)
      case None => Err(PermissionNotFound(permission, principal))
      case Some(j) => Ok((items[i].appId, scopes[j].id))
  }

  /** A request resolves exactly when some principal answers to its principal
      name and the first such principal has a permission of the right type
      with its permission name; it resolves to that principal's `appId` and
      that permission's id. Otherwise the message names what is missing. */
  lemma ResolveRequestSpec(items: seq<ServicePrincipal>, api: string, scopeType: string)
    ensures var (principal, permission) := ParseRequest(api);
      var r := ResolveRequest(items, api, scopeType);
      && (r.Err? ==> r.error == PrincipalNotFound(principal) || r.error == PermissionNotFound(permission, principal))
      && ((forall i :: 0 <= i < |items| ==> !Matches(items[i], principal)) <==> r == Err(PrincipalNotFound(principal)))
      && (r.Ok? <==> exists i, j :: 0 <= i < |items| && Matches(items[i], principal)
                      && (forall k :: 0 <= k < i ==> !Matches(items[k], principal))
                      && 0 <= j < |PermissionsOfType(items[i], scopeType)|
                      && PermissionsOfType(items[i], scopeType)[j].value == permission)
      && (r.Ok? ==> exists i, j :: 0 <= i < |items| && Matches(items[i], principal)
                      && 0 <= j < |PermissionsOfType(items[i], scopeType)|
                      && PermissionsOfType(items[i], scopeType)[j].value == permission
                      && r.value == (items[i].appId, PermissionsOfType(items[i], scopeType)[j].id))
  {
    var (principal, permission) := ParseRequest(api);
    match FindPrincipal(items, principal)
    case None =>
    case Some(i) =>
      var scopes := PermissionsOfType(items[i], scopeType);
      match FindPermission(scopes, permission)
      case None =>
        assert PrincipalNotFound(principal)[0] == 'S' && PermissionNotFound(permission, principal)[0] == 'P';
        forall i', j | 0 <= i' < |items| && Matches(items[i'], principal)
                       && (forall k :: 0 <= k < i' ==> !Matches(items[k], principal))
                       && 0 <= j < |PermissionsOfType(items[i'], scopeType)|
          ensures PermissionsOfType(items[i'], scopeType)[j].value != permission
        {
          assert i' == i;
        }
      case Some(j) =>
        assert scopes[j].value == permission;
  }

  // ---------------------------------------------------------------------------
  // accumulating per resource

  /** The resource app ids of a list, in order. */
  function AppIds(list: seq<RequiredResourceAccess>): (r: seq<string>)
    ensures |r| == |list| && forall i :: 0 <= i < |list| ==> r[i] == list[i].resourceAppId
  {
    if list == [] then [] else [list[0].resourceAppId] + AppIds(list[1..])
  }

  lemma AppIdsAppend(list: seq<RequiredResourceAccess>, e: RequiredResourceAccess)
    ensures AppIds(list + [e]) == AppIds(list) + [e.resourceAppId]
  {
    var l, r := AppIds(list + [e]), AppIds(list) + [e.resourceAppId];
    assert |l| == |r|;
    forall k | 0 <= k < |l| ensures l[k] == r[k] {
      if k < |list| {
        assert (list + [e])[k] == list[k];
      }
    }
  }

  /** No resource app id occurs twice. */
  predicate UniqueAppIds(list: seq<RequiredResourceAccess>) {
    forall i, j :: 0 <= i < j < |list| ==> list[i].resourceAppId != list[j].resourceAppId
  }

  /** Every access granted on `appId`, entry by entry in list order. */
  function AccessFor(list: seq<RequiredResourceAccess>, appId: string): seq<ResourceAccess>
  {
    if list == [] then []
    else
      AccessFor(list[..|list| - 1], appId)
      + (if list[|list| - 1].resourceAppId == appId then list[|list| - 1].resourceAccess else [])
  }

  /** Adds accesses to the first entry for `appId`, or appends a new entry
      for it at the end: the shared step of the resolver (one access at a
      time) and of the merge (a whole entry at a time). */
  function AddAccess(list: seq<RequiredResourceAccess>, entry: RequiredResourceAccess): (r: seq<RequiredResourceAccess>)
    ensures |r| == |list| || |r| == |list| + 1
  {
    match FindEntry(list, entry.resourceAppId)
    case Some(i) => list[i := list[i].(resourceAccess := list[i].resourceAccess + entry.resourceAccess)]
    case None => list + [entry]
  }

  /** Adding keeps the resources and their order, appending the entry's
      resource when it is new. */
  lemma AddAccessAppIds(list: seq<RequiredResourceAccess>, entry: RequiredResourceAccess)
    ensures entry.resourceAppId in AppIds(list) ==> AppIds(AddAccess(list, entry)) == AppIds(list)
    ensures entry.resourceAppId !in AppIds(list) ==> AppIds(AddAccess(list, entry)) == AppIds(list) + [entry.resourceAppId]
  {
    var r := AddAccess(list, entry);
    match FindEntry(list, entry.resourceAppId)
    case Some(i) =>
      assert AppIds(list)[i] == entry.resourceAppId;
      assert forall k :: 0 <= k < |r| ==> AppIds(r)[k] == AppIds(list)[k];
    case None =>
      assert entry.resourceAppId !in AppIds(list) by {
        forall k | 0 <= k < |list| ensures AppIds(list)[k] != entry.resourceAppId {}
      }
      assert forall k :: 0 <= k < |list| ==> AppIds(r)[k] == AppIds(list)[k];
  }

  /** Adding never creates a second entry for a resource. */
  lemma AddAccessUnique(list: seq<RequiredResourceAccess>, entry: RequiredResourceAccess)
    requires UniqueAppIds(list)
    ensures UniqueAppIds(AddAccess(list, entry))
  {
    var r := AddAccess(list, entry);
    AddAccessAppIds(list, entry);
    if entry.resourceAppId !in AppIds(list) {
      forall i, j | 0 <= i < j < |r|
        ensures r[i].resourceAppId != r[j].resourceAppId
      {
        assert AppIds(r)[i] == r[i].resourceAppId && AppIds(r)[j] == r[j].resourceAppId;
        if j == |list| {
          assert AppIds(list)[i] == list[i].resourceAppId;
        }
      }
    } else {
      forall i, j | 0 <= i < j < |r|
        ensures r[i].resourceAppId != r[j].resourceAppId
      {
        assert AppIds(r)[i] == r[i].resourceAppId && AppIds(r)[j] == r[j].resourceAppId;
        assert AppIds(list)[i] == list[i].resourceAppId && AppIds(list)[j] == list[j].resourceAppId;
      }
    }
  }

  /** Taking an element off the end of a list before or after an update. */
  lemma AccessForSplit(list: seq<RequiredResourceAccess>, k: nat, appId: string)
    requires k <= |list|
    ensures AccessFor(list, appId) == AccessFor(list[..k], appId) + AccessFor(list[k..], appId)
    decreases |list|
  {
    if k < |list| {
      var init := list[..|list| - 1];
      AccessForSplit(init, k, appId);
      assert init[..k] == list[..k];
      assert list[k..][..|list[k..]| - 1] == init[k..];
    } else {
      assert list[..k] == list;
      assert list[k..] == [];
    }
  }

  /** Extending the accesses of entry `i` inserts them right after that
      entry's own accesses. */
  lemma {:induction false} AccessForUpdate(list: seq<RequiredResourceAccess>, i: nat, extra: seq<ResourceAccess>, appId: string)
    requires i < |list|
    ensures var updated := list[i := list[i].(resourceAccess := list[i].resourceAccess + extra)];
      AccessFor(updated, appId)
      == AccessFor(list[..i + 1], appId) + (if list[i].resourceAppId == appId then extra else []) + AccessFor(list[i + 1..], appId)
    decreases |list|
  {
    var updated := list[i := list[i].(resourceAccess := list[i].resourceAccess + extra)];
    var init := list[..|list| - 1];
    var last := list[|list| - 1];
    if i == |list| - 1 {
      assert updated[..|updated| - 1] == init;
      assert list[..i + 1] == list;
      assert list[i + 1..] == [];
    } else {
      var x := if list[i].resourceAppId == appId then extra else [];
      var y := if last.resourceAppId == appId then last.resourceAccess else [];
      var head, rest := AccessFor(list[..i + 1], appId), AccessFor(init[i + 1..], appId);
      assert AccessFor(updated, appId)
          == AccessFor(init[i := init[i].(resourceAccess := init[i].resourceAccess + extra)], appId) + y by {
        assert updated[..|updated| - 1] == init[i := init[i].(resourceAccess := init[i].resourceAccess + extra)];
        assert updated[|updated| - 1] == last;
      }
      assert AccessFor(init[i := init[i].(resourceAccess := init[i].resourceAccess + extra)], appId)
          == head + x + rest by {
        AccessForUpdate(init, i, extra, appId);
        assert init[..i + 1] == list[..i + 1];
      }
      assert AccessFor(list[i + 1..], appId) == rest + y by {
        assert list[i + 1..][..|list[i + 1..]| - 1] == init[i + 1..];
      }
      assert head + x + rest + y == head + x + (rest + y);
    }
  }

  /** Adding an entry appends its accesses to those of its resource and no other. */
  lemma AccessForAdd(list: seq<RequiredResourceAccess>, entry: RequiredResourceAccess, appId: string)
    requires UniqueAppIds(list)
    ensures AccessFor(AddAccess(list, entry), appId)
         == AccessFor(list, appId) + (if entry.resourceAppId == appId then entry.resourceAccess else [])
  {
    match FindEntry(list, entry.resourceAppId)
    case Some(i) =>
      AccessForExtend(list, i, entry.resourceAccess, appId);
    case None =>
      var r := list + [entry];
      assert r[..|r| - 1] == list;
  }

  /** Extending the only entry of a resource appends to that resource's accesses. */
  lemma AccessForExtend(list: seq<RequiredResourceAccess>, i: nat, extra: seq<ResourceAccess>, appId: string)
    requires UniqueAppIds(list) && i < |list|
    ensures AccessFor(list[i := list[i].(resourceAccess := list[i].resourceAccess + extra)], appId)
         == AccessFor(list, appId) + (if list[i].resourceAppId == appId then extra else [])
  {
    AccessForUpdate(list, i, extra, appId);
    AccessForSplit(list, i + 1, appId);
    var front, back := AccessFor(list[..i + 1], appId), AccessFor(list[i + 1..], appId);
    if list[i].resourceAppId == appId {
      AccessForNone(list[i + 1..], appId, list, i + 1);
      assert front + extra + back == (front + back) + extra;
    } else {
      assert front + [] + back == front + back;
    }
  }

  /** A stretch of a unique list after the entry for `appId` grants nothing on it. */
  lemma {:induction false} AccessForNone(rest: seq<RequiredResourceAccess>, appId: string,
                                         list: seq<RequiredResourceAccess>, from: nat)
    requires UniqueAppIds(list) && 0 < from <= |list| && rest == list[from..]
    requires list[from - 1].resourceAppId == appId
    ensures AccessFor(rest, appId) == []
    decreases |rest|
  {
    if rest != [] {
      var init := rest[..|rest| - 1];
      assert init == list[from..|list| - 1];
      assert list[..|list| - 1][from..] == init;
      AccessForNone(init, appId, list[..|list| - 1], from);
      assert rest[|rest| - 1] == list[|list| - 1];
    }
  }

  // ---------------------------------------------------------------------------
  // getRequiredResourceAccessForApis

  /** `apis.split(',').map(a => a.trim())`. */
  function RequestedApis(apis: string): (r: seq<string>)
    ensures |r| == |Split(apis, ',')|
    ensures forall i :: 0 <= i < |r| ==> r[i] == Trim(Split(apis, ',')[i])
  {
    var pieces := Split(apis, ',');
    seq(|pieces|, i requires 0 <= i < |pieces| => Trim(pieces[i]))
  }

  /** The requests resolved in order into one entry per resource; the first
      request that does not resolve is the outcome, with no partial list. */
  function ResolveAll(items: seq<ServicePrincipal>, requests: seq<string>, scopeType: string): Result<seq<RequiredResourceAccess>, string>
  {
    if requests == [] then Ok([])
    else
      match ResolveAll(items, requests[..|requests| - 1], scopeType)
      case Err(e) => Err(e)
      case Ok(acc) =>
        match ResolveRequest(items, requests[|requests| - 1], scopeType)
        case Err(e) => Err(e)
        case Ok((appId, id)) => Ok(AddAccess(acc, RequiredResourceAccess(appId, [ResourceAccess(id, scopeType)])))
  }

  /** The resolved entries of an option: none when the option is absent or empty. */
  function RequiredResourceAccessFor(items: seq<ServicePrincipal>, apis: Option<string>, scopeType: string): Result<seq<RequiredResourceAccess>, string>
  {
    if !Truthy(apis) then Ok([]) else ResolveAll(items, RequestedApis(apis.value), scopeType)
  }

  /** Lines 375-420: walks the requested permissions, stops at the first that
      does not resolve, and otherwise adds each one's `{ id, type }` to the
      entry of its resource, creating the entry on first use. */
  method GetRequiredResourceAccessForApis(items: seq<ServicePrincipal>, apis: Option<string>, scopeType: string)
    returns (r: Result<seq<RequiredResourceAccess>, string>)
    ensures r == RequiredResourceAccessFor(items, apis, scopeType)
  {
    if !Truthy(apis) {
      return Ok([]);
    }
    var requested := RequestedApis(apis.value);
    var resolved: seq<RequiredResourceAccess> := [];
    var n := 0;
    while n < |requested|
      invariant 0 <= n <= |requested|
      invariant ResolveAll(items, requested[..n], scopeType) == Ok(resolved)
    {
      var found := ResolveRequest(items, requested[n], scopeType);
      if found.Err? {
        ResolveAllStops(items, requested, n, scopeType);
        return Err(found.error);
      }
      var (appId, id) := found.value;
      ResolveAllStep(items, requested, n, scopeType);
      resolved := AddAccess(resolved, RequiredResourceAccess(appId, [ResourceAccess(id, scopeType)]));
      n := n + 1;
    }
    assert requested[..n] == requested;
    r := Ok(resolved);
  }

  /** A request that resolves adds its permission to the resolution so far. */
  lemma ResolveAllStep(items: seq<ServicePrincipal>, requests: seq<string>, n: nat, scopeType: string)
    requires n < |requests|
    requires ResolveAll(items, requests[..n], scopeType).Ok?
    requires ResolveRequest(items, requests[n], scopeType).Ok?
    ensures var (appId, id) := ResolveRequest(items, requests[n], scopeType).value;
      ResolveAll(items, requests[..n + 1], scopeType)
        == Ok(AddAccess(ResolveAll(items, requests[..n], scopeType).value, RequiredResourceAccess(appId, [ResourceAccess(id, scopeType)])))
  {
    assert requests[..n + 1][..n] == requests[..n];
    assert requests[..n + 1][n] == requests[n];
  }

  /** A failing request ends the resolution with its own error. */
  lemma {:induction false} ResolveAllStops(items: seq<ServicePrincipal>, requests: seq<string>, n: nat, scopeType: string)
    requires n < |requests|
    requires ResolveAll(items, requests[..n], scopeType).Ok?
    requires ResolveRequest(items, requests[n], scopeType).Err?
    ensures ResolveAll(items, requests, scopeType) == Err(ResolveRequest(items, requests[n], scopeType).error)
    decreases |requests|
  {
    if n + 1 == |requests| {
      assert requests[..n] == requests[..|requests| - 1];
    } else {
      var init := requests[..|requests| - 1];
      assert init[..n] == requests[..n];
      ResolveAllStops(items, init, n, scopeType);
    }
  }

  // ---------------------------------------------------------------------------
  // properties of the resolution

  /** The resolution succeeds exactly when every request resolves, and fails
      with the error of the first one that does not. */
  lemma {:induction false} ResolveAllOutcome(items: seq<ServicePrincipal>, requests: seq<string>, scopeType: string)
    ensures ResolveAll(items, requests, scopeType).Ok?
        <==> forall i :: 0 <= i < |requests| ==> ResolveRequest(items, requests[i], scopeType).Ok?
    ensures ResolveAll(items, requests, scopeType).Err? ==>
      exists i :: 0 <= i < |requests|
        && ResolveRequest(items, requests[i], scopeType).Err?
        && ResolveAll(items, requests, scopeType).error == ResolveRequest(items, requests[i], scopeType).error
        && forall k :: 0 <= k < i ==> ResolveRequest(items, requests[k], scopeType).Ok?
    decreases |requests|
  {
    if requests != [] {
      var n := |requests| - 1;
      var init := requests[..n];
      ResolveAllOutcome(items, init, scopeType);
      assert forall i :: 0 <= i < n ==> init[i] == requests[i];
      if ResolveAll(items, init, scopeType).Err? {
        assert ResolveAll(items, requests, scopeType) == ResolveAll(items, init, scopeType);
        var i :| 0 <= i < |init| && ResolveRequest(items, init[i], scopeType).Err?
          && ResolveAll(items, init, scopeType).error == ResolveRequest(items, init[i], scopeType).error
          && forall k :: 0 <= k < i ==> ResolveRequest(items, init[k], scopeType).Ok?;
        assert ResolveRequest(items, requests[i], scopeType).Err?;
      } else if ResolveRequest(items, requests[n], scopeType).Err? {
        assert ResolveAll(items, requests, scopeType) == Err(ResolveRequest(items, requests[n], scopeType).error);
        assert forall k :: 0 <= k < n ==> ResolveRequest(items, requests[k], scopeType).Ok?;
      } else {
        assert ResolveAll(items, requests, scopeType).Ok?;
        forall i | 0 <= i < |requests|
          ensures ResolveRequest(items, requests[i], scopeType).Ok?
        {
          if i < n {
            assert init[i] == requests[i];
            assert ResolveRequest(items, init[i], scopeType).Ok?;
          } else {
            assert i == n;
          }
        }
      }
    }
  }

  /** A resolved list holds one entry per resource. */
  lemma {:induction false} ResolveAllUnique(items: seq<ServicePrincipal>, requests: seq<string>, scopeType: string)
    requires ResolveAll(items, requests, scopeType).Ok?
    ensures UniqueAppIds(ResolveAll(items, requests, scopeType).value)
    decreases |requests|
  {
    if requests != [] {
      var init := requests[..|requests| - 1];
      ResolveAllUnique(items, init, scopeType);
      var (appId, id) := ResolveRequest(items, requests[|requests| - 1], scopeType).value;
      AddAccessUnique(ResolveAll(items, init, scopeType).value, RequiredResourceAccess(appId, [ResourceAccess(id, scopeType)]));
    }
  }

  /** The accesses a request contributes to `appId`: its `{ id, type }` when it
      resolves to that resource. */
  function Contribution(items: seq<ServicePrincipal>, request: string, scopeType: string, appId: string): seq<ResourceAccess>
  {
    match ResolveRequest(items, request, scopeType)
    case Ok((a, id)) => if a == appId then [ResourceAccess(id, scopeType)] else []
    case Err(_) => []
  }

  /** The contributions of all requests to `appId`, in request order. */
  function Contributions(items: seq<ServicePrincipal>, requests: seq<string>, scopeType: string, appId: string): seq<ResourceAccess>
  {
    if requests == [] then []
    else Contributions(items, requests[..|requests| - 1], scopeType, appId)
         + Contribution(items, requests[|requests| - 1], scopeType, appId)
  }

  /** The entry of each resource lists the permissions resolved on it, in
      request order and each with the scope type. */
  lemma {:induction false} ResolveAllAccess(items: seq<ServicePrincipal>, requests: seq<string>, scopeType: string, appId: string)
    requires ResolveAll(items, requests, scopeType).Ok?
    ensures AccessFor(ResolveAll(items, requests, scopeType).value, appId) == Contributions(items, requests, scopeType, appId)
    decreases |requests|
  {
    if requests != [] {
      var init := requests[..|requests| - 1];
      ResolveAllAccess(items, init, scopeType, appId);
      ResolveAllUnique(items, init, scopeType);
      var (a, id) := ResolveRequest(items, requests[|requests| - 1], scopeType).value;
      AccessForAdd(ResolveAll(items, init, scopeType).value, RequiredResourceAccess(a, [ResourceAccess(id, scopeType)]), appId);
    }
  }

  // ---------------------------------------------------------------------------
  // merging application permissions onto delegated ones

  /** The merge of `resolveApis`: each application entry in turn is added to
      the delegated list. */
  function Merged(delegated: seq<RequiredResourceAccess>, application: seq<RequiredResourceAccess>): seq<RequiredResourceAccess>
  {
    if application == [] then delegated
    else AddAccess(Merged(delegated, application[..|application| - 1]), application[|application| - 1])
  }

  /** Lines 353-361: each application entry is appended onto the delegated
      entry of the same resource, or pushed as a new entry at the end. */
  method MergeResolvedApis(delegated: seq<RequiredResourceAccess>, application: seq<RequiredResourceAccess>)
    returns (resolved: seq<RequiredResourceAccess>)
    ensures resolved == Merged(delegated, application)
  {
    resolved := delegated;
    var n := 0;
    while n < |application|
      invariant 0 <= n <= |application|
      invariant resolved == Merged(delegated, application[..n])
    {
      assert application[..n + 1][..n] == application[..n];
      var entry := application[n];
      var found := FindEntry(resolved, entry.resourceAppId);
      if found.Some? {
        var i := found.value;
        resolved := resolved[i := resolved[i].(resourceAccess := resolved[i].resourceAccess + entry.resourceAccess)];
      } else {
        resolved := resolved + [entry];
      }
      n := n + 1;
    }
    assert application[..n] == application;
  }

  /** Merging keeps one entry per resource. */
  lemma {:induction false} MergedUnique(delegated: seq<RequiredResourceAccess>, application: seq<RequiredResourceAccess>)
    requires UniqueAppIds(delegated)
    ensures UniqueAppIds(Merged(delegated, application))
    decreases |application|
  {
    if application != [] {
      MergedUnique(delegated, application[..|application| - 1]);
      AddAccessUnique(Merged(delegated, application[..|application| - 1]), application[|application| - 1]);
    }
  }

  /** Every resource gets its delegated accesses followed by its application accesses. */
  lemma {:induction false} MergedAccess(delegated: seq<RequiredResourceAccess>, application: seq<RequiredResourceAccess>, appId: string)
    requires UniqueAppIds(delegated)
    ensures AccessFor(Merged(delegated, application), appId) == AccessFor(delegated, appId) + AccessFor(application, appId)
    decreases |application|
  {
    if application != [] {
      var init := application[..|application| - 1];
      var last := application[|application| - 1];
      var merged := Merged(delegated, init);
      var d, a := AccessFor(delegated, appId), AccessFor(init, appId);
      var x := if last.resourceAppId == appId then last.resourceAccess else [];
      assert Merged(delegated, application) == AddAccess(merged, last);
      assert AccessFor(application, appId) == a + x;
      assert AccessFor(merged, appId) == d + a by {
        MergedAccess(delegated, init, appId);
      }
      assert AccessFor(AddAccess(merged, last), appId) == (d + a) + x by {
        MergedUnique(delegated, init);
        AccessForAdd(merged, last, appId);
      }
      assert (d + a) + x == d + (a + x);
    } else {
      assert AccessFor(delegated, appId) + [] == AccessFor(delegated, appId);
    }
  }

  /** The delegated resources keep their places; any new resource comes after them. */
  lemma {:induction false} MergedKeepsDelegated(delegated: seq<RequiredResourceAccess>, application: seq<RequiredResourceAccess>)
    ensures AppIds(delegated) <= AppIds(Merged(delegated, application))
    decreases |application|
  {
    if application != [] {
      var init := application[..|application| - 1];
      var last := application[|application| - 1];
      MergedKeepsDelegated(delegated, init);
      AddAccessAppIds(Merged(delegated, init), last);
    }
  }

  /** The ids of `ids` that are not yet known, each at its first occurrence,
      in order. */
  function NewIds(known: seq<string>, ids: seq<string>): seq<string>
  {
    if ids == [] then []
    else
      var earlier := NewIds(known, ids[..|ids| - 1]);
      var id := ids[|ids| - 1];
      earlier + (if id in known + earlier then [] else [id])
  }

  /** The merge lists the delegated resources first, in their order, then
      each resource only the application list names, in the order the
      application list first names it. */
  lemma {:induction false} MergedOrder(delegated: seq<RequiredResourceAccess>, application: seq<RequiredResourceAccess>)
    ensures AppIds(Merged(delegated, application)) == AppIds(delegated) + NewIds(AppIds(delegated), AppIds(application))
    decreases |application|
  {
    if application == [] {
      assert AppIds(delegated) + [] == AppIds(delegated);
    } else {
      var init := application[..|application| - 1];
      var last := application[|application| - 1];
      MergedOrder(delegated, init);
      MergedOrderStep(delegated, init, last);
      assert init + [last] == application;
    }
  }

  /** One more application entry extends the order of the merge. */
  lemma MergedOrderStep(delegated: seq<RequiredResourceAccess>, init: seq<RequiredResourceAccess>, last: RequiredResourceAccess)
    requires AppIds(Merged(delegated, init)) == AppIds(delegated) + NewIds(AppIds(delegated), AppIds(init))
    ensures AppIds(Merged(delegated, init + [last]))
         == AppIds(delegated) + NewIds(AppIds(delegated), AppIds(init + [last]))
  {
    var merged := Merged(delegated, init);
    var known, earlier := AppIds(delegated), NewIds(AppIds(delegated), AppIds(init));
    var ids := AppIds(init + [last]);
    assert ids[..|ids| - 1] == AppIds(init) && ids[|ids| - 1] == last.resourceAppId by {
      AppIdsAppend(init, last);
    }
    var added := if last.resourceAppId in known + earlier then [] else [last.resourceAppId];
    assert NewIds(known, ids) == earlier + added;
    assert Merged(delegated, init + [last]) == AddAccess(merged, last) by {
      assert (init + [last])[..|init|] == init;
    }
    assert AppIds(AddAccess(merged, last)) == (known + earlier) + added by {
      AddAccessAppIds(merged, last);
    }
    assert (known + earlier) + added == known + (earlier + added);
  }

  /** The merged list covers exactly the resources of both lists. */
  lemma {:induction false} MergedResources(delegated: seq<RequiredResourceAccess>, application: seq<RequiredResourceAccess>)
    ensures forall id :: id in AppIds(Merged(delegated, application)) <==> id in AppIds(delegated) || id in AppIds(application)
    decreases |application|
  {
    if application != [] {
      var init := application[..|application| - 1];
      var last := application[|application| - 1];
      var before := AppIds(Merged(delegated, init));
      MergedResources(delegated, init);
      AddAccessAppIds(Merged(delegated, init), last);
      assert init + [last] == application;
      AppIdsAppend(init, last);
      var after := AppIds(Merged(delegated, application));
      forall id
        ensures id in after <==> id in AppIds(delegated) || id in AppIds(application)
      {
        assert id in AppIds(application) <==> id in AppIds(init) || id == last.resourceAppId;
        assert id in after <==> id in before || id == last.resourceAppId;
      }
    }
  }

  /** Merging nothing leaves the delegated list as it is. */
  lemma MergedNothing(delegated: seq<RequiredResourceAccess>)
    ensures Merged(delegated, []) == delegated
  {
  }

  /** Merging onto no delegated entries gives the application list itself when
      it holds one entry per resource. */
  lemma {:induction false} MergedOntoNothing(application: seq<RequiredResourceAccess>)
    requires UniqueAppIds(application)
    ensures Merged([], application) == application
    decreases |application|
  {
    if application != [] {
      var init := application[..|application| - 1];
      var last := application[|application| - 1];
      MergedOntoNothing(init);
      assert last.resourceAppId !in AppIds(init) by {
        forall i | 0 <= i < |init|
          ensures AppIds(init)[i] != last.resourceAppId
        {
          assert AppIds(init)[i] == application[i].resourceAppId;
        }
      }
      assert init + [last] == application;
    }
  }

  // ---------------------------------------------------------------------------
  // resolveApis

  /** The outcome of resolving both lists against the fetched principals:
      the delegated failure first, then the application one, else the merge. */
  function ResolvedApis(items: seq<ServicePrincipal>, apisDelegated: Option<string>, apisApplication: Option<string>)
    : Result<seq<RequiredResourceAccess>, string>
  {
    var d := RequiredResourceAccessFor(items, apisDelegated, "Scope");
    var a := RequiredResourceAccessFor(items, apisApplication, "Role");
    if d.Err? then Err(d.error) else if a.Err? then Err(a.error) else Ok(Merged(d.value, a.value))
  }

  /** Lines 331-373: no option, no lookup and no entries; otherwise the fetch
      of the service principals, the delegated then the application
      resolution (the first failure wins), and the merge. */
  method ResolveApis(apisDelegated: Option<string>, apisApplication: Option<string>,
                     fetched: Result<seq<ServicePrincipal>, string>)
    returns (r: Result<seq<RequiredResourceAccess>, string>)
    ensures !Truthy(apisDelegated) && !Truthy(apisApplication) ==> r == Ok([])
    ensures (Truthy(apisDelegated) || Truthy(apisApplication)) && fetched.Err? ==> r == Err(fetched.error)
    ensures (Truthy(apisDelegated) || Truthy(apisApplication)) && fetched.Ok? ==>
      r == ResolvedApis(fetched.value, apisDelegated, apisApplication)
  {
    if !Truthy(apisDelegated) && !Truthy(apisApplication) {
      return Ok([]);
    }
    if fetched.Err? {
      return Err(fetched.error);
    }
    var items := fetched.value;
    var resolvedApis := GetRequiredResourceAccessForApis(items, apisDelegated, "Scope");
    if resolvedApis.Err? {
      return Err(resolvedApis.error);
    }
    var resolvedApplicationApis := GetRequiredResourceAccessForApis(items, apisApplication, "Role");
    if resolvedApplicationApis.Err? {
      return Err(resolvedApplicationApis.error);
    }
    var merged := MergeResolvedApis(resolvedApis.value, resolvedApplicationApis.value);
    return Ok(merged);
  }

  /** A successful resolution holds one entry per resource, granting on each
      its delegated scopes followed by its application roles. */
  lemma ResolvedApisShape(items: seq<ServicePrincipal>, apisDelegated: Option<string>, apisApplication: Option<string>, appId: string)
    requires RequiredResourceAccessFor(items, apisDelegated, "Scope").Ok?
    requires RequiredResourceAccessFor(items, apisApplication, "Role").Ok?
    ensures var d := RequiredResourceAccessFor(items, apisDelegated, "Scope").value;
      var a := RequiredResourceAccessFor(items, apisApplication, "Role").value;
      && UniqueAppIds(Merged(d, a))
      && AccessFor(Merged(d, a), appId)
         == (if Truthy(apisDelegated) then Contributions(items, RequestedApis(apisDelegated.value), "Scope", appId) else [])
          + (if Truthy(apisApplication) then Contributions(items, RequestedApis(apisApplication.value), "Role", appId) else [])
  {
    var d := RequiredResourceAccessFor(items, apisDelegated, "Scope").value;
    var a := RequiredResourceAccessFor(items, apisApplication, "Role").value;
    if Truthy(apisDelegated) {
      ResolveAllUnique(items, RequestedApis(apisDelegated.value), "Scope");
      ResolveAllAccess(items, RequestedApis(apisDelegated.value), "Scope", appId);
    }
    if Truthy(apisApplication) {
      ResolveAllAccess(items, RequestedApis(apisApplication.value), "Role", appId);
    }
    MergedUnique(d, a);
    MergedAccess(d, a, appId);
  }

  // ---------------------------------------------------------------------------
  // worked cases

  /** A principal registered with a trailing `/` answers to the bare name, but
      one registered under the bare name does not answer to the name with a
      trailing `/`. */
  lemma LookupTolerance()
    ensures Matches(ServicePrincipal("R1", [], [], ["Contoso.Api/"]), "Contoso.Api")
    ensures Matches(ServicePrincipal("R1", [], [], ["Contoso.Api"]), "Contoso.Api")
    ensures !Matches(ServicePrincipal("R1", [], [], ["Contoso.Api"]), "Contoso.Api/")
  {
    assert "Contoso.Api" + "/" == "Contoso.Api/";
    assert "Contoso.Api/" != "Contoso.Api" by {
      assert |"Contoso.Api/"| != |"Contoso.Api"|;
    }
    assert "Contoso.Api/" + "/" != "Contoso.Api" by {
      assert |"Contoso.Api/" + "/"| != |"Contoso.Api"|;
    }
  }

  /** A single request `name/permission`, neither part holding a comma nor
      the permission a `/`, is requested as it is... */
  lemma SingleRequestListed(name: string, permission: string)
    requires ',' !in name && ',' !in permission
    requires name != [] && !IsWhitespace(name[0]) && permission != [] && !IsWhitespace(permission[|permission| - 1])
    ensures RequestedApis(name + "/" + permission) == [name + "/" + permission]
  {
    var api := name + "/" + permission;
    assert Split(api, ',') == [api] by {
      assert ',' !in api;
      SplitWithoutSeparator(api, ',');
    }
    assert Trim(api) == api by {
      assert api[0] == name[0] && api[|api| - 1] == permission[|permission| - 1];
      TrimOfTrimmed(api);
    }
  }

  /** ...names its principal and permission... */
  lemma SingleRequestParsed(name: string, permission: string)
    requires '/' !in permission
    ensures ParseRequest(name + "/" + permission) == (name, permission)
  {
    var api := name + "/" + permission;
    var pos := LastIndexOf(api, '/');
    assert api[|name|] == '/' && api[|name| + 1..] == permission && api[..|name|] == name;
    assert pos == |name| by {
      assert pos >= |name| by {
        assert api[|name|] in api[|name|..];
      }
      assert pos <= |name|;
    }
  }

  /** ...and resolves to the scope of that name on the principal registered
      under it. */
  lemma ResolveOneScope(name: string, permission: string, appId: string, id: string)
    requires ',' !in name && ',' !in permission && '/' !in permission
    requires name != [] && !IsWhitespace(name[0]) && permission != [] && !IsWhitespace(permission[|permission| - 1])
    ensures var items := [ServicePrincipal(appId, [], [Permission(id, permission)], [name])];
      RequiredResourceAccessFor(items, Some(name + "/" + permission), "Scope")
        == Ok([RequiredResourceAccess(appId, [ResourceAccess(id, "Scope")])])
  {
    var items := [ServicePrincipal(appId, [], [Permission(id, permission)], [name])];
    var api := name + "/" + permission;
    SingleRequestListed(name, permission);
    SingleRequestParsed(name, permission);
    assert FindPrincipal(items, name) == Some(0);
    assert FindPermission(items[0].oauth2PermissionScopes, permission) == Some(0);
    assert ResolveRequest(items, api, "Scope") == Ok((appId, id));
    assert [api][..0] == [];
    var entry := RequiredResourceAccess(appId, [ResourceAccess(id, "Scope")]);
    assert ResolveAll(items, [api], "Scope") == Ok(AddAccess([], entry));
    assert AddAccess([], entry) == [entry] by {
      assert FindEntry([], appId) == None;
      assert [] + [entry] == [entry];
    }
    assert Truthy(Some(api));
  }

  /** `Contoso.Api/Read.All` against the principal registered as `Contoso.Api`. */
  lemma ResolveContosoScope()
    ensures var items := [ServicePrincipal("R1", [], [Permission("S1", "Read.All")], ["Contoso.Api"])];
      RequiredResourceAccessFor(items, Some("Contoso.Api/Read.All"), "Scope")
        == Ok([RequiredResourceAccess("R1", [ResourceAccess("S1", "Scope")])])
  {
    assert "Contoso.Api" + "/" + "Read.All" == "Contoso.Api/Read.All";
    ResolveOneScope("Contoso.Api", "Read.All", "R1", "S1");
  }

  /** One unknown principal fails the whole batch, however many requests
      around it resolve. */
  lemma ResolveUnknownPrincipal()
    ensures var items := [ServicePrincipal("A", [], [Permission("S", "r")], ["a"])];
      ResolveAll(items, ["a/r", "b/r", "a/r"], "Scope") == Err("Service principal b not found")
  {
    var items := [ServicePrincipal("A", [], [Permission("S", "r")], ["a"])];
    var requests := ["a/r", "b/r", "a/r"];
    assert LastIndexOf("b/r", '/') == 1;
    assert "b/r"[..1] == "b" && "b/r"[2..] == "r";
    assert ParseRequest("b/r") == ("b", "r");
    assert !Matches(items[0], "b") by {
      assert "b" != "a" && "b" + "/" != "a";
    }
    assert FindPrincipal(items, "b") == None;
    assert PrincipalNotFound("b") == "Service principal b not found";
    assert ResolveRequest(items, "b/r", "Scope") == Err("Service principal b not found");
    assert requests[..2][..1] == ["a/r"] && requests[..2] == ["a/r", "b/r"];
    assert LastIndexOf("a/r", '/') == 1;
    assert "a/r"[..1] == "a" && "a/r"[2..] == "r";
    assert ParseRequest("a/r") == ("a", "r");
    assert FindPrincipal(items, "a") == Some(0);
    assert FindPermission(items[0].oauth2PermissionScopes, "r") == Some(0);
    assert ResolveRequest(items, "a/r", "Scope").Ok?;
    assert ["a/r"][..0] == [];
    assert ResolveAll(items, ["a/r"], "Scope").Ok?;
    assert ResolveAll(items, requests[..2], "Scope").Err?;
    assert ResolveAll(items, requests[..2], "Scope") == Err("Service principal b not found");
  }

  /** Application permissions join the delegated entry of their resource;
      a resource with no delegated entry is added at the end. */
  lemma MergeAccumulates()
    ensures var a := ResourceAccess("A", "Scope");
      var b := ResourceAccess("B", "Role");
      var c := ResourceAccess("C", "Role");
      Merged([RequiredResourceAccess("R1", [a])], [RequiredResourceAccess("R1", [b]), RequiredResourceAccess("R2", [c])])
        == [RequiredResourceAccess("R1", [a, b]), RequiredResourceAccess("R2", [c])]
  {
    var a := ResourceAccess("A", "Scope");
    var b := ResourceAccess("B", "Role");
    var c := ResourceAccess("C", "Role");
    var delegated := [RequiredResourceAccess("R1", [a])];
    var application := [RequiredResourceAccess("R1", [b]), RequiredResourceAccess("R2", [c])];
    assert application[..1] == [RequiredResourceAccess("R1", [b])];
    assert application[..1][..0] == [];
    assert FindEntry(delegated, "R1") == Some(0);
    assert [a] + [b] == [a, b];
    var once := [RequiredResourceAccess("R1", [a, b])];
    assert Merged(delegated, application[..1]) == once;
    assert "R1" != "R2";
    assert FindEntry(once, "R2") == None;
    assert Merged(delegated, application) == AddAccess(once, application[1]);
  }
}

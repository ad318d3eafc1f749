# cli-microsoft365 command cores in Dafny

This project models the data-shaping and validation logic of four commands of
the CLI for Microsoft 365. Every HTTP response the commands depend on is a
parameter of the model.

- **`aad app add`** (`app_permissions.dfy`, `app_manifest.dfy`, `app_add.dfy`):
  - Resolution of the requested delegated and application permissions (`principal/permission` strings) against the fetched service principals.
  - The merge of the application permissions onto the delegated ones.
  - The conversion of a portal (v2) manifest into the v1.6 shape the Graph API accepts.
  - The bodies of the create, update and URI requests, and the option validation.
  - The command's own state: the fetched principals, the parsed manifest and the app name.
- **`teams app list`** (`teams_app_list.dfy`): which endpoint is listed, the
  resolution of a team name to a single team id, the rows printed, and the
  validation.
- **`search externalconnection add`** (`externalconnection_add.dfy`): the
  connection-id rules and the posted connection.
- **`aad o365group user list`** (`o365group_user_list.dfy`): the command holds
  the users it has collected. Fetched owners are relabelled `Owner` in place.
  Members and guests are fetched unless only owners are wanted. The role filter
  and the validation complete the model.

Three support modules give JavaScript's semantics in Dafny's terms:

- `wrappers.dfy` holds `Option`, `Result` and `Validation`.
- `js_strings.dfy` holds truthiness of an optional string, `split`, ECMAScript `trim`, `lastIndexOf`, a global replace and UTF-16 `length`.
- `json.dfy` holds JSON values, their truthiness, and assignment where `undefined` drops the property, as `JSON.stringify` does.

Where the source mutates objects in place, the model follows the source's form:

- A command's fields become a `class` whose methods modify them.
- The loops of `getRequiredResourceAccessForApis`, the merge in `resolveApis`, the `replyUrlsWithType` walk and the owner relabelling become `while` loops.
- Each loop is proved equal to a specification function, and the properties are proved about that function.

The manifest is a Dafny value, so the deep copy `transformManifest` starts from is automatic: the caller's manifest cannot change.

Two behaviours of the code a reader may not expect:

- A principal registered as `Contoso.Api/` is found by the name `Contoso.Api`. A principal registered as `Contoso.Api` is not found by `Contoso.Api/`. The code tries the name and the name followed by `/`, never the name without its trailing `/` (`AppPermissions.LookupTolerance`).
- A resolved permission's kind is the scope type the code passes: `Scope` for delegated and `Role` for application permissions.

## Model

| member | source | states |
|---|---|---|
| JsStrings.JoinSplit | src/m365/search/commands/externalconnection/externalconnection-add.ts:40 | joining the pieces of `split(',')` with commas gives back the string, so splitting loses nothing |
| JsStrings.SplitJoin | src/m365/teams/commands/app/app-list.ts:63 | splitting a comma-joined list of comma-free pieces gives back the pieces |
| JsStrings.Trim | src/m365/aad/commands/app/app-add.ts:381 | the trimmed text is a contiguous slice of the input with only whitespace cut on either side, and neither end of the result is whitespace |
| JsStrings.TrimIdempotent | src/m365/aad/commands/app/app-add.ts:381 | trimming twice is trimming once |
| JsStrings.LastIndexOf | src/m365/aad/commands/app/app-add.ts:383 | -1 exactly when the character is absent; otherwise the position holds the character and none follows it |
| JsStrings.ReplaceAllAbsent | src/m365/aad/commands/app/app-add.ts:301 | a global replace of a pattern that does not occur leaves the string unchanged |
| JsStrings.ReplaceAllPlainPrefix | src/m365/aad/commands/app/app-add.ts:301 | a prefix without the pattern's first character passes through a global replace untouched, and the rest is replaced as on its own |
| JsStrings.ReplaceAllPieces | src/m365/aad/commands/app/app-add.ts:301 | pieces free of the pattern's first character, joined by the pattern, become the same pieces joined by the replacement: every occurrence is replaced |
| JsStrings.Utf16Length | src/m365/search/commands/externalconnection/externalconnection-add.ts:88 | the length in UTF-16 units is between the character count and twice it, and equals the character count on the basic plane |
| JsonValues.Assign | src/m365/aad/commands/app/app-add.ts:231-283 | after assigning `v`, reading the key gives `v` (absent for `undefined`) and every other key reads as before |
| AppPermissions.FindPrincipal | src/m365/aad/commands/app/app-add.ts:391-393 | the first principal that lists the name or the name followed by `/`; none only when no principal does |
| AppPermissions.FindPermission | src/m365/aad/commands/app/app-add.ts:399 | the first permission with that `value`; none only when no permission has it |
| AppPermissions.FindEntry | src/m365/aad/commands/app/app-add.ts:404 | the first entry for the resource app id; none only when there is none |
| AppPermissions.ParseRequestSplits | src/m365/aad/commands/app/app-add.ts:383-385 | the permission name holds no `/`; with a `/` the request is the principal name, `/` and the permission name; without one the principal name is empty and the permission is the whole request |
| AppPermissions.ResolveRequestSpec | src/m365/aad/commands/app/app-add.ts:391-402 | a request fails with "Service principal … not found" exactly when no principal matches. It resolves exactly when the first match has a permission of the right type (scopes for `Scope`, app roles otherwise) with that value. Otherwise it fails with "Permission … for service principal … not found" |
| AppPermissions.AppIds | src/m365/aad/commands/app/app-add.ts:404 | the resource app ids of a list, entry by entry |
| AppPermissions.AddAccessAppIds | src/m365/aad/commands/app/app-add.ts:404-416 | adding accesses keeps the list's resources and their order, appending the resource only when it is new |
| AppPermissions.AddAccessUnique | src/m365/aad/commands/app/app-add.ts:404-416 | adding accesses never creates a second entry for a resource |
| AppPermissions.AccessForAdd | src/m365/aad/commands/app/app-add.ts:404-416 | after adding, the accesses on a resource are its earlier ones followed by the added ones; other resources are untouched |
| AppPermissions.GetRequiredResourceAccessForApis | src/m365/aad/commands/app/app-add.ts:375-420 | the loop computes the specification: `[]` for an absent or empty option, else the in-order resolution of the trimmed comma-separated requests, or the first failure |
| AppPermissions.ResolveAllOutcome | src/m365/aad/commands/app/app-add.ts:380-419 | the batch succeeds exactly when every request resolves; otherwise its error is the first failing request's and no partial list is returned |
| AppPermissions.ResolveAllUnique | src/m365/aad/commands/app/app-add.ts:404-411 | a resolved list has at most one entry per `resourceAppId` |
| AppPermissions.ResolveAllAccess | src/m365/aad/commands/app/app-add.ts:413-416 | the accesses on each resource are the `{id, type}` of its resolved permissions, in request order |
| AppPermissions.MergeResolvedApis | src/m365/aad/commands/app/app-add.ts:353-361 | the merge loop computes the merge specification |
| AppPermissions.MergedUnique | src/m365/aad/commands/app/app-add.ts:353-361 | merging onto a list with one entry per resource keeps one entry per resource |
| AppPermissions.MergedAccess | src/m365/aad/commands/app/app-add.ts:353-361 | after merging, the accesses on each resource are its delegated ones followed by its application ones |
| AppPermissions.MergedKeepsDelegated | src/m365/aad/commands/app/app-add.ts:353-361 | the delegated resources keep their places, and new resources are only appended after them |
| AppPermissions.MergedOrder | src/m365/aad/commands/app/app-add.ts:353-361 | the merged resources are the delegated ones in their order, followed by each resource only the application list names, in the order that list first names it |
| AppPermissions.MergedResources | src/m365/aad/commands/app/app-add.ts:353-361 | a resource is in the merge exactly when it is delegated or application |
| AppPermissions.MergedNothing | src/m365/aad/commands/app/app-add.ts:353 | merging no application entries leaves the delegated list as it is |
| AppPermissions.MergedOntoNothing | src/m365/aad/commands/app/app-add.ts:353-361 | merging a list with unique resources onto nothing gives that list |
| AppPermissions.ResolveApis | src/m365/aad/commands/app/app-add.ts:331-373 | no API option gives `[]` with no lookup. A failed fetch is the outcome. Otherwise the delegated failure comes first, then the application failure, else the merge |
| AppPermissions.ResolvedApisShape | src/m365/aad/commands/app/app-add.ts:331-373 | a successful resolution has one entry per resource, granting its delegated scopes followed by its application roles |
| AppPermissions.LookupTolerance | src/m365/aad/commands/app/app-add.ts:391-393 | a principal registered with a trailing `/` is found by the bare name, but a bare registration is not found by the name with `/` |
| AppPermissions.SingleRequestListed | src/m365/aad/commands/app/app-add.ts:381 | a `name/permission` option without commas or whitespace at its ends is one request, itself |
| AppPermissions.SingleRequestParsed | src/m365/aad/commands/app/app-add.ts:383-385 | a request whose permission part has no `/` splits back into its principal name and permission name |
| AppPermissions.ResolveOneScope | src/m365/aad/commands/app/app-add.ts:375-420 | a single `name/permission` request against the principal registered under that name resolves to one entry granting that scope |
| AppPermissions.ResolveContosoScope | src/m365/aad/commands/app/app-add.ts:375-420 | `Contoso.Api/Read.All` resolves to `[{R1, [{S1, Scope}]}]` |
| AppPermissions.ResolveUnknownPrincipal | src/m365/aad/commands/app/app-add.ts:394-396 | an unknown principal in the middle of a batch fails the whole batch with its message |
| AppPermissions.MergeAccumulates | src/m365/aad/commands/app/app-add.ts:353-361 | merging `[{R1,[A]}]` with `[{R1,[B]},{R2,[C]}]` gives `[{R1,[A,B]},{R2,[C]}]` |
| ManifestTransform.PushReplyUrls | src/m365/aad/commands/app/app-add.ts:269-281 | the walk pushes the urls of the `Web` entries, in order, onto the web section and those of the `Spa` entries onto the spa section |
| ManifestTransform.UrlsOfTypePartition | src/m365/aad/commands/app/app-add.ts:269-281 | no url goes to both platforms; other types are dropped, so the two lists together cover every entry only when all are `Web` or `Spa` |
| ManifestTransform.AssignedThen | src/m365/aad/commands/app/app-add.ts:231-286 | two rounds of property assignments compose into one, the later winning |
| ManifestTransform.DeleteLegacyProperties | src/m365/aad/commands/app/app-add.ts:220-267 | every unsupported or moved legacy property is gone; `displayName` is the old `name` and `publicClient` the old `allowPublicClient` |
| ManifestTransform.MoveApiProperties | src/m365/aad/commands/app/app-add.ts:231-267 | `api` receives `acceptMappedClaims`, `knownClientApplications`, `preAuthorizedApplications`, and `oauth2Permissions` as `oauth2PermissionScopes`; nothing else in it changes |
| ManifestTransform.MoveInfoProperties | src/m365/aad/commands/app/app-add.ts:237-246 | `info` receives the four informational urls under their v1.6 names and `logoUrl`; nothing else in it changes |
| ManifestTransform.MoveWebProperties | src/m365/aad/commands/app/app-add.ts:249-284 | `web` receives `logoutUrl` and `homePageUrl` (from `signInUrl`), its grant settings the two implicit-flow flags, and its `redirectUris` is untouched |
| ManifestTransform.MoveReplyUrls | src/m365/aad/commands/app/app-add.ts:269-281 | the reply urls go to the web and spa sections; a truthy `replyUrlsWithType` is then deleted and a falsy one left as it is |
| ManifestTransform.TransformManifest | src/m365/aad/commands/app/app-add.ts:198-287 | the result is the input with the default sections injected, the legacy properties deleted or moved to their v1.6 places, and every other property unchanged |
| ManifestTransform.ConsumedKeysGone | src/m365/aad/commands/app/app-add.ts:220-286 | no consumed legacy property survives, nor a truthy `replyUrlsWithType` |
| ManifestTransform.RenamedKeys | src/m365/aad/commands/app/app-add.ts:234-253 | `name` arrives as `displayName` and `allowPublicClient` as `publicClient` |
| ManifestTransform.UntouchedKeysPass | src/m365/aad/commands/app/app-add.ts:199 | a property the transformation does not mention passes through unchanged |
| ManifestTransform.RedirectUrisAppended | src/m365/aad/commands/app/app-add.ts:269-281 | each section's `redirectUris` ends as its original urls followed by the urls of its type, in order |
| ManifestTransform.ManifestPatchBody | src/m365/aad/commands/app/app-add.ts:176-182 | the update body has no `id`, `appId` or `publisherDomain`, and is the transformation of the manifest without them |
| ManifestTransform.PrimitiveSpaPassesThrough | src/m365/aad/commands/app/app-add.ts:213-217 | a manifest whose `spa` is a truthy number and which has no reply urls is transformable, and its `spa` is sent unchanged |
| ManifestTransform.IdentityStripped | src/m365/aad/commands/app/app-add.ts:178-180 | removing the identity properties keeps a manifest transformable |
| ManifestTransform.NameBecomesDisplayName | src/m365/aad/commands/app/app-add.ts:252-253 | `name: "App1"` becomes `displayName: "App1"` with no `name` left |
| AppAdd.ValidationOfValid | src/m365/aad/commands/app/app-add.ts:559-605 | the options are accepted exactly when a name or manifest is given. The platform and consent values must be allowed. Redirect urls need a platform. A scope name needs the uri, description and display name. A given manifest must parse, and the name must come from the option or the manifest |
| AppAdd.NothingToCreate | src/m365/aad/commands/app/app-add.ts:560-562 | without a name and a manifest the first message is returned, whatever else is given |
| AppAdd.ManifestDoesNotParse | src/m365/aad/commands/app/app-add.ts:592-601 | a manifest that does not parse is reported with the parser's message once the option checks pass |
| AppAdd.AppAddCommand.Validate | src/m365/aad/commands/app/app-add.ts:559-605 | the guard chain returns the first failing rule's message. A parsed manifest is stored on the command even when the name check after it fails |
| AppAdd.RedirectUris | src/m365/aad/commands/app/app-add.ts:140 | one trimmed url per comma-separated piece, in order |
| AppAdd.BaseInfoShape | src/m365/aad/commands/app/app-add.ts:123-137 | the first body has the display name and the audience (`AzureADMultipleOrgs` exactly for a multi-tenant app). It has required resource access exactly when there are APIs, and no other property |
| AppAdd.RedirectUrisStage | src/m365/aad/commands/app/app-add.ts:139-143 | without redirect urls the body is unchanged; with them the platform's property becomes an object holding the trimmed urls, and every other property is kept |
| AppAdd.ImplicitFlowStage | src/m365/aad/commands/app/app-add.ts:144-152 | without implicit flow the body is unchanged; with it `web.implicitGrantSettings` has both flags `true`, an existing `web` object keeps its other fields, and every property other than `web` is kept |
| AppAdd.ApplicationInfoShape | src/m365/aad/commands/app/app-add.ts:123-137 | the finished body has the display name and the audience, and required resource access exactly when there are APIs, whatever the platform and flow options add |
| AppAdd.ApplicationInfoPlatform | src/m365/aad/commands/app/app-add.ts:139-152 | with redirect urls the platform's object in the finished body holds the trimmed urls, also when implicit flow later adds to `web` |
| AppAdd.ApplicationInfoNoWeb | src/m365/aad/commands/app/app-add.ts:139-152 | the finished body has no `web` property unless implicit flow is on or the redirect urls are for the `web` platform |
| AppAdd.DisplayNameFallback | src/m365/aad/commands/app/app-add.ts:124-131 | a truthy `name` option is the display name; otherwise the manifest's `name` is |
| AppAdd.AppAddCommand.CreateAppRegistration | src/m365/aad/commands/app/app-add.ts:123-152 | builds the creation body and stores as the app name the display name settled at line 132: the `name` option, or the manifest's name when the option is falsy |
| AppAdd.UriConfigurationShape | src/m365/aad/commands/app/app-add.ts:289-318 | with a uri the body holds the identifier URI (as given when it has no `_appId_`), and `api` exactly when a scope name is given, with no other property. The `api` holds exactly one scope: the two admin-consent texts of the options, the drawn id, the name, and `User` consent exactly for `adminsAndUsers`, else `Admin` |
| AppAdd.UriPlaceholdersReplaced | src/m365/aad/commands/app/app-add.ts:300-303 | the identifier URI is the given uri with every `_appId_` placeholder replaced by the new app's id, whenever the text around the placeholders holds no `_` and the id holds no `$` |
| AppAdd.ApiUriOfApp | src/m365/aad/commands/app/app-add.ts:300-303 | `api://_appId_` is sent as `api://` followed by the new app's id, for every id without `$` (a Graph app id is a GUID) |
| AppAdd.CommandOutput | src/m365/aad/commands/app/app-add.ts:107-118 | the printed object has the app id, object id and tenant id, and the secret, with its value, exactly when one was created |
| AppAdd.AppAddCommand.ResolveApis | src/m365/aad/commands/app/app-add.ts:331-373 | the fetched principals become the command's `items`, and the outcome is the resolution and merge |
| AppAdd.AppAddCommand.UpdateAppFromManifest | src/m365/aad/commands/app/app-add.ts:170-202 | no manifest option, no update. A primitive manifest fails with a TypeError (`null` at the `delete` of line 178, the others at line 202), an array manifest is sent as parsed, and an object manifest is sent without its identity properties and transformed |
| TeamsAppList.TeamIdResolves | src/m365/teams/commands/app/app-list.ts:40-68 | a team id results exactly when one was given (that one) or the name lookup found exactly one team (its id) |
| TeamsAppList.TeamIdGiven | src/m365/teams/commands/app/app-list.ts:41-43 | a given team id is used without depending on any lookup |
| TeamsAppList.MultipleTeamsListsIds | src/m365/teams/commands/app/app-list.ts:62-64 | the "multiple teams" message lists every found team's id in order, recoverable by splitting at commas |
| TeamsAppList.EndpointUrlShape | src/m365/teams/commands/app/app-list.ts:70-98 | with a team the installed apps of that team are listed, otherwise the tenant catalog; the organization filter ends the address exactly when `all` is not set, and with `all` the address is the bare collection |
| TeamsAppList.CatalogRowsPointwise | src/m365/teams/commands/app/app-list.ts:119-125 | one row per catalog app, in order, with its id, name and distribution method |
| TeamsAppList.InstalledRowsPointwise | src/m365/teams/commands/app/app-list.ts:109-116 | one row per installation, in order, named after its app |
| TeamsAppList.ValidateSpec | src/m365/teams/commands/app/app-list.ts:157-167 | accepted exactly when not both team options are given and a given team id is a GUID; both given is reported first |
| ExternalConnectionAdd.ValidateIdSpec | src/m365/search/commands/externalconnection/externalconnection-add.ts:86-126 | an id is accepted exactly when it is 3 to 32 ASCII letters and digits, is not longer than nine characters starting with `Microsoft`, and is not reserved |
| ExternalConnectionAdd.LengthInCodeUnits | src/m365/search/commands/externalconnection/externalconnection-add.ts:88-96 | length counts UTF-16 units: two astral characters pass the length rule and fail the character rule |
| ExternalConnectionAdd.MicrosoftAlone | src/m365/search/commands/externalconnection/externalconnection-add.ts:98-101 | `Microsoft` itself is accepted |
| ExternalConnectionAdd.MicrosoftPrefixRefused | src/m365/search/commands/externalconnection/externalconnection-add.ts:98-101 | a longer id starting with `Microsoft` that passes the earlier rules gets the prefix message |
| ExternalConnectionAdd.UnderscoreIdReserved | src/m365/search/commands/externalconnection/externalconnection-add.ts:103-119 | `MSFT_All_Connectors` is on the reserved list and holds an underscore |
| ExternalConnectionAdd.UnderscoreIdRefused | src/m365/search/commands/externalconnection/externalconnection-add.ts:92-96 | any id of accepted length holding an underscore, `MSFT_All_Connectors` among them, is refused by the character rule before the list is consulted |
| ExternalConnectionAdd.ReservedIdsShape | src/m365/search/commands/externalconnection/externalconnection-add.ts:103-119 | every reserved id has an accepted length and none starts with `Microsoft`; `Microsoft` is not reserved |
| ExternalConnectionAdd.ReservedRefused | src/m365/search/commands/externalconnection/externalconnection-add.ts:121-123 | a reserved id that passes the character rule gets the reserved-values message |
| ExternalConnectionAdd.AuthorizedAppIdsRoundTrip | src/m365/search/commands/externalconnection/externalconnection-add.ts:36-41 | an absent or empty option gives no ids; otherwise the ids joined with commas are the option exactly (no trimming) |
| ExternalConnectionAdd.CommandDataShape | src/m365/search/commands/externalconnection/externalconnection-add.ts:43-50 | the posted connection copies id, name and description and has one authorized app per comma-separated piece |
| O365GroupUserList.AsOwnersPointwise | src/m365/aad/commands/o365group/o365group-user-list.ts:65-67 | relabelling keeps length and order and changes only `userType`, to `Owner` |
| O365GroupUserList.WithRoleAppend | src/m365/aad/commands/o365group/o365group-user-list.ts:48 | filtering a concatenation filters each part |
| O365GroupUserList.WithRoleCounts | src/m365/aad/commands/o365group/o365group-user-list.ts:48 | the filter keeps each user of the role exactly as often as it occurs in the input, and no user of another role |
| O365GroupUserList.WithRoleMembers | src/m365/aad/commands/o365group/o365group-user-list.ts:48 | the filter keeps exactly the users of the role, and keeps all of them when all have it |
| O365GroupUserList.WithRoleOfOwners | src/m365/aad/commands/o365group/o365group-user-list.ts:48-67 | after relabelling, the `Owner` filter keeps everyone and any other role no one |
| O365GroupUserList.OwnersOnly | src/m365/aad/commands/o365group/o365group-user-list.ts:39-41 | asking for owners does not depend on the members fetch and lists every owner |
| O365GroupUserList.OtherRole | src/m365/aad/commands/o365group/o365group-user-list.ts:43-49 | asking for another role lists exactly the members and guests of that role |
| O365GroupUserList.NoRole | src/m365/aad/commands/o365group/o365group-user-list.ts:47-51 | without a role, owners then members and guests, unfiltered |
| O365GroupUserList.ValidateSpec | src/m365/aad/commands/o365group/o365group-user-list.ts:92-104 | accepted exactly for a GUID group id and a role, when given, among Owner, Member and Guest; the group id is checked first |
| O365GroupUserList.O365GroupUserListCommand.GetOwners | src/m365/aad/commands/o365group/o365group-user-list.ts:58-70 | the loop leaves the command holding the fetched owners, every one relabelled `Owner` |
| O365GroupUserList.O365GroupUserListCommand.GetMembersAndGuests | src/m365/aad/commands/o365group/o365group-user-list.ts:72-75 | the members and guests are appended to what the command holds |
| O365GroupUserList.O365GroupUserListCommand.CommandAction | src/m365/aad/commands/o365group/o365group-user-list.ts:35-56 | the users listed are the specification's, and the command then holds exactly them |

## Left out

- HTTP requests and their error handling (`handleRejectedODataJsonPromise`) are not modelled. Each response is a parameter: a fetched sequence, or `Err` with the error text.
- The paginator `getAllItems` is not part of this model. Its result is a parameter. A call with `firstRun` set is taken to replace the command's `items`, and a later call to append to them.
- `JSON.parse` is not modelled. Its outcome is a parameter: the parsed value, or the text of the error it throws.
- `encodeURIComponent` and `Utils.isValidGuid` are function parameters.
- `v4()`, which draws the scope id, is not modelled; the id is a parameter.
- The tenant id read from the access token, `configureSecret` (its wall-clock expiry), `saveAppInfo` (file I/O), telemetry, `options()`, logging and colour output are left out.
- `teams app list` with JSON output prints `items` as fetched; only the text-mode projection is modelled.
- The TypeError text for a `null` manifest in `aad app add` validation is a parameter, as the JavaScript engine words it.
- ManifestTransform.TransformManifest: some object manifests make the source throw a TypeError, and the precondition `Transformable` excludes them. The source throws when a present `web` lacks an `implicitGrantSettings` object or array, or a section that receives urls lacks a `redirectUris` array. It also throws when `api`, `info` or `web` is a truthy primitive, or when `replyUrlsWithType` is not an array of non-null entries.
- ManifestTransform.TransformManifest: `Transformable` also excludes object manifests on which the source does not throw. A truthy array as `api`, `info` or `web.implicitGrantSettings` takes the named writes silently, and `JSON.stringify` drops them, so that section is sent unchanged. The model promises nothing for such a manifest.
- JsStrings.ReplaceAll: the replacement is inserted literally; the `$` patterns of a JavaScript replacement string are not interpreted. The only replacement in the model is the new app's id, a GUID issued by Microsoft Graph, which holds no `$`.
- AppAdd.AppAddCommand.UpdateAppFromManifest: for an object manifest it requires `Transformable`, so it says nothing of the array sections above or of the inputs on which the source throws.
- ManifestTransform.TransformManifest: the sections are updated as values and written back, not mutated through shared references. No other reference to them exists in the source.
- AppPermissions.GetRequiredResourceAccessForApis: the in-place `push` onto an entry's `resourceAccess` is a value update of the list. The source's entry object is referenced only from that list.
- AppAdd.AppAddCommand.ResolveApis: when the fetch fails, the model leaves `items` unchanged; the paginator's behaviour on failure is not shown.
- O365GroupUserList.O365GroupUserListCommand.GetOwners: when the fetch fails, the model leaves `items` unchanged; the paginator's behaviour on failure is not shown.
- O365GroupUserList.O365GroupUserListCommand.GetMembersAndGuests: when the fetch fails, the model leaves `items` unchanged; the paginator's behaviour on failure is not shown.
- O365GroupUserList.O365GroupUserListCommand.CommandAction: when a fetch fails, the contract does not say what the command holds afterwards.
- AppAdd.AppAddCommand.Validate: the flag and string options are taken as already parsed by the command-line layer. A flag is a boolean and a string option is present or absent.

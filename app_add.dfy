/** The `aad app add` command of src/m365/aad/commands/app/app-add.ts: its
    option validation, the request bodies it sends to create the app
    registration, to update it from a manifest and to configure its
    application ID URI, and the state it keeps between those steps. */
module AppAdd {
  import opened Wrappers
  import opened JsStrings
  import opened JsonValues
  import opened AppPermissions
  import opened ManifestTransform

  /** The command's options; flags are `false` when not given. */
  datatype Options = Options(
    apisApplication: Option<string>,
    apisDelegated: Option<string>,
    implicitFlow: bool,
    manifest: Option<string>,
    multitenant: bool,
    name: Option<string>,
    platform: Option<string>,
    redirectUris: Option<string>,
    scopeAdminConsentDescription: Option<string>,
    scopeAdminConsentDisplayName: Option<string>,
    scopeConsentBy: Option<string>,
    scopeName: Option<string>,
    uri: Option<string>)

  const Platforms: seq<string> := ["spa", "web", "publicClient"]
  const ScopeConsentBy: seq<string> := ["admins", "adminsAndUsers"]

  const NameOrManifestMissing := "Specify either the name of the app to create or the manifest"
  const RedirectUrisWithoutPlatform := "When you specify redirectUris you also need to specify platform"
  const ScopeNameWithoutUri := "When you specify scopeName you also need to specify uri"
  const ScopeNameWithoutDescription := "When you specify scopeName you also need to specify scopeAdminConsentDescription"
  const ScopeNameWithoutDisplayName := "When you specify scopeName you also need to specify scopeAdminConsentDisplayName"
  const NameMissing := "Specify the name of the app to create either through the 'name' option or the 'name' property in the manifest"
  const ManifestParseFailed := "Error while parsing the specified manifest: "

  function InvalidPlatform(platform: string): string {
    platform + " is not a valid value for platform. Allowed values are spa, web, publicClient"
  }

  function InvalidScopeConsentBy(consentBy: string): string {
    consentBy + " is not a valid value for scopeConsentBy. Allowed values are admins, adminsAndUsers"
  }

  /** `this.manifest.name` is truthy: a property of an object manifest (every
      other non-null value has no `name`). */
  predicate HasTruthyName(manifest: Json) {
    TruthyOpt(Member(Some(manifest), "name"))
  }

  // ---------------------------------------------------------------------------
  // validate

  /** The option checks that precede parsing the manifest, in order. */
  function OptionGuards(o: Options): Validation
  {
    if !JsStrings.Truthy(o.manifest) && !JsStrings.Truthy(o.name) then Invalid(NameOrManifestMissing)
    else if JsStrings.Truthy(o.platform) && o.platform.value !in Platforms then Invalid(InvalidPlatform(o.platform.value))
    else if JsStrings.Truthy(o.redirectUris) && !JsStrings.Truthy(o.platform) then Invalid(RedirectUrisWithoutPlatform)
    else if JsStrings.Truthy(o.scopeName) && !JsStrings.Truthy(o.uri) then Invalid(ScopeNameWithoutUri)
    else if JsStrings.Truthy(o.scopeName) && !JsStrings.Truthy(o.scopeAdminConsentDescription) then Invalid(ScopeNameWithoutDescription)
    else if JsStrings.Truthy(o.scopeName) && !JsStrings.Truthy(o.scopeAdminConsentDisplayName) then Invalid(ScopeNameWithoutDisplayName)
    else if JsStrings.Truthy(o.scopeConsentBy) && o.scopeConsentBy.value !in ScopeConsentBy then Invalid(InvalidScopeConsentBy(o.scopeConsentBy.value))
    else Valid
  }

  /** The outcome of `validate`. `parsed` is what `JSON.parse` makes of the
      manifest option (the text of the error it throws when it fails);
      `nullError` is the text of the TypeError reading `name` of a `null`
      manifest raises, which the same `catch` reports. */
  function ValidationOf(o: Options, parsed: Result<Json, string>, nullError: string): Validation
  {
    if OptionGuards(o).Invalid? then OptionGuards(o)
    else if !JsStrings.Truthy(o.manifest) then Valid
    else match parsed
      case Err(e) => Invalid(ManifestParseFailed + e)
      case Ok(m) =>
        if JsStrings.Truthy(o.name) then Valid
        else if m == Null then Invalid(ManifestParseFailed + nullError)
        else if !HasTruthyName(m) then Invalid(NameMissing)
        else Valid
  }

  /** The options are accepted exactly when every rule holds. */
  lemma ValidationOfValid(o: Options, parsed: Result<Json, string>, nullError: string)
    ensures ValidationOf(o, parsed, nullError) == Valid <==>
      && (JsStrings.Truthy(o.manifest) || JsStrings.Truthy(o.name))
      && (JsStrings.Truthy(o.platform) ==> o.platform.value in Platforms)
      && (JsStrings.Truthy(o.redirectUris) ==> JsStrings.Truthy(o.platform))
      && (JsStrings.Truthy(o.scopeName) ==> JsStrings.Truthy(o.uri) && JsStrings.Truthy(o.scopeAdminConsentDescription) && JsStrings.Truthy(o.scopeAdminConsentDisplayName))
      && (JsStrings.Truthy(o.scopeConsentBy) ==> o.scopeConsentBy.value in ScopeConsentBy)
      && (JsStrings.Truthy(o.manifest) ==> parsed.Ok? && (JsStrings.Truthy(o.name) || HasTruthyName(parsed.value)))
  {
    if JsStrings.Truthy(o.manifest) && parsed.Ok? && !JsStrings.Truthy(o.name) && parsed.value == Null {
      assert !HasTruthyName(parsed.value);
    }
  }

  /** Without a name and a manifest nothing else is looked at. */
  lemma NothingToCreate(o: Options, parsed: Result<Json, string>, nullError: string)
    requires !JsStrings.Truthy(o.manifest) && !JsStrings.Truthy(o.name)
    ensures ValidationOf(o, parsed, nullError) == Invalid(NameOrManifestMissing)
  {
  }

  /** A manifest that does not parse is reported with the parser's message,
      once the option checks pass. */
  lemma ManifestDoesNotParse(o: Options, e: string, nullError: string)
    requires OptionGuards(o) == Valid && JsStrings.Truthy(o.manifest)
    ensures ValidationOf(o, Err(e), nullError) == Invalid(ManifestParseFailed + e)
  {
  }

  // ---------------------------------------------------------------------------
  // request bodies

  function AccessToJson(a: ResourceAccess): Json {
    Obj(map["id" := Str(a.id), "type" := Str(a.kind)])
  }

  function RequiredResourceAccessToJson(r: RequiredResourceAccess): Json {
    Obj(map["resourceAppId" := Str(r.resourceAppId),
            "resourceAccess" := Arr(seq(|r.resourceAccess|, i requires 0 <= i < |r.resourceAccess| => AccessToJson(r.resourceAccess[i])))])
  }

  function StrOpt(o: Option<string>): Option<Json> {
    if o.Some? then Some(Str(o.value)) else None
  }

  /** `redirectUris.split(',').map(u => u.trim())` as JSON strings. */
  function RedirectUris(uris: string): (r: seq<Json>)
    ensures |r| == |Split(uris, ',')|
    ensures forall i :: 0 <= i < |r| ==> r[i] == Str(Trim(Split(uris, ',')[i]))
  {
    var pieces := RequestedApis(uris);
    seq(|pieces|, i requires 0 <= i < |pieces| => Str(pieces[i]))
  }

  /** The display name the registration gets: the `name` option, or the
      manifest's `name` when the option is falsy and a manifest was parsed. */
  function DisplayName(o: Options, manifest: Option<Json>): Option<Json>
  {
    if !TruthyOpt(StrOpt(o.name)) && TruthyOpt(manifest) then Member(manifest, "name") else StrOpt(o.name)
  }

  /** Lines 123-137: display name, audience and the resolved APIs. */
  function BaseInfo(o: Options, manifest: Option<Json>, apis: seq<RequiredResourceAccess>): map<string, Json>
  {
    var info := Assign(map[], "displayName", DisplayName(o, manifest));
    var info := info["signInAudience" := Str(if o.multitenant then "AzureADMultipleOrgs" else "AzureADMyOrg")];
    if |apis| > 0
    then info["requiredResourceAccess" := Arr(seq(|apis|, i requires 0 <= i < |apis| => RequiredResourceAccessToJson(apis[i])))]
    else info
  }

  /** `applicationInfo[args.options.platform!]`: with no platform the key is "undefined". */
  function PlatformKey(o: Options): string {
    if o.platform.Some? then o.platform.value else "undefined"
  }

  /** Lines 139-143: the redirect urls under the platform's key. */
  function WithRedirectUris(info: map<string, Json>, o: Options): map<string, Json>
  {
    if JsStrings.Truthy(o.redirectUris)
    then info[PlatformKey(o) := Obj(map["redirectUris" := Arr(RedirectUris(o.redirectUris.value))])]
    else info
  }

  const ImplicitGrantSettings: Json :=
    Obj(map["enableAccessTokenIssuance" := Bool(true), "enableIdTokenIssuance" := Bool(true)])

  /** Lines 144-152: implicit flow enables both token kinds on `web`, creating it when missing. */
  function WithImplicitFlow(info: map<string, Json>, o: Options): map<string, Json>
  {
    if !o.implicitFlow then info
    else if "web" in info && JsonValues.Truthy(info["web"]) && info["web"].Obj?
    then info["web" := SetMember(info["web"], "implicitGrantSettings", Some(ImplicitGrantSettings))]
    else info["web" := Obj(map["implicitGrantSettings" := ImplicitGrantSettings])]
  }

  /** Lines 123-151: the body that creates the registration. */
  function ApplicationInfo(o: Options, manifest: Option<Json>, apis: seq<RequiredResourceAccess>): map<string, Json>
  {
    WithImplicitFlow(WithRedirectUris(BaseInfo(o, manifest, apis), o), o)
  }

  /** The first step sets the display name, the audience and, only when there
      are APIs, the required resource access, and no other key. */
  lemma BaseInfoShape(o: Options, manifest: Option<Json>, apis: seq<RequiredResourceAccess>)
    ensures var base := BaseInfo(o, manifest, apis);
      && Get(base, "displayName") == DisplayName(o, manifest)
      && Get(base, "signInAudience") == Some(Str(if o.multitenant then "AzureADMultipleOrgs" else "AzureADMyOrg"))
      && ("requiredResourceAccess" in base <==> |apis| > 0)
      && (forall k :: k in base ==> k == "displayName" || k == "signInAudience" || k == "requiredResourceAccess")
  {
    var named := Assign(map[], "displayName", DisplayName(o, manifest));
    assert forall k :: k in named ==> k == "displayName" by {
      forall k | k != "displayName" ensures k !in named {
        assert Get(named, k) == Get(map[], k);
      }
    }
  }

  /** The redirect-url step sets the platform's key, when there are redirect
      urls, and touches no other key. */
  lemma RedirectUrisStage(info: map<string, Json>, o: Options)
    ensures var r := WithRedirectUris(info, o);
      && (!JsStrings.Truthy(o.redirectUris) ==> r == info)
      && (forall k :: k != PlatformKey(o) ==> Get(r, k) == Get(info, k))
      && (JsStrings.Truthy(o.redirectUris) ==>
            Get(r, PlatformKey(o)) == Some(Obj(map["redirectUris" := Arr(RedirectUris(o.redirectUris.value))])))
  {
  }

  /** The implicit-flow step enables both token kinds on `web`, keeps what
      `web` already held, and touches no other key; without implicit flow it
      changes nothing. */
  lemma ImplicitFlowStage(info: map<string, Json>, o: Options)
    ensures var r := WithImplicitFlow(info, o);
      && (!o.implicitFlow ==> r == info)
      && (forall k :: k != "web" ==> Get(r, k) == Get(info, k))
      && (o.implicitFlow ==>
            "web" in r && r["web"].Obj? && Get(r["web"].fields, "implicitGrantSettings") == Some(ImplicitGrantSettings))
      && (o.implicitFlow && "web" in info && info["web"].Obj? ==>
            forall k :: k != "implicitGrantSettings" ==> Get(r["web"].fields, k) == Get(info["web"].fields, k))
  {
    if o.implicitFlow && "web" in info && info["web"].Obj? {
      assert JsonValues.Truthy(info["web"]);
    }
  }

  /** A platform validation accepts (an allowed one, or `""`, which counts
      as absent) is none of the keys the first step sets. */
  lemma PlatformKeyFresh(o: Options)
    requires JsStrings.Truthy(o.platform) ==> o.platform.value in Platforms
    ensures PlatformKey(o) != "displayName" && PlatformKey(o) != "signInAudience"
      && PlatformKey(o) != "requiredResourceAccess"
  {
    if JsStrings.Truthy(o.platform) {
      var p := o.platform.value;
      assert |p| == 3 || |p| == 12;
    }
  }

  /** The creation body's display name, audience and resolved APIs. */
  lemma ApplicationInfoShape(o: Options, manifest: Option<Json>, apis: seq<RequiredResourceAccess>)
    requires JsStrings.Truthy(o.platform) ==> o.platform.value in Platforms
    ensures var info := ApplicationInfo(o, manifest, apis);
      && Get(info, "displayName") == DisplayName(o, manifest)
      && Get(info, "signInAudience") == Some(Str(if o.multitenant then "AzureADMultipleOrgs" else "AzureADMyOrg"))
      && ("requiredResourceAccess" in info <==> |apis| > 0)
  {
    var base := BaseInfo(o, manifest, apis);
    var staged := WithRedirectUris(base, o);
    var info := ApplicationInfo(o, manifest, apis);
    BaseInfoShape(o, manifest, apis);
    PlatformKeyFresh(o);
    RedirectUrisStage(base, o);
    ImplicitFlowStage(staged, o);
    assert Get(info, "displayName") == Get(staged, "displayName") == Get(base, "displayName");
    assert Get(info, "signInAudience") == Get(staged, "signInAudience") == Get(base, "signInAudience");
    assert Get(info, "requiredResourceAccess") == Get(staged, "requiredResourceAccess") == Get(base, "requiredResourceAccess");
  }

  /** A given platform gets the trimmed redirect urls, also when implicit
      flow later adds its settings to the same `web` object. */
  lemma ApplicationInfoPlatform(o: Options, manifest: Option<Json>, apis: seq<RequiredResourceAccess>)
    requires JsStrings.Truthy(o.redirectUris) && o.platform.Some?
    ensures var info := ApplicationInfo(o, manifest, apis);
      && o.platform.value in info && info[o.platform.value].Obj?
      && Get(info[o.platform.value].fields, "redirectUris") == Some(Arr(RedirectUris(o.redirectUris.value)))
  {
    var p := o.platform.value;
    var urls := Obj(map["redirectUris" := Arr(RedirectUris(o.redirectUris.value))]);
    var staged := WithRedirectUris(BaseInfo(o, manifest, apis), o);
    var info := ApplicationInfo(o, manifest, apis);
    assert Get(staged, p) == Some(urls) by {
      RedirectUrisStage(BaseInfo(o, manifest, apis), o);
    }
    assert Get(urls.fields, "redirectUris") == Some(Arr(RedirectUris(o.redirectUris.value)));
    if p != "web" {
      assert Get(info, p) == Get(staged, p) by {
        ImplicitFlowStage(staged, o);
      }
    } else if o.implicitFlow {
      assert "web" in info && info["web"].Obj?
          && Get(info["web"].fields, "redirectUris") == Get(urls.fields, "redirectUris") by {
        ImplicitFlowStage(staged, o);
      }
    } else {
      assert info == staged by {
        ImplicitFlowStage(staged, o);
      }
    }
  }

  /** The body has no `web` unless implicit flow or web redirect urls ask for it. */
  lemma ApplicationInfoNoWeb(o: Options, manifest: Option<Json>, apis: seq<RequiredResourceAccess>)
    requires !o.implicitFlow && !(JsStrings.Truthy(o.redirectUris) && o.platform == Some("web"))
    ensures "web" !in ApplicationInfo(o, manifest, apis)
  {
    var base := BaseInfo(o, manifest, apis);
    BaseInfoShape(o, manifest, apis);
    RedirectUrisStage(base, o);
    assert "web" !in base;
    if JsStrings.Truthy(o.redirectUris) {
      assert PlatformKey(o) != "web";
    }
    assert Get(WithRedirectUris(base, o), "web") == None;
  }

  /** The display name falls back to the manifest's only when the option is falsy. */
  lemma DisplayNameFallback(o: Options, manifest: Option<Json>)
    ensures JsStrings.Truthy(o.name) ==> DisplayName(o, manifest) == Some(Str(o.name.value))
    ensures !JsStrings.Truthy(o.name) && manifest.Some? && manifest.value.Obj? ==>
      DisplayName(o, manifest) == Get(manifest.value.fields, "name")
  {
  }

  /** Lines 289-318: the body that sets the application ID URI, with every
      `_appId_` replaced by the new app's id, and the scope it exposes when a
      scope name is given; `scopeId` is the fresh GUID the source draws. */
  function UriConfiguration(o: Options, appId: string, scopeId: string): Option<map<string, Json>>
  {
    if !JsStrings.Truthy(o.uri) then None
    else
      var info := map["identifierUris" := Arr([Str(ReplaceAll(o.uri.value, "_appId_", appId))])];
      if !JsStrings.Truthy(o.scopeName) then Some(info)
      else
        var scope := Assign(Assign(map[], "adminConsentDescription", StrOpt(o.scopeAdminConsentDescription)),
                            "adminConsentDisplayName", StrOpt(o.scopeAdminConsentDisplayName));
        var scope := scope["id" := Str(scopeId)]
          ["type" := Str(if o.scopeConsentBy == Some("adminsAndUsers") then "User" else "Admin")]
          ["value" := Str(o.scopeName.value)];
        Some(info["api" := Obj(map["oauth2PermissionScopes" := Arr([Obj(scope)])])])
  }

  /** The body sets the identifier URI and, only with a scope name, exposes
      exactly one scope. A URI without the `_appId_` placeholder is sent as
      given. The scope carries the two admin-consent texts of the options, the
      drawn id and the name, and is user-consentable exactly when
      `scopeConsentBy` is `adminsAndUsers`. */
  lemma UriConfigurationShape(o: Options, appId: string, scopeId: string)
    requires JsStrings.Truthy(o.uri)
    ensures var body := UriConfiguration(o, appId, scopeId);
      && body.Some?
      && body.value.Keys == {"identifierUris"} + (if JsStrings.Truthy(o.scopeName) then {"api"} else {})
      && (!Occurs(o.uri.value, "_appId_") ==> body.value["identifierUris"] == Arr([Str(o.uri.value)]))
      && (JsStrings.Truthy(o.scopeName) ==>
            var scopes := body.value["api"].fields["oauth2PermissionScopes"].items;
            var scope := scopes[0].fields;
            && |scopes| == 1
            && Get(scope, "adminConsentDescription") == StrOpt(o.scopeAdminConsentDescription)
            && Get(scope, "adminConsentDisplayName") == StrOpt(o.scopeAdminConsentDisplayName)
            && scope["type"] == Str(if o.scopeConsentBy == Some("adminsAndUsers") then "User" else "Admin")
            && scope["value"] == Str(o.scopeName.value) && scope["id"] == Str(scopeId))
  {
    if !Occurs(o.uri.value, "_appId_") {
      ReplaceAllAbsent(o.uri.value, "_appId_", appId);
    }
  }

  /** The usual URI, `api://_appId_`, is sent as `api://` followed by the id
      (a Graph app id, which holds no `$`). */
  lemma ApiUriOfApp(o: Options, appId: string, scopeId: string)
    requires o.uri == Some("api://_appId_") && '$' !in appId
    ensures var body := UriConfiguration(o, appId, scopeId);
      body.Some? && body.value["identifierUris"] == Arr([Str("api://" + appId)])
  {
    var pieces := ["api://", ""];
    assert JoinWith(pieces, "_appId_") == "api://_appId_" by {
      assert JoinWith(pieces[1..], "_appId_") == "";
    }
    assert JoinWith(pieces, appId) == "api://" + appId by {
      assert JoinWith(pieces[1..], appId) == "";
    }
    UriPlaceholdersReplaced(o, appId, scopeId, pieces);
  }

  /** A URI made of placeholders between pieces without `_` is sent with each
      placeholder replaced by the app id, which holds no `$`. */
  lemma UriPlaceholdersReplaced(o: Options, appId: string, scopeId: string, pieces: seq<string>)
    requires JsStrings.Truthy(o.uri) && o.uri.value == JoinWith(pieces, "_appId_") && '$' !in appId
    requires forall i :: 0 <= i < |pieces| ==> '_' !in pieces[i]
    ensures var body := UriConfiguration(o, appId, scopeId);
      body.Some? && body.value["identifierUris"] == Arr([Str(JoinWith(pieces, appId))])
  {
    ReplaceAllPieces(pieces, "_appId_", appId);
  }

  /** Lines 107-118: what the command prints; the secret only when one was made. */
  function CommandOutput(appId: string, objectId: string, tenantId: string, secret: Option<string>): (r: map<string, Json>)
    ensures r.Keys == {"appId", "objectId", "tenantId"} + (if JsStrings.Truthy(secret) then {"secret"} else {})
    ensures Get(r, "appId") == Some(Str(appId)) && Get(r, "objectId") == Some(Str(objectId))
    ensures Get(r, "tenantId") == Some(Str(tenantId))
    ensures JsStrings.Truthy(secret) ==> Get(r, "secret") == Some(Str(secret.value))
  {
    var out := map["appId" := Str(appId), "objectId" := Str(objectId), "tenantId" := Str(tenantId)];
    if JsStrings.Truthy(secret) then out["secret" := Str(secret.value)] else out
  }

  // ---------------------------------------------------------------------------
  // the command's state

  /** The state `aad app add` keeps across its steps: the fetched service
      principals, the manifest parsed by `validate`, and the name of the app
      it created. */
  class AppAddCommand {
    var items: seq<ServicePrincipal>
    var manifest: Option<Json>
    var appName: Option<Json>

    constructor()
      ensures items == [] && manifest == None && appName == Some(Str(""))
    {
      items := [];
      manifest := None;
      appName := Some(Str(""));
    }

    /** Lines 559-605: the guards in order; parsing a manifest stores it on
        the command even when the name check that follows fails. */
    method Validate(o: Options, parsed: Result<Json, string>, nullError: string) returns (v: Validation)
      modifies this
      ensures v == ValidationOf(o, parsed, nullError)
      ensures manifest == (if OptionGuards(o) == Valid && JsStrings.Truthy(o.manifest) && parsed.Ok? then Some(parsed.value) else old(manifest))
      ensures items == old(items) && appName == old(appName)
    {
      v := OptionGuards(o);
      if v.Invalid? {
        return;
      }
      if JsStrings.Truthy(o.manifest) {
        if parsed.Err? {
          return Invalid(ManifestParseFailed + parsed.error);
        }
        manifest := Some(parsed.value);
        if !JsStrings.Truthy(o.name) {
          if parsed.value == Null {
            return Invalid(ManifestParseFailed + nullError);
          }
          if !HasTruthyName(parsed.value) {
            return Invalid(NameMissing);
          }
        }
      }
      return Valid;
    }

    /** Lines 331-373: no API option, no lookup; otherwise the service
        principals are fetched into `items` (a failed fetch is the outcome),
        both lists are resolved against them and merged. */
    method ResolveApis(o: Options, fetched: Result<seq<ServicePrincipal>, string>)
      returns (r: Result<seq<RequiredResourceAccess>, string>)
      modifies this
      ensures !JsStrings.Truthy(o.apisDelegated) && !JsStrings.Truthy(o.apisApplication) ==> r == Ok([]) && items == old(items)
      ensures (JsStrings.Truthy(o.apisDelegated) || JsStrings.Truthy(o.apisApplication)) ==>
        && items == (if fetched.Ok? then fetched.value else old(items))
        && r == (if fetched.Err? then Err(fetched.error) else ResolvedApis(fetched.value, o.apisDelegated, o.apisApplication))
      ensures manifest == old(manifest) && appName == old(appName)
    {
      if (JsStrings.Truthy(o.apisDelegated) || JsStrings.Truthy(o.apisApplication)) && fetched.Ok? {
        items := fetched.value;
      }
      r := AppPermissions.ResolveApis(o.apisDelegated, o.apisApplication, fetched);
    }

    /** Lines 123-151: builds the creation body and remembers the display
        name it holds once the name and the manifest fallback are settled
        (line 132), before the platform and implicit-flow steps. */
    method CreateAppRegistration(o: Options, apis: seq<RequiredResourceAccess>) returns (body: map<string, Json>)
      modifies this
      ensures body == ApplicationInfo(o, manifest, apis)
      ensures appName == DisplayName(o, manifest)
      ensures items == old(items) && manifest == old(manifest)
    {
      var base := BaseInfo(o, manifest, apis);
      BaseInfoShape(o, manifest, apis);
      appName := Get(base, "displayName");
      body := WithImplicitFlow(WithRedirectUris(base, o), o);
    }

    /** Lines 170-186: no manifest option, no update; otherwise the body of
        the update, built from the option's own parse. The compiled module
        runs in strict mode, so a primitive manifest throws `typeError`:
        `null` at the `delete` of line 178, the other primitives at the first
        property written onto them (line 202). An array manifest
        takes every named write silently, and `JSON.stringify` sends only its
        items, so the body is the array as parsed. */
    method UpdateAppFromManifest(o: Options, parsed: Json, typeError: string)
      returns (body: Option<Result<Json, string>>)
      requires JsStrings.Truthy(o.manifest) && parsed.Obj? ==> Transformable(parsed.fields)
      ensures !JsStrings.Truthy(o.manifest) ==> body == None
      ensures JsStrings.Truthy(o.manifest) && !parsed.Obj? && !parsed.Arr? ==> body == Some(Err(typeError))
      ensures JsStrings.Truthy(o.manifest) && parsed.Arr? ==> body == Some(Ok(parsed))
      ensures JsStrings.Truthy(o.manifest) && parsed.Obj? ==>
        var stripped := parsed.fields - IdentityProperties;
        && body.Some? && body.value.Ok? && body.value.value.Obj?
        && var g := body.value.value.fields;
        && (forall k :: k in IdentityProperties ==> k !in g)
        && Transformable(stripped)
        && TopLevelMoved(g, stripped) && ApiMoved(g, stripped) && InfoMoved(g, stripped)
        && WebMoved(g, stripped) && SpaMoved(g, stripped)
    {
      if !JsStrings.Truthy(o.manifest) {
        return None;
      }
      if parsed.Arr? {
        return Some(Ok(parsed));
      }
      if !parsed.Obj? {
        return Some(Err(typeError));
      }
      var patch := ManifestPatchBody(parsed.fields);
      return Some(Ok(Obj(patch)));
    }
  }
}

/** The conversion of an application manifest from the schema the Azure
    portal exports (v2) into the schema the Graph write API takes (v1.6),
    as `transformManifest` in src/m365/aad/commands/app/app-add.ts does it,
    and the identity stripping of `updateAppFromManifest` before it. */
module ManifestTransform {
  import opened Wrappers
  import opened JsonValues

  /** A manifest: the members of a parsed JSON object. */
  type Manifest = map<string, Json>

  /** Properties that have no equivalent in v1.6 and are deleted outright. */
  const UnsupportedProperties: set<string> :=
    {"accessTokenAcceptedVersion", "disabledByMicrosoftStatus", "errorUrl",
     "oauth2RequirePostResponse", "oauth2AllowUrlPathMatching", "orgRestrictions",
     "samlMetadataUrl"}

  /** Legacy properties whose value is moved or renamed; each is deleted after the move. */
  const MovedProperties: set<string> :=
    {"acceptMappedClaims", "allowPublicClient", "informationalUrls",
     "knownClientApplications", "logoUrl", "logoutUrl", "name",
     "oauth2AllowImplicitFlow", "oauth2AllowIdTokenImplicitFlow", "oauth2Permissions",
     "preAuthorizedApplications", "signInUrl"}

  /** Every legacy property the transformation consumes unconditionally,
      including the misspelt `oauth2RequiredPostResponse` it also deletes. */
  const ConsumedProperties: set<string> :=
    UnsupportedProperties + MovedProperties + {"oauth2RequiredPostResponse"}

  /** The nested objects the transformation writes into. */
  const Sections: set<string> := {"api", "info", "web", "spa"}

  /** Properties of the app the manifest was exported from, removed before the update. */
  const IdentityProperties: set<string> := {"id", "appId", "publisherDomain"}

  const EmptyObject: Json := Obj(map[])
  const DefaultWeb: Json := Obj(map["implicitGrantSettings" := EmptyObject, "redirectUris" := Arr([])])
  const DefaultSpa: Json := Obj(map["redirectUris" := Arr([])])

  /** The object a section starts from: the manifest's own when truthy, else the default. */
  function Section(m: Manifest, key: string, default: Json): Json
  {
    if TruthyOpt(Get(m, key)) then m[key] else default
  }

  // ---------------------------------------------------------------------------
  // replyUrlsWithType

  /** An entry of `replyUrlsWithType` whose `type` is exactly the string `t`. */
  predicate IsReplyUrlOfType(e: Json, t: string) {
    e.Obj? && "type" in e.fields && e.fields["type"] == Str(t)
  }

  /** The `url` an entry contributes: a missing `url` is pushed as `undefined`,
      which `JSON.stringify` writes as `null` inside an array. */
  function ReplyUrl(e: Json): Json
    requires e.Obj?
  {
    if "url" in e.fields then e.fields["url"] else Null
  }

  /** The urls of the entries of type `t`, in order. */
  function UrlsOfType(entries: seq<Json>, t: string): seq<Json>
  {
    if entries == [] then []
    else
      var last := entries[|entries| - 1];
      UrlsOfType(entries[..|entries| - 1], t)
        + (if IsReplyUrlOfType(last, t) then [ReplyUrl(last)] else [])
  }

  /** The entries the transformation walks: none unless `replyUrlsWithType` is truthy. */
  function ReplyUrlEntries(m: Manifest): seq<Json>
  {
    if TruthyOpt(Get(m, "replyUrlsWithType")) && m["replyUrlsWithType"].Arr?
    then m["replyUrlsWithType"].items
    else []
  }

  /** Urls can be pushed onto the section's `redirectUris` (needed only when there are some). */
  predicate CanPush(section: Json, urls: seq<Json>) {
    urls == [] || (section.Obj? && "redirectUris" in section.fields && section.fields["redirectUris"].Arr?)
  }

  /** The section after `redirectUris.push(url)` for each url in turn. */
  function PushAll(section: Json, urls: seq<Json>): Json
    requires CanPush(section, urls)
  {
    if urls == [] then section
    else SetMember(section, "redirectUris", Some(Arr(section.fields["redirectUris"].items + urls)))
  }

  /** Pushing one more url onto a section that has received some already. */
  lemma PushAllStep(section: Json, urls: seq<Json>, u: Json)
    requires CanPush(section, urls + [u])
    ensures CanPush(section, urls)
    ensures var before := PushAll(section, urls);
      && before.Obj? && "redirectUris" in before.fields && before.fields["redirectUris"].Arr?
      && PushAll(section, urls + [u])
         == SetMember(before, "redirectUris", Some(Arr(before.fields["redirectUris"].items + [u])))
  {
    if urls != [] {
      var before := PushAll(section, urls);
      assert before.fields["redirectUris"].items == section.fields["redirectUris"].items + urls;
      assert section.fields["redirectUris"].items + (urls + [u])
          == section.fields["redirectUris"].items + urls + [u];
      assert before.fields["redirectUris" := Arr(before.fields["redirectUris"].items + [u])]
          == section.fields["redirectUris" := Arr(section.fields["redirectUris"].items + (urls + [u]))];
    } else {
      assert [] + [u] == [u];
    }
  }

  /** The earlier entries contribute a prefix of the urls of all entries. */
  lemma {:induction false} UrlsOfTypePrefix(entries: seq<Json>, i: nat, t: string)
    requires i <= |entries|
    ensures UrlsOfType(entries[..i], t) <= UrlsOfType(entries, t)
    decreases |entries| - i
  {
    if i < |entries| {
      UrlsOfTypePrefix(entries, i + 1, t);
      assert entries[..i + 1][..i] == entries[..i];
    } else {
      assert entries[..i] == entries;
    }
  }

  /** An entry is of at most one type, so no url goes to both platforms, and the
      urls of both platforms together never outnumber the entries. */
  lemma {:induction false} UrlsOfTypePartition(entries: seq<Json>)
    ensures |UrlsOfType(entries, "Web")| + |UrlsOfType(entries, "Spa")| <= |entries|
    ensures (forall k :: 0 <= k < |entries| ==> IsReplyUrlOfType(entries[k], "Web") || IsReplyUrlOfType(entries[k], "Spa"))
            ==> |UrlsOfType(entries, "Web")| + |UrlsOfType(entries, "Spa")| == |entries|
  {
    if entries != [] {
      UrlsOfTypePartition(entries[..|entries| - 1]);
    }
  }

  /** `replyUrlsWithType.forEach`: each `Web` entry's url is pushed onto the
      web section, each `Spa` entry's onto the spa section, others are dropped. */
  method PushReplyUrls(entries: seq<Json>, web: Json, spa: Json) returns (web': Json, spa': Json)
    requires CanPush(web, UrlsOfType(entries, "Web"))
    requires CanPush(spa, UrlsOfType(entries, "Spa"))
    ensures web' == PushAll(web, UrlsOfType(entries, "Web"))
    ensures spa' == PushAll(spa, UrlsOfType(entries, "Spa"))
  {
    web', spa' := web, spa;
    var i := 0;
    while i < |entries|
      invariant 0 <= i <= |entries|
      invariant CanPush(web, UrlsOfType(entries[..i], "Web"))
      invariant CanPush(spa, UrlsOfType(entries[..i], "Spa"))
      invariant web' == PushAll(web, UrlsOfType(entries[..i], "Web"))
      invariant spa' == PushAll(spa, UrlsOfType(entries[..i], "Spa"))
    {
      var e := entries[i];
      assert "Web"[0] != "Spa"[0];
      assert entries[..i + 1][..i] == entries[..i];
      UrlsOfTypePrefix(entries, i + 1, "Web");
      UrlsOfTypePrefix(entries, i + 1, "Spa");
      assert UrlsOfType(entries[..i + 1], "Web")
          == UrlsOfType(entries[..i], "Web") + (if IsReplyUrlOfType(e, "Web") then [ReplyUrl(e)] else []);
      assert UrlsOfType(entries[..i + 1], "Spa")
          == UrlsOfType(entries[..i], "Spa") + (if IsReplyUrlOfType(e, "Spa") then [ReplyUrl(e)] else []);
      if IsReplyUrlOfType(e, "Web") {
        PushAllStep(web, UrlsOfType(entries[..i], "Web"), ReplyUrl(e));
        web' := SetMember(web', "redirectUris", Some(Arr(web'.fields["redirectUris"].items + [ReplyUrl(e)])));
        assert web' == PushAll(web, UrlsOfType(entries[..i], "Web") + [ReplyUrl(e)]);
        assert UrlsOfType(entries[..i + 1], "Web") == UrlsOfType(entries[..i], "Web") + [ReplyUrl(e)];
        assert UrlsOfType(entries[..i + 1], "Spa") == UrlsOfType(entries[..i], "Spa");
      } else if IsReplyUrlOfType(e, "Spa") {
        PushAllStep(spa, UrlsOfType(entries[..i], "Spa"), ReplyUrl(e));
        spa' := SetMember(spa', "redirectUris", Some(Arr(spa'.fields["redirectUris"].items + [ReplyUrl(e)])));
        assert spa' == PushAll(spa, UrlsOfType(entries[..i], "Spa") + [ReplyUrl(e)]);
        assert UrlsOfType(entries[..i + 1], "Spa") == UrlsOfType(entries[..i], "Spa") + [ReplyUrl(e)];
        assert UrlsOfType(entries[..i + 1], "Web") == UrlsOfType(entries[..i], "Web");
      } else {
        assert UrlsOfType(entries[..i + 1], "Spa") == UrlsOfType(entries[..i], "Spa");
        assert UrlsOfType(entries[..i + 1], "Web") == UrlsOfType(entries[..i], "Web");
      }
      i := i + 1;
    }
    assert entries[..i] == entries;
  }

  // ---------------------------------------------------------------------------
  // the transformation

  /** A section is an object whenever it is truthy. */
  predicate ObjectIfTruthy(o: Option<Json>) {
    TruthyOpt(o) ==> o.value.Obj?
  }

  /** What the source needs of a manifest to transform it without a TypeError:
      `api`, `info` and `web`, which are always written into, are objects when
      present, a present `web` has an `implicitGrantSettings` object, a truthy
      `replyUrlsWithType` is an array without `null` entries, and a section
      that receives urls has a `redirectUris` array. `spa` is written into only
      when it receives urls, so any other `spa` is allowed and passes through. */
  predicate Transformable(m: Manifest) {
    && ObjectIfTruthy(Get(m, "api"))
    && ObjectIfTruthy(Get(m, "info"))
    && ObjectIfTruthy(Get(m, "web"))
    && (TruthyOpt(Get(m, "web")) ==>
          "implicitGrantSettings" in m["web"].fields && m["web"].fields["implicitGrantSettings"].Obj?)
    && (TruthyOpt(Get(m, "replyUrlsWithType")) ==>
          m["replyUrlsWithType"].Arr? && Null !in m["replyUrlsWithType"].items)
    && CanPush(Section(m, "web", DefaultWeb), UrlsOfType(ReplyUrlEntries(m), "Web"))
    && CanPush(Section(m, "spa", DefaultSpa), UrlsOfType(ReplyUrlEntries(m), "Spa"))
  }

  /** `after` is `before` with the properties in `changes` assigned (an
      `undefined` assignment drops the property); the properties in `nested`
      are described separately. */
  ghost predicate Assigned(after: map<string, Json>, before: map<string, Json>,
                           changes: map<string, Option<Json>>, nested: set<string>)
  {
    forall k :: k !in nested ==>
      Get(after, k) == (if k in changes then changes[k] else Get(before, k))
  }

  /** Two rounds of assignments compose into one, the later round winning. */
  lemma AssignedThen(a: map<string, Json>, b: map<string, Json>, c: map<string, Json>,
                     c1: map<string, Option<Json>>, c2: map<string, Option<Json>>, nested: set<string>)
    requires Assigned(b, a, c1, nested) && Assigned(c, b, c2, nested)
    ensures Assigned(c, a, c1 + c2, nested)
  {
  }

  /** Pushing urls assigns the section's `redirectUris` and nothing else. */
  lemma PushAllAssigned(section: Json, urls: seq<Json>)
    requires section.Obj? && CanPush(section, urls)
    ensures PushAll(section, urls).Obj?
    ensures Assigned(PushAll(section, urls).fields, section.fields,
                     map["redirectUris" := RedirectUrisAfter(section, urls)], {})
  {
  }

  /** Unconditional top-level assignments: every consumed legacy property is
      gone, `name` becomes `displayName`, `allowPublicClient` becomes `publicClient`. */
  function LegacyChanges(m: Manifest): map<string, Option<Json>>
  {
    (map k | k in ConsumedProperties :: None)
    + map["displayName" := Get(m, "name"), "publicClient" := Get(m, "allowPublicClient")]
  }

  /** `replyUrlsWithType` is deleted only when it is truthy. */
  function ReplyUrlsChange(m: Manifest): map<string, Option<Json>>
  {
    if TruthyOpt(Get(m, "replyUrlsWithType")) then map["replyUrlsWithType" := None] else map[]
  }

  /** All top-level assignments of the transformation. */
  function TopLevelChanges(m: Manifest): map<string, Option<Json>>
  {
    LegacyChanges(m) + ReplyUrlsChange(m)
  }

  function ApiChanges(m: Manifest): map<string, Option<Json>>
  {
    map["acceptMappedClaims" := Get(m, "acceptMappedClaims"),
        "knownClientApplications" := Get(m, "knownClientApplications"),
        "oauth2PermissionScopes" := Get(m, "oauth2Permissions"),
        "preAuthorizedApplications" := Get(m, "preAuthorizedApplications")]
  }

  function InfoChanges(m: Manifest): map<string, Option<Json>>
  {
    var urls := Get(m, "informationalUrls");
    map["termsOfServiceUrl" := Member(urls, "termsOfService"),
        "supportUrl" := Member(urls, "support"),
        "privacyStatementUrl" := Member(urls, "privacy"),
        "marketingUrl" := Member(urls, "marketing"),
        "logoUrl" := Get(m, "logoUrl")]
  }

  function WebChanges(m: Manifest): map<string, Option<Json>>
  {
    map["logoutUrl" := Get(m, "logoutUrl"), "homePageUrl" := Get(m, "signInUrl")]
  }

  function GrantChanges(m: Manifest): map<string, Option<Json>>
  {
    map["enableAccessTokenIssuance" := Get(m, "oauth2AllowImplicitFlow"),
        "enableIdTokenIssuance" := Get(m, "oauth2AllowIdTokenImplicitFlow")]
  }

  /** The `redirectUris` of a section after the pushes: unchanged without urls. */
  function RedirectUrisAfter(section: Json, urls: seq<Json>): Option<Json>
    requires section.Obj? && CanPush(section, urls)
  {
    if urls == [] then Get(section.fields, "redirectUris")
    else Some(Arr(section.fields["redirectUris"].items + urls))
  }

  /** The top-level part of lines 219-286: the unsupported properties and
      every moved legacy property are deleted, `allowPublicClient` is renamed
      `publicClient` and `name` is renamed `displayName`. The source deletes
      each legacy property right after moving it; the moves read `v2` and
      write other keys, so deleting them together leaves the same document. */
  method DeleteLegacyProperties(g0: Manifest, v2: Manifest) returns (g: Manifest)
    ensures Assigned(g, g0, LegacyChanges(v2), {})
  {
    g := Assign(g0, "publicClient", Get(v2, "allowPublicClient"));
    g := Assign(g, "displayName", Get(v2, "name"));
    ghost var g1 := g;
    g := g - ConsumedProperties;
    RenamedNotConsumed();
    var changes := LegacyChanges(v2);
    forall k | true
      ensures Get(g, k) == if k in changes then changes[k] else Get(g0, k)
    {
      if k in ConsumedProperties {
        assert Get(g, k) == None;
      } else {
        assert Get(g, k) == Get(g1, k);
      }
    }
  }

  /** The renamed targets are not among the deleted legacy properties. */
  lemma RenamedNotConsumed()
    ensures "displayName" !in ConsumedProperties && "publicClient" !in ConsumedProperties
  {
    assert "displayName" !in ConsumedProperties by { NotConsumed("displayName"); }
    assert "publicClient" !in ConsumedProperties by { NotConsumed("publicClient"); }
  }

  /** Lines 231, 243, 261 and 266: the legacy API properties move into `api`,
      `oauth2Permissions` under its v1.6 name `oauth2PermissionScopes`. */
  method MoveApiProperties(api0: Json, v2: Manifest) returns (api: Json)
    requires api0.Obj?
    ensures api.Obj? && Assigned(api.fields, api0.fields, ApiChanges(v2), {})
  {
    api := SetMember(api0, "acceptMappedClaims", Get(v2, "acceptMappedClaims"));
    api := SetMember(api, "knownClientApplications", Get(v2, "knownClientApplications"));
    api := SetMember(api, "oauth2PermissionScopes", Get(v2, "oauth2Permissions"));
    api := SetMember(api, "preAuthorizedApplications", Get(v2, "preAuthorizedApplications"));
  }

  /** Lines 237-240 and 246: the four `informationalUrls` members and `logoUrl`
      move into `info` under their v1.6 names. */
  method MoveInfoProperties(info0: Json, v2: Manifest) returns (info: Json)
    requires info0.Obj?
    ensures info.Obj? && Assigned(info.fields, info0.fields, InfoChanges(v2), {})
  {
    var urls := Get(v2, "informationalUrls");
    info := SetMember(info0, "termsOfServiceUrl", Member(urls, "termsOfService"));
    info := SetMember(info, "supportUrl", Member(urls, "support"));
    info := SetMember(info, "privacyStatementUrl", Member(urls, "privacy"));
    info := SetMember(info, "marketingUrl", Member(urls, "marketing"));
    info := SetMember(info, "logoUrl", Get(v2, "logoUrl"));
  }

  /** Lines 249, 255, 258 and 283: `logoutUrl` moves into `web`, `signInUrl`
      becomes `web.homePageUrl`, and the two implicit-flow flags move into
      `web.implicitGrantSettings`. */
  method MoveWebProperties(web0: Json, v2: Manifest) returns (web: Json)
    requires web0.Obj? && "implicitGrantSettings" in web0.fields && web0.fields["implicitGrantSettings"].Obj?
    ensures web.Obj?
    ensures Assigned(web.fields, web0.fields, WebChanges(v2), {"implicitGrantSettings"})
    ensures Get(web.fields, "redirectUris") == Get(web0.fields, "redirectUris")
    ensures "implicitGrantSettings" in web.fields && web.fields["implicitGrantSettings"].Obj?
    ensures Assigned(web.fields["implicitGrantSettings"].fields,
                     web0.fields["implicitGrantSettings"].fields, GrantChanges(v2), {})
  {
    web := SetMember(web0, "logoutUrl", Get(v2, "logoutUrl"));
    ghost var web1 := web;
    var grant := web.fields["implicitGrantSettings"];
    assert grant == web0.fields["implicitGrantSettings"] by {
      assert Get(web1.fields, "implicitGrantSettings") == Get(web0.fields, "implicitGrantSettings");
    }
    ghost var grant0 := grant;
    grant := SetMember(grant, "enableAccessTokenIssuance", Get(v2, "oauth2AllowImplicitFlow"));
    grant := SetMember(grant, "enableIdTokenIssuance", Get(v2, "oauth2AllowIdTokenImplicitFlow"));
    assert Assigned(grant.fields, grant0.fields, GrantChanges(v2), {}) by {
      GrantSettingsAssigned(grant0, grant, v2);
    }
    web := SetMember(web, "implicitGrantSettings", Some(grant));
    ghost var web2 := web;
    web := SetMember(web, "homePageUrl", Get(v2, "signInUrl"));
    assert Assigned(web.fields, web0.fields, WebChanges(v2), {"implicitGrantSettings"}) by {
      WebSettingsAssigned(web0, web1, web2, web, v2);
    }
  }

  /** The two implicit-flow flags set one after the other. */
  lemma GrantSettingsAssigned(grant0: Json, grant: Json, v2: Manifest)
    requires grant0.Obj?
    requires grant == SetMember(SetMember(grant0, "enableAccessTokenIssuance", Get(v2, "oauth2AllowImplicitFlow")),
                                "enableIdTokenIssuance", Get(v2, "oauth2AllowIdTokenImplicitFlow"))
    ensures grant.Obj? && Assigned(grant.fields, grant0.fields, GrantChanges(v2), {})
  {
  }

  /** `logoutUrl`, then the grant settings, then `homePageUrl`, set on `web`. */
  lemma WebSettingsAssigned(web0: Json, web1: Json, web2: Json, web: Json, v2: Manifest)
    requires web0.Obj? && web1 == SetMember(web0, "logoutUrl", Get(v2, "logoutUrl"))
    requires web2.Obj? && forall k :: k != "implicitGrantSettings" ==> Get(web2.fields, k) == Get(web1.fields, k)
    requires web == SetMember(web2, "homePageUrl", Get(v2, "signInUrl"))
    ensures Assigned(web.fields, web0.fields, WebChanges(v2), {"implicitGrantSettings"})
  {
  }

  /** Outside the four sections, the result is the input with the top-level
      assignments applied. */
  ghost predicate TopLevelMoved(g: Manifest, v2: Manifest) {
    Assigned(g, v2, TopLevelChanges(v2), Sections)
  }

  /** `api` is the input's `api` (or `{}`) with the API properties moved in. */
  ghost predicate ApiMoved(g: Manifest, v2: Manifest) {
    var api := Section(v2, "api", EmptyObject);
    "api" in g && g["api"].Obj? && api.Obj? && Assigned(g["api"].fields, api.fields, ApiChanges(v2), {})
  }

  /** `info` is the input's `info` (or `{}`) with the informational urls moved in. */
  ghost predicate InfoMoved(g: Manifest, v2: Manifest) {
    var info := Section(v2, "info", EmptyObject);
    "info" in g && g["info"].Obj? && info.Obj? && Assigned(g["info"].fields, info.fields, InfoChanges(v2), {})
  }

  /** `web` is the input's `web` (or the default) with `logoutUrl`,
      `homePageUrl` and the `Web` reply urls moved in, and its
      `implicitGrantSettings` with the two implicit-flow flags moved in. */
  ghost predicate WebMoved(g: Manifest, v2: Manifest)
    requires Transformable(v2)
  {
    var web := Section(v2, "web", DefaultWeb);
    && "web" in g && g["web"].Obj?
    && Assigned(g["web"].fields, web.fields,
                WebChanges(v2) + map["redirectUris" := RedirectUrisAfter(web, UrlsOfType(ReplyUrlEntries(v2), "Web"))],
                {"implicitGrantSettings"})
    && "implicitGrantSettings" in g["web"].fields && g["web"].fields["implicitGrantSettings"].Obj?
    && Assigned(g["web"].fields["implicitGrantSettings"].fields,
                web.fields["implicitGrantSettings"].fields, GrantChanges(v2), {})
  }

  /** `spa` is the input's `spa` (or the default): as it was when no `Spa`
      reply url is pushed, whatever its kind, and otherwise an object with the
      urls pushed onto its `redirectUris`. */
  ghost predicate SpaMoved(g: Manifest, v2: Manifest)
    requires Transformable(v2)
  {
    var spa := Section(v2, "spa", DefaultSpa);
    var urls := UrlsOfType(ReplyUrlEntries(v2), "Spa");
    && "spa" in g
    && (urls == [] ==> g["spa"] == spa)
    && (urls != [] ==>
          && g["spa"].Obj? && spa.Obj?
          && Assigned(g["spa"].fields, spa.fields, map["redirectUris" := RedirectUrisAfter(spa, urls)], {}))
  }

  /** `transformManifest`: works on a deep copy (the argument is a value and
      stays as it was), injects the default sections, deletes the unsupported
      properties and moves every legacy property to its v1.6 place. */
  method TransformManifest(v2: Manifest) returns (g: Manifest)
    requires Transformable(v2)
    ensures TopLevelMoved(g, v2)
    ensures ApiMoved(g, v2)
    ensures InfoMoved(g, v2)
    ensures WebMoved(g, v2)
    ensures SpaMoved(g, v2)
  {
    // JSON.parse(JSON.stringify(v2)): a Dafny value is already a deep copy.
    g := v2;
    // The source mutates the section objects through `g`; here each is held
    // in a local and written back into `g` at the end.
    var api := Section(g, "api", EmptyObject);
    var info := Section(g, "info", EmptyObject);
    var web := Section(g, "web", DefaultWeb);
    var spa := Section(g, "spa", DefaultSpa);

    g := DeleteLegacyProperties(g, v2);
    api := MoveApiProperties(api, v2);
    info := MoveInfoProperties(info, v2);
    web := MoveWebProperties(web, v2);
    ghost var web1, g1 := web, g;
    g, web, spa := MoveReplyUrls(v2, g, web, spa);
    ghost var g2 := g;
    AssignedThen(v2, g1, g2, LegacyChanges(v2), ReplyUrlsChange(v2), {});
    g := g["api" := api]["info" := info]["web" := web]["spa" := spa];
    SectionsWritten(g2, api, info, web, spa);
    TransformAssembled(v2, g2, g, api, info, web1, web, spa);
  }

  /** The pieces computed by `TransformManifest`, put together. */
  lemma TransformAssembled(v2: Manifest, top: Manifest, g: Manifest, api: Json, info: Json,
                           web1: Json, web: Json, spa: Json)
    requires Transformable(v2)
    requires g == top["api" := api]["info" := info]["web" := web]["spa" := spa]
    requires "api" in g && g["api"] == api && "info" in g && g["info"] == info
    requires "web" in g && g["web"] == web && "spa" in g && g["spa"] == spa
    requires forall k :: k !in Sections ==> Get(g, k) == Get(top, k)
    requires Assigned(top, v2, TopLevelChanges(v2), {})
    requires api.Obj? && Assigned(api.fields, Section(v2, "api", EmptyObject).fields, ApiChanges(v2), {})
    requires info.Obj? && Assigned(info.fields, Section(v2, "info", EmptyObject).fields, InfoChanges(v2), {})
    requires web1.Obj? && Assigned(web1.fields, Section(v2, "web", DefaultWeb).fields, WebChanges(v2), {"implicitGrantSettings"})
    requires "implicitGrantSettings" in web1.fields && web1.fields["implicitGrantSettings"].Obj?
    requires Assigned(web1.fields["implicitGrantSettings"].fields,
                      Section(v2, "web", DefaultWeb).fields["implicitGrantSettings"].fields, GrantChanges(v2), {})
    requires Get(web1.fields, "redirectUris") == Get(Section(v2, "web", DefaultWeb).fields, "redirectUris")
    requires CanPush(web1, UrlsOfType(ReplyUrlEntries(v2), "Web"))
    requires web == PushAll(web1, UrlsOfType(ReplyUrlEntries(v2), "Web"))
    requires spa == PushAll(Section(v2, "spa", DefaultSpa), UrlsOfType(ReplyUrlEntries(v2), "Spa"))
    ensures TopLevelMoved(g, v2) && ApiMoved(g, v2) && InfoMoved(g, v2) && WebMoved(g, v2) && SpaMoved(g, v2)
  {
    WebAssembled(v2, g, web1, web);
    SpaAssembled(v2, g, spa);
  }

  /** The `web` section after the moves and the pushes, as `WebMoved` describes it. */
  lemma WebAssembled(v2: Manifest, g: Manifest, web1: Json, web: Json)
    requires Transformable(v2)
    requires web1.Obj? && Assigned(web1.fields, Section(v2, "web", DefaultWeb).fields, WebChanges(v2), {"implicitGrantSettings"})
    requires "implicitGrantSettings" in web1.fields && web1.fields["implicitGrantSettings"].Obj?
    requires Assigned(web1.fields["implicitGrantSettings"].fields,
                      Section(v2, "web", DefaultWeb).fields["implicitGrantSettings"].fields, GrantChanges(v2), {})
    requires Get(web1.fields, "redirectUris") == Get(Section(v2, "web", DefaultWeb).fields, "redirectUris")
    requires CanPush(web1, UrlsOfType(ReplyUrlEntries(v2), "Web"))
    requires web == PushAll(web1, UrlsOfType(ReplyUrlEntries(v2), "Web"))
    requires "web" in g && g["web"] == web
    ensures WebMoved(g, v2)
  {
    var web0 := Section(v2, "web", DefaultWeb);
    var urls := UrlsOfType(ReplyUrlEntries(v2), "Web");
    PushAllAssigned(web1, urls);
    assert RedirectUrisAfter(web1, urls) == RedirectUrisAfter(web0, urls);
    AssignedThen(web0.fields, web1.fields, web.fields, WebChanges(v2),
                 map["redirectUris" := RedirectUrisAfter(web0, urls)], {"implicitGrantSettings"});
  }

  /** The `spa` section after the pushes, as `SpaMoved` describes it. */
  lemma SpaAssembled(v2: Manifest, g: Manifest, spa: Json)
    requires Transformable(v2)
    requires spa == PushAll(Section(v2, "spa", DefaultSpa), UrlsOfType(ReplyUrlEntries(v2), "Spa"))
    requires "spa" in g && g["spa"] == spa
    ensures SpaMoved(g, v2)
  {
    if UrlsOfType(ReplyUrlEntries(v2), "Spa") != [] {
      PushAllAssigned(Section(v2, "spa", DefaultSpa), UrlsOfType(ReplyUrlEntries(v2), "Spa"));
    }
  }

  /** Lines 270-280: every `Web` entry of a truthy `replyUrlsWithType` is
      pushed onto `web.redirectUris`, every `Spa` entry onto `spa.redirectUris`,
      and `replyUrlsWithType` is deleted. */
  method MoveReplyUrls(v2: Manifest, g0: Manifest, web0: Json, spa0: Json)
    returns (g: Manifest, web: Json, spa: Json)
    requires TruthyOpt(Get(v2, "replyUrlsWithType")) ==> v2["replyUrlsWithType"].Arr?
    requires CanPush(web0, UrlsOfType(ReplyUrlEntries(v2), "Web"))
    requires CanPush(spa0, UrlsOfType(ReplyUrlEntries(v2), "Spa"))
    ensures Assigned(g, g0, ReplyUrlsChange(v2), {})
    ensures web == PushAll(web0, UrlsOfType(ReplyUrlEntries(v2), "Web"))
    ensures spa == PushAll(spa0, UrlsOfType(ReplyUrlEntries(v2), "Spa"))
  {
    if TruthyOpt(Get(v2, "replyUrlsWithType")) {
      web, spa := PushReplyUrls(v2["replyUrlsWithType"].items, web0, spa0);
      g := g0 - {"replyUrlsWithType"};
    } else {
      assert ReplyUrlEntries(v2) == [];
      g, web, spa := g0, web0, spa0;
    }
  }

  /** Writing the four sections back leaves every other property as it was. */
  lemma SectionsWritten(g: Manifest, api: Json, info: Json, web: Json, spa: Json)
    ensures var g' := g["api" := api]["info" := info]["web" := web]["spa" := spa];
      && (forall k :: k !in Sections ==> Get(g', k) == Get(g, k))
      && "api" in g' && g'["api"] == api && "info" in g' && g'["info"] == info
      && "web" in g' && g'["web"] == web && "spa" in g' && g'["spa"] == spa
  {
  }

  // ---------------------------------------------------------------------------
  // consequences

  /** None of the key sets the transformation treats specially overlap. */
  lemma KeySetsDisjoint()
    ensures Sections !! ConsumedProperties
    ensures "displayName" !in Sections && "publicClient" !in Sections && "replyUrlsWithType" !in Sections
    ensures "displayName" !in ConsumedProperties && "publicClient" !in ConsumedProperties
    ensures "replyUrlsWithType" !in ConsumedProperties
  {
    SectionsNotConsumed();
    RenamedNotConsumed();
    assert "replyUrlsWithType" !in ConsumedProperties by { NotConsumed("replyUrlsWithType"); }
  }

  /** No section is a consumed legacy property. */
  lemma SectionsNotConsumed()
    ensures Sections !! ConsumedProperties
  {
    assert "api" !in ConsumedProperties by { NotConsumed("api"); }
    assert "info" !in ConsumedProperties by { NotConsumed("info"); }
    assert "web" !in ConsumedProperties by { NotConsumed("web"); }
    assert "spa" !in ConsumedProperties by { NotConsumed("spa"); }
  }

  /** A key outside both lists of legacy properties is not consumed. */
  lemma NotConsumed(k: string)
    requires k !in UnsupportedProperties && k !in MovedProperties && k != "oauth2RequiredPostResponse"
    ensures k !in ConsumedProperties
  {
  }

  /** No consumed legacy property survives the transformation, and a truthy
      `replyUrlsWithType` is gone too. */
  lemma ConsumedKeysGone(g: Manifest, v2: Manifest)
    requires TopLevelMoved(g, v2)
    ensures forall k :: k in ConsumedProperties ==> k !in g
    ensures TruthyOpt(Get(v2, "replyUrlsWithType")) ==> "replyUrlsWithType" !in g
  {
    KeySetsDisjoint();
    var changes := TopLevelChanges(v2);
    forall k | k in ConsumedProperties
      ensures k !in g
    {
      assert k !in Sections;
      assert k in changes && changes[k] == None;
    }
  }

  /** `name` arrives as `displayName` and `allowPublicClient` as `publicClient`. */
  lemma RenamedKeys(g: Manifest, v2: Manifest)
    requires TopLevelMoved(g, v2)
    ensures Get(g, "displayName") == Get(v2, "name")
    ensures Get(g, "publicClient") == Get(v2, "allowPublicClient")
  {
    KeySetsDisjoint();
    var legacy := LegacyChanges(v2);
    assert legacy["displayName"] == Get(v2, "name") && legacy["publicClient"] == Get(v2, "allowPublicClient");
    assert "displayName" !in ReplyUrlsChange(v2) && "publicClient" !in ReplyUrlsChange(v2);
  }

  /** Every property the transformation does not mention passes through unchanged. */
  lemma UntouchedKeysPass(g: Manifest, v2: Manifest, k: string)
    requires TopLevelMoved(g, v2)
    requires k !in ConsumedProperties && k !in Sections
    requires k != "displayName" && k != "publicClient" && k != "replyUrlsWithType"
    ensures Get(g, k) == Get(v2, k)
  {
  }

  /** The web section ends with its original `redirectUris` followed by the
      urls of the `Web` entries in order, and likewise for the spa section. */
  lemma RedirectUrisAppended(g: Manifest, v2: Manifest)
    requires Transformable(v2) && WebMoved(g, v2) && SpaMoved(g, v2)
    ensures var web := Section(v2, "web", DefaultWeb);
      var urls := UrlsOfType(ReplyUrlEntries(v2), "Web");
      urls != [] ==> ("redirectUris" in g["web"].fields
                      && g["web"].fields["redirectUris"] == Arr(web.fields["redirectUris"].items + urls))
    ensures var spa := Section(v2, "spa", DefaultSpa);
      var urls := UrlsOfType(ReplyUrlEntries(v2), "Spa");
      urls != [] ==> ("redirectUris" in g["spa"].fields
                      && g["spa"].fields["redirectUris"] == Arr(spa.fields["redirectUris"].items + urls))
  {
    assert "redirectUris" != "implicitGrantSettings";
    assert Get(g["web"].fields, "redirectUris")
        == RedirectUrisAfter(Section(v2, "web", DefaultWeb), UrlsOfType(ReplyUrlEntries(v2), "Web"));
    if UrlsOfType(ReplyUrlEntries(v2), "Spa") != [] {
      assert Get(g["spa"].fields, "redirectUris")
          == RedirectUrisAfter(Section(v2, "spa", DefaultSpa), UrlsOfType(ReplyUrlEntries(v2), "Spa"));
    }
  }

  // ---------------------------------------------------------------------------
  // updateAppFromManifest

  /** Lines 170-186: the body of the manifest update, the parsed manifest
      without the identity properties of the app it was exported from,
      transformed to v1.6. */
  method ManifestPatchBody(manifest: Manifest) returns (body: Manifest)
    requires Transformable(manifest)
    ensures forall k :: k in IdentityProperties ==> k !in body
    ensures var stripped := manifest - IdentityProperties;
      && Transformable(stripped)
      && TopLevelMoved(body, stripped) && ApiMoved(body, stripped) && InfoMoved(body, stripped)
      && WebMoved(body, stripped) && SpaMoved(body, stripped)
  {
    var stripped := manifest - IdentityProperties;
    IdentityStripped(manifest);
    body := TransformManifest(stripped);
    KeySetsDisjointIdentity();
    forall k | k in IdentityProperties
      ensures k !in body
    {
      UntouchedKeysPass(body, stripped, k);
    }
  }

  /** The identity properties are neither consumed, renamed targets nor sections. */
  lemma KeySetsDisjointIdentity()
    ensures IdentityProperties !! ConsumedProperties && IdentityProperties !! Sections
    ensures "displayName" !in IdentityProperties && "publicClient" !in IdentityProperties
    ensures "replyUrlsWithType" !in IdentityProperties
  {
  }

  /** Removing the identity properties keeps a manifest transformable. */
  lemma IdentityStripped(m: Manifest)
    requires Transformable(m)
    ensures Transformable(m - IdentityProperties)
  {
    var s := m - IdentityProperties;
    KeySetsDisjointIdentity();
    assert Get(s, "api") == Get(m, "api");
    assert Get(s, "info") == Get(m, "info");
    assert Get(s, "web") == Get(m, "web");
    assert Get(s, "spa") == Get(m, "spa");
    assert Get(s, "replyUrlsWithType") == Get(m, "replyUrlsWithType");
    assert Section(s, "web", DefaultWeb) == Section(m, "web", DefaultWeb);
    assert Section(s, "spa", DefaultSpa) == Section(m, "spa", DefaultSpa);
    assert ReplyUrlEntries(s) == ReplyUrlEntries(m);
  }

  // ---------------------------------------------------------------------------
  // worked cases

  /** A manifest whose `spa` is a number, with no reply urls, is transformed
      and its `spa` sent unchanged. */
  lemma PrimitiveSpaPassesThrough(g: Manifest)
    ensures var m := map["spa" := Number(1.0)];
      && Transformable(m)
      && (SpaMoved(g, m) ==> "spa" in g && g["spa"] == Number(1.0))
  {
    var m := map["spa" := Number(1.0)];
    assert Get(m, "replyUrlsWithType") == None && ReplyUrlEntries(m) == [];
    assert Get(m, "web") == None && Get(m, "api") == None && Get(m, "info") == None;
    assert Section(m, "spa", DefaultSpa) == Number(1.0);
  }

  /** A manifest holding only `name: "App1"` becomes one with that display
      name and no `name`. */
  lemma NameBecomesDisplayName(g: Manifest)
    requires TopLevelMoved(g, map["name" := Str("App1")])
    ensures Get(g, "displayName") == Some(Str("App1")) && "name" !in g
  {
    RenamedKeys(g, map["name" := Str("App1")]);
    ConsumedKeysGone(g, map["name" := Str("App1")]);
    assert "name" in ConsumedProperties;
  }
}

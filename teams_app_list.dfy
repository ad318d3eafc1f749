/** The `teams app list` command of src/m365/teams/commands/app/app-list.ts:
    which endpoint it lists, how a team name resolves to a team id, the rows
    it prints and its option validation. */
module TeamsAppList {
  import opened Wrappers
  import opened JsStrings

  datatype Options = Options(all: bool, teamId: Option<string>, teamName: Option<string>)

  /** A joined team as the lookup by display name returns it. */
  datatype Team = Team(id: string)

  /** An app of the tenant catalog, and an app installed in a team. */
  datatype TeamsApp = TeamsApp(id: string, displayName: string, distributionMethod: string)
  datatype TeamsAppInstallation = TeamsAppInstallation(id: string, teamsApp: TeamsApp)

  /** A row of the text output. */
  datatype Row = Row(id: string, displayName: string, distributionMethod: string)

  const TeamNotFound := "The specified team does not exist in the Microsoft Teams"
  const BothTeamOptions := "Specify either teamId or teamName, but not both."
  const OrganizationFilter := "?$filter=distributionMethod eq 'organization'"
  const InstalledOrganizationFilter := "&$filter=teamsApp/distributionMethod eq 'organization'"

  predicate TeamGiven(o: Options) {
    Truthy(o.teamId) || Truthy(o.teamName)
  }

  function Ids(teams: seq<Team>): (r: seq<string>)
    ensures |r| == |teams| && forall i :: 0 <= i < |teams| ==> r[i] == teams[i].id
  {
    seq(|teams|, i requires 0 <= i < |teams| => teams[i].id)
  }

  function MultipleTeams(teamName: string, teams: seq<Team>): string {
    "Multiple Microsoft Teams teams with name " + teamName + " found: " + Join(Ids(teams), ',')
  }

  // ---------------------------------------------------------------------------
  // getTeamId

  /** Lines 40-68: a given team id as it is; otherwise the teams whose display
      name is the given name (`lookup`, the joined-teams query's outcome)
      must be exactly one. */
  function TeamId(o: Options, lookup: Result<seq<Team>, string>): Result<string, string>
  {
    if Truthy(o.teamId) then Ok(o.teamId.value)
    else match lookup
      case Err(e) => Err(e)
      case Ok(teams) =>
        if |teams| == 0 then Err(TeamNotFound)
        else if |teams| > 1 then Err(MultipleTeams(if o.teamName.Some? then o.teamName.value else "undefined", teams))
        else Ok(teams[0].id)
  }

  /** A team id comes back exactly when it was given, or when the lookup
      found a single team, and then it is that team's. */
  lemma TeamIdResolves(o: Options, lookup: Result<seq<Team>, string>, id: string)
    ensures TeamId(o, lookup) == Ok(id) <==>
      if Truthy(o.teamId) then id == o.teamId.value
      else lookup.Ok? && |lookup.value| == 1 && lookup.value[0].id == id
  {
  }

  /** A given team id is used without looking anything up. */
  lemma TeamIdGiven(o: Options, lookup: Result<seq<Team>, string>, other: Result<seq<Team>, string>)
    requires Truthy(o.teamId)
    ensures TeamId(o, lookup) == TeamId(o, other) == Ok(o.teamId.value)
  {
  }

  /** The "multiple teams" message lists the ids of every team found, in
      order, so that splitting its tail at the commas gives them back
      (ids never hold a comma). */
  lemma MultipleTeamsListsIds(teamName: string, teams: seq<Team>)
    requires |teams| > 1
    requires forall i :: 0 <= i < |teams| ==> ',' !in teams[i].id
    ensures var prefix := "Multiple Microsoft Teams teams with name " + teamName + " found: ";
      var message := MultipleTeams(teamName, teams);
      && StartsWith(message, prefix)
      && Split(message[|prefix|..], ',') == Ids(teams)
  {
    var prefix := "Multiple Microsoft Teams teams with name " + teamName + " found: ";
    var message := MultipleTeams(teamName, teams);
    assert message == prefix + Join(Ids(teams), ',');
    assert message[|prefix|..] == Join(Ids(teams), ',');
    SplitJoin(Ids(teams), ',');
  }

  // ---------------------------------------------------------------------------
  // getEndpointUrl

  /** Lines 70-98: the installed apps of the team, or the catalog of the
      tenant; both limited to the organization's apps unless `all` is set.
      `encode` stands for `encodeURIComponent`. */
  function EndpointUrl(o: Options, resource: string, teamId: Result<string, string>, encode: string -> string)
    : Result<string, string>
  {
    if TeamGiven(o) then
      match teamId
        case Err(e) => Err(e)
        case Ok(id) =>
          Ok(resource + "/v1.0/teams/" + encode(id) + "/installedApps?$expand=teamsApp"
             + (if !o.all then InstalledOrganizationFilter else ""))
    else
      Ok(resource + "/v1.0/appCatalogs/teamsApps" + (if !o.all then OrganizationFilter else ""))
  }

  /** Which collection is listed, and that the organization filter ends the
      address exactly when `all` is not set; with `all` the address is the
      bare collection. */
  lemma EndpointUrlShape(o: Options, resource: string, teamId: Result<string, string>, encode: string -> string)
    requires TeamGiven(o) ==> teamId.Ok?
    ensures var r := EndpointUrl(o, resource, teamId, encode);
      && r.Ok?
      && (!TeamGiven(o) ==>
            var base := resource + "/v1.0/appCatalogs/teamsApps";
            && StartsWith(r.value, base)
            && (EndsWith(r.value, OrganizationFilter) <==> !o.all)
            && (r.value == base <==> o.all))
      && (TeamGiven(o) ==>
            var base := resource + "/v1.0/teams/" + encode(teamId.value) + "/installedApps?$expand=teamsApp";
            && StartsWith(r.value, base)
            && (EndsWith(r.value, InstalledOrganizationFilter) <==> !o.all)
            && (r.value == base <==> o.all))
  {
    if TeamGiven(o) {
      var base := resource + "/v1.0/teams/" + encode(teamId.value) + "/installedApps?$expand=teamsApp";
      assert base[|base| - 1] == 'p';
      FilterEndsAddress(base, InstalledOrganizationFilter, o.all);
    } else {
      var base := resource + "/v1.0/appCatalogs/teamsApps";
      assert base[|base| - 1] == 's';
      FilterEndsAddress(base, OrganizationFilter, o.all);
    }
  }

  /** A filter whose last character differs from the address's ends the
      address exactly when it was appended. */
  lemma FilterEndsAddress(base: string, filter: string, all: bool)
    requires base != [] && filter != [] && base[|base| - 1] != filter[|filter| - 1]
    ensures var r := base + (if all then "" else filter);
      && StartsWith(r, base)
      && (EndsWith(r, filter) <==> !all)
      && (r == base <==> all)
  {
    var r := base + (if all then "" else filter);
    assert r[..|base|] == base;
    if all {
      assert r == base;
      assert |filter| <= |r| ==> r[|r| - |filter|..][|filter| - 1] == r[|r| - 1] != filter[|filter| - 1];
    } else {
      assert r[|r| - |filter|..] == filter;
      assert |r| > |base|;
    }
  }

  // ---------------------------------------------------------------------------
  // output projection

  /** Lines 119-125: one row per catalog app. */
  function CatalogRows(apps: seq<TeamsApp>): seq<Row>
  {
    if apps == [] then []
    else [Row(apps[0].id, apps[0].displayName, apps[0].distributionMethod)] + CatalogRows(apps[1..])
  }

  /** Lines 110-116: one row per installation, named after its app. */
  function InstalledRows(installs: seq<TeamsAppInstallation>): seq<Row>
  {
    if installs == [] then []
    else
      var i := installs[0];
      [Row(i.id, i.teamsApp.displayName, i.teamsApp.distributionMethod)] + InstalledRows(installs[1..])
  }

  /** Every app gives its row, in order. */
  lemma {:induction false} CatalogRowsPointwise(apps: seq<TeamsApp>)
    ensures |CatalogRows(apps)| == |apps|
    ensures forall k :: 0 <= k < |apps| ==>
      CatalogRows(apps)[k] == Row(apps[k].id, apps[k].displayName, apps[k].distributionMethod)
  {
    if apps != [] {
      CatalogRowsPointwise(apps[1..]);
    }
  }

  /** Every installation gives its row, in order, with its app's name and
      distribution method. */
  lemma {:induction false} InstalledRowsPointwise(installs: seq<TeamsAppInstallation>)
    ensures |InstalledRows(installs)| == |installs|
    ensures forall k :: 0 <= k < |installs| ==>
      InstalledRows(installs)[k] == Row(installs[k].id, installs[k].teamsApp.displayName, installs[k].teamsApp.distributionMethod)
  {
    if installs != [] {
      InstalledRowsPointwise(installs[1..]);
    }
  }

  // ---------------------------------------------------------------------------
  // validate

  function InvalidGuid(teamId: string): string {
    teamId + " is not a valid GUID"
  }

  /** Lines 157-167; `isValidGuid` stands for `Utils.isValidGuid`. */
  function Validate(o: Options, isValidGuid: string -> bool): Validation
  {
    if Truthy(o.teamId) && Truthy(o.teamName) then Invalid(BothTeamOptions)
    else if Truthy(o.teamId) && !isValidGuid(o.teamId.value) then Invalid(InvalidGuid(o.teamId.value))
    else Valid
  }

  /** The options are accepted exactly when at most one team option is given
      and a given team id is a GUID; giving both is reported first, whatever
      the id. */
  lemma ValidateSpec(o: Options, isValidGuid: string -> bool)
    ensures Validate(o, isValidGuid) == Valid <==>
      !(Truthy(o.teamId) && Truthy(o.teamName)) && (Truthy(o.teamId) ==> isValidGuid(o.teamId.value))
    ensures Truthy(o.teamId) && Truthy(o.teamName) ==> Validate(o, isValidGuid) == Invalid(BothTeamOptions)
  {
  }
}

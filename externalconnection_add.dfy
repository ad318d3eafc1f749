/** The `search externalconnection add` command of
    src/m365/search/commands/externalconnection/externalconnection-add.ts:
    the rules a connection id must follow and the connection it creates. */
module ExternalConnectionAdd {
  import opened Wrappers
  import opened JsStrings

  datatype Options = Options(id: string, name: string, description: string, authorizedAppIds: Option<string>)

  datatype Configuration = Configuration(authorizedAppIds: seq<string>)
  datatype ExternalConnection = ExternalConnection(id: string, name: string, description: string, configuration: Configuration)

  /** Ids the service keeps for its own connections. */
  const ReservedIds: seq<string> := ["None", "Directory", "Exchange", "ExchangeArchive", "LinkedIn", "Mailbox",
    "OneDriveBusiness", "SharePoint", "Teams", "Yammer", "Connectors", "TaskFabric", "PowerBI", "Assistant",
    "TopicEngine", "MSFT_All_Connectors"]

  const LengthOutOfRange := "ID must be between 3 and 32 characters in length."
  const NotAlphanumeric := "ID must only contain alphanumeric characters."
  const MicrosoftPrefix := "ID cannot begin with Microsoft"

  /** `invalidIds.indexOf(id) > -1`: some position of the list holds `id`. */
  predicate Reserved(id: string) {
    exists k :: 0 <= k < |ReservedIds| && ReservedIds[k] == id
  }

  /** The reserved ids joined with ", ", as the refusal lists them. */
  const ReservedId := "ID cannot be one of the following values: None, Directory, Exchange, ExchangeArchive, "
    + "LinkedIn, Mailbox, OneDriveBusiness, SharePoint, Teams, Yammer, Connectors, TaskFabric, PowerBI, "
    + "Assistant, TopicEngine, MSFT_All_Connectors."

  /** A character `\w` matches other than `_`. */
  predicate IsAsciiAlphanumeric(c: char) {
    ('a' <= c <= 'z') || ('A' <= c <= 'Z') || ('0' <= c <= '9')
  }

  /** `/[^\w]|_/g.test(id)`, on a fresh expression: some character is not an
      ASCII letter or digit. */
  predicate HasForbiddenCharacter(id: string) {
    exists i :: 0 <= i < |id| && !IsAsciiAlphanumeric(id[i])
  }

  // ---------------------------------------------------------------------------
  // validate

  /** Lines 86-126: the id checks in order, the first failure's message. */
  function ValidateId(id: string): Validation
  {
    if Utf16Length(id) < 3 || Utf16Length(id) > 32 then Invalid(LengthOutOfRange)
    else if HasForbiddenCharacter(id) then Invalid(NotAlphanumeric)
    else if Utf16Length(id) > 9 && StartsWith(id, "Microsoft") then Invalid(MicrosoftPrefix)
    else if Reserved(id) then Invalid(ReservedId)
    else Valid
  }

  /** An id is accepted exactly when it is 3 to 32 ASCII letters and digits,
      does not extend "Microsoft" and is not reserved. */
  lemma ValidateIdSpec(id: string)
    ensures ValidateId(id) == Valid <==>
      && 3 <= |id| <= 32
      && (forall i :: 0 <= i < |id| ==> IsAsciiAlphanumeric(id[i]))
      && !(|id| > 9 && StartsWith(id, "Microsoft"))
      && !Reserved(id)
  {
    if forall i :: 0 <= i < |id| ==> IsAsciiAlphanumeric(id[i]) {
      assert Utf16Length(id) == |id| by {
        assert forall i :: 0 <= i < |id| ==> id[i] as int <= 0xFFFF;
      }
    } else {
      assert HasForbiddenCharacter(id);
    }
  }

  /** The length rule counts UTF-16 code units: an id of two characters
      beyond U+FFFF is long enough, and is then refused for its characters. */
  lemma LengthInCodeUnits()
    ensures ValidateId("\U{1F600}\U{1F600}") == Invalid(NotAlphanumeric)
  {
    var id := "\U{1F600}\U{1F600}";
    assert Utf16Length(id) == 4;
    assert !IsAsciiAlphanumeric(id[0]);
  }

  /** "Microsoft" itself passes: the prefix rule needs more than nine characters. */
  lemma MicrosoftAlone()
    ensures ValidateId("Microsoft") == Valid
  {
    var id := "Microsoft";
    assert !HasForbiddenCharacter(id) by {
      assert forall i :: 0 <= i < |id| ==> IsAsciiAlphanumeric(id[i]);
    }
    assert Utf16Length(id) == 9 by {
      assert forall i :: 0 <= i < |id| ==> id[i] as int <= 0xFFFF;
    }
    assert !Reserved(id) by {
      ReservedIdsShape();
    }
  }

  /** Anything longer that starts with "Microsoft" and passes the earlier
      rules is refused for the prefix. */
  lemma MicrosoftPrefixRefused(id: string)
    requires 9 < |id| <= 32 && StartsWith(id, "Microsoft")
    requires forall i :: 0 <= i < |id| ==> IsAsciiAlphanumeric(id[i])
    ensures ValidateId(id) == Invalid(MicrosoftPrefix)
  {
    assert forall i :: 0 <= i < |id| ==> id[i] as int <= 0xFFFF;
  }

  /** "MSFT_All_Connectors" is on the reserved list, and holds an underscore... */
  lemma UnderscoreIdReserved()
    ensures Reserved("MSFT_All_Connectors")
    ensures '_' in "MSFT_All_Connectors"
  {
    assert ReservedIds[15] == "MSFT_All_Connectors";
    assert "MSFT_All_Connectors"[4] == '_';
  }

  /** ...so it is refused by the character rule before the list is consulted,
      like every id of an accepted length that holds an underscore. */
  lemma UnderscoreIdRefused(id: string)
    requires 3 <= Utf16Length(id) <= 32 && '_' in id
    ensures ValidateId(id) == Invalid(NotAlphanumeric)
  {
    var i :| 0 <= i < |id| && id[i] == '_';
    assert !IsAsciiAlphanumeric(id[i]);
  }

  /** The reserved ids are all of an accepted length and none starts with
      "Microsoft". */
  lemma ReservedIdsShape()
    ensures forall k :: 0 <= k < |ReservedIds| ==> 3 <= |ReservedIds[k]| <= 32 && !StartsWith(ReservedIds[k], "Microsoft")
    ensures !Reserved("Microsoft")
  {
    forall k | 0 <= k < |ReservedIds|
      ensures 3 <= |ReservedIds[k]| <= 32 && !StartsWith(ReservedIds[k], "Microsoft")
    {
      var r := ReservedIds[k];
      assert |r| < 9 || r[0] != 'M' || r[1] != 'i';
    }
  }

  /** A reserved id that passes the character rule is refused for being reserved. */
  lemma ReservedRefused(id: string)
    requires Reserved(id) && !HasForbiddenCharacter(id)
    ensures ValidateId(id) == Invalid(ReservedId)
  {
    assert 3 <= |id| <= 32 && !StartsWith(id, "Microsoft") by {
      var k :| 0 <= k < |ReservedIds| && ReservedIds[k] == id;
      ReservedIdsShape();
    }
    assert Utf16Length(id) == |id| by {
      assert forall i :: 0 <= i < |id| ==> id[i] as int <= 0xFFFF;
    }
  }

  // ---------------------------------------------------------------------------
  // commandAction

  /** Lines 36-41: absent or empty, no app; otherwise split at every comma,
      without trimming. */
  function AuthorizedAppIds(authorizedAppIds: Option<string>): seq<string>
  {
    if authorizedAppIds == None || authorizedAppIds == Some("") then [] else Split(authorizedAppIds.value, ',')
  }

  /** The list given back joined at commas is the option exactly, spaces and
      empty pieces included. */
  lemma AuthorizedAppIdsRoundTrip(authorizedAppIds: Option<string>)
    ensures !Truthy(authorizedAppIds) <==> AuthorizedAppIds(authorizedAppIds) == []
    ensures Truthy(authorizedAppIds) ==> Join(AuthorizedAppIds(authorizedAppIds), ',') == authorizedAppIds.value
  {
    if Truthy(authorizedAppIds) {
      JoinSplit(authorizedAppIds.value, ',');
    }
  }

  /** Lines 43-50: the connection that is posted. */
  function CommandData(o: Options): ExternalConnection
  {
    ExternalConnection(o.id, o.name, o.description, Configuration(AuthorizedAppIds(o.authorizedAppIds)))
  }

  /** The posted connection carries the options as given, and as many
      authorized apps as the option has comma-separated pieces. */
  lemma CommandDataShape(o: Options)
    ensures var c := CommandData(o);
      && c.id == o.id && c.name == o.name && c.description == o.description
      && |c.configuration.authorizedAppIds| == (if Truthy(o.authorizedAppIds) then |Split(o.authorizedAppIds.value, ',')| else 0)
      && (forall i :: 0 <= i < |c.configuration.authorizedAppIds| ==> ',' !in c.configuration.authorizedAppIds[i])
  {
  }
}

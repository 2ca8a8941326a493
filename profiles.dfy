/**
 * Profile resolution (`fetch_profile`): probe the table, query the one
 * profile row, decode its `profile` attribute. The table probe, the query and
 * the decoder are inputs; the function decides between exactly one decoded
 * configuration and exactly one error response.
 */
module Profiles {
  import opened Wrappers
  import opened Json
  import opened Responses

  const ResourceNotFound := "ResourceNotFoundException"
  const Active := "ACTIVE"

  /**
   * What `describe_table` did: returned a table status, or raised. A raised
   * exception carries `errorCode` when it has `response['Error']`; it carries
   * none otherwise (this also covers a reply without `Table.TableStatus`).
   */
  datatype DescribeOutcome =
    | Described(tableStatus: string)
    | DescribeRaised(errorCode: Option<string>)

  /** A row returned by the query, with its string attributes. */
  type Item = map<string, string>

  /**
   * What the query for `type = '_profile' and name = <profile>` did: returned
   * a reply whose `Items` may be absent, or raised (with `Error.Message` when
   * the exception carries a service response, and its text in any case).
   */
  datatype QueryOutcome =
    | Queried(items: Option<seq<Item>>)
    | QueryRaised(errorMessage: Option<string>, text: string)

  /** What `json.loads` did with the stored text. */
  datatype Decoded = Parsed(value: Value) | DecodeError(text: string)

  /** `(profile_json, None)` or `(None, response)`. */
  datatype Resolution = Resolved(config: Value) | Rejected(response: Response)

  /** The probe found no table: the error has no code or the code is ResourceNotFoundException. */
  predicate TableMissing(describe: DescribeOutcome)
  {
    describe.DescribeRaised? && (describe.errorCode.None? || describe.errorCode.value == ResourceNotFound)
  }

  /** The probe found the table serving traffic. */
  predicate TableActive(describe: DescribeOutcome)
  {
    describe.Described? && describe.tableStatus == Active
  }

  /** The query returned exactly one row and that row has a `profile` attribute. */
  predicate SingleProfileRow(query: QueryOutcome)
  {
    query.Queried? && query.items.Some? && |query.items.value| == 1 && "profile" in query.items.value[0]
  }

  /** Every check of `fetch_profile` passes. */
  predicate ProfileAvailable(describe: DescribeOutcome, query: QueryOutcome, decode: string -> Decoded)
  {
    TableActive(describe) && SingleProfileRow(query) &&
    decode(query.items.value[0]["profile"]).Parsed?
  }

  function TableMissingMessage(tableName: string): string
  {
    "Table " + tableName + " does not exist, try running \"eden config --push\""
  }

  function TableStatusMessage(tableName: string, status: string): string
  {
    "Table " + tableName + " status is \"" + status + "\", try again later"
  }

  function NotFoundMessage(profileName: string): string
  {
    "Profile " + profileName + " not found in remote table!"
  }

  function MultipleMessage(profileName: string): string
  {
    "Got multiple profiles for profile name " + profileName + " from remote table!"
  }

  function NoParametersMessage(profileName: string): string
  {
    "Profile " + profileName + " does not contain any parameters!"
  }

  /**
   * `fetch_profile(profile_name)`. Succeeds exactly when every check passes,
   * and then with the decoded `profile` attribute; fails with 400 exactly when
   * the table is missing and with 501 otherwise.
   */
  function FetchProfile(tableName: string, profileName: string, describe: DescribeOutcome,
                        query: QueryOutcome, decode: string -> Decoded): (r: Resolution)
    ensures r.Resolved? <==> ProfileAvailable(describe, query, decode)
    ensures r.Resolved? ==> r.config == decode(query.items.value[0]["profile"]).value
    ensures r.Rejected? ==> r.response.statusCode == (if TableMissing(describe) then 400 else 501)
    ensures r.Rejected? ==> IsError(r.response) && r.response.body.Keys == {"status", "message"}
  {
    match describe
    case DescribeRaised(code) =>
      if code.Some? && code.value != ResourceNotFound then
        Rejected(Envelope("Unknown exception", 501, None))
      else
        Rejected(Envelope(TableMissingMessage(tableName), 400, None))
    case Described(status) =>
      if status != Active then
        Rejected(Envelope(TableStatusMessage(tableName, status), 501, None))
      else
        match query
        case QueryRaised(errorMessage, text) =>
          Rejected(Envelope(RaisedMessage(errorMessage, text), 501, None))
        case Queried(items) =>
          if items.None? || |items.value| == 0 then
            Rejected(Envelope(NotFoundMessage(profileName), 501, None))
          else if |items.value| != 1 then
            Rejected(Envelope(MultipleMessage(profileName), 501, None))
          else if "profile" !in items.value[0] then
            Rejected(Envelope(NoParametersMessage(profileName), 501, None))
          else
            match decode(items.value[0]["profile"])
            case DecodeError(text) => Rejected(Envelope("JSON decode error: " + text, 501, None))
            case Parsed(config) => Resolved(config)
  }

  /**
   * The table probe decides alone when it does not report an active table:
   * the query and the decoder are never consulted.
   */
  lemma ProbeFailureSkipsQuery(tableName: string, profileName: string, describe: DescribeOutcome,
                               query1: QueryOutcome, decode1: string -> Decoded,
                               query2: QueryOutcome, decode2: string -> Decoded)
    requires !TableActive(describe)
    ensures FetchProfile(tableName, profileName, describe, query1, decode1)
         == FetchProfile(tableName, profileName, describe, query2, decode2)
  {
  }

  /** Each way the table probe can fail, with the response it produces. */
  lemma ProbeRejections(tableName: string, profileName: string, describe: DescribeOutcome,
                        query: QueryOutcome, decode: string -> Decoded)
    ensures describe.DescribeRaised? && !TableMissing(describe) ==>
      FetchProfile(tableName, profileName, describe, query, decode) == Rejected(Envelope("Unknown exception", 501, None))
    ensures TableMissing(describe) ==>
      FetchProfile(tableName, profileName, describe, query, decode) == Rejected(Envelope(TableMissingMessage(tableName), 400, None))
    ensures describe.Described? && describe.tableStatus != Active ==>
      FetchProfile(tableName, profileName, describe, query, decode)
        == Rejected(Envelope(TableStatusMessage(tableName, describe.tableStatus), 501, None))
  {
  }

  /**
   * With an active table, each way the query and decoding can fail is a
   * separate 501 with its own message.
   */
  lemma QueryRejections(tableName: string, profileName: string, describe: DescribeOutcome,
                        query: QueryOutcome, decode: string -> Decoded)
    requires TableActive(describe)
    ensures query.QueryRaised? ==>
      FetchProfile(tableName, profileName, describe, query, decode)
        == Rejected(Envelope(RaisedMessage(query.errorMessage, query.text), 501, None))
    ensures query.Queried? && (query.items.None? || query.items.value == []) ==>
      FetchProfile(tableName, profileName, describe, query, decode) == Rejected(Envelope(NotFoundMessage(profileName), 501, None))
    ensures query.Queried? && query.items.Some? && |query.items.value| > 1 ==>
      FetchProfile(tableName, profileName, describe, query, decode) == Rejected(Envelope(MultipleMessage(profileName), 501, None))
    ensures query.Queried? && query.items.Some? && |query.items.value| == 1 && "profile" !in query.items.value[0] ==>
      FetchProfile(tableName, profileName, describe, query, decode) == Rejected(Envelope(NoParametersMessage(profileName), 501, None))
    ensures SingleProfileRow(query) && decode(query.items.value[0]["profile"]).DecodeError? ==>
      FetchProfile(tableName, profileName, describe, query, decode)
        == Rejected(Envelope("JSON decode error: " + decode(query.items.value[0]["profile"]).text, 501, None))
  {
  }

  /** The pair `fetch_profile` returns, with `None` written as `Null` and as `None`. */
  function AsPair(r: Resolution): (Value, Option<Response>)
  {
    match r
    case Resolved(config) => (config, None)
    case Rejected(response) => (Null, Some(response))
  }

  /**
   * Exactly one component of the pair is not `None`, unless the stored
   * profile text itself decodes to JSON `null`: then both are `None`.
   */
  lemma ExactlyOneComponent(tableName: string, profileName: string, describe: DescribeOutcome,
                            query: QueryOutcome, decode: string -> Decoded)
    ensures var pair := AsPair(FetchProfile(tableName, profileName, describe, query, decode));
      (pair.1.Some? <==> !ProfileAvailable(describe, query, decode)) &&
      (pair.0 != Null <==> ProfileAvailable(describe, query, decode) &&
                           decode(query.items.value[0]["profile"]).value != Null)
  {
  }
}

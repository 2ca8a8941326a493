/**
 * The environment registry and the request handler: `create_env`,
 * `delete_env` and `lambda_handler`. The DynamoDB table's environment rows are
 * a map keyed by `(type, name)`; the provisioning library and each table write
 * are inputs that either raise or return.
 */
module Lifecycle {
  import opened Wrappers
  import opened Json
  import opened Responses
  import opened Params
  import opened Profiles

  const CreatePath := "/api/v1/create"
  const DeletePath := "/api/v1/delete"
  const CreateParams := ["name", "image_uri"]
  const DeleteParams := ["name"]

  /** The table's key: the `type` attribute (the profile name) and the `name` attribute. */
  datatype Key = Key(profile: string, name: string)

  /** The other attributes of an environment row. */
  datatype Record = Record(typeName: string, lastUpdatedTime: string, endpoint: Value)

  /** What a call into the provisioning library did: raised, or returned a dictionary. */
  datatype GatewayOutcome = GatewayRaised | GatewayReturned(result: map<string, Value>)

  /** What `put_item` / `delete_item` did: succeeded, or raised (see `RaisedMessage`). */
  datatype StoreOutcome = StoreOk | StoreRaised(errorMessage: Option<string>, text: string)

  /** The side-effecting calls the handler makes, in the order it makes them. */
  datatype Call =
    | ProvisionCreate(name: string, imageUri: string, config: Value)
    | ProvisionDelete(name: string, config: Value)
    | PutItem(key: Key, record: Record)
    | DeleteItem(key: Key)

  /**
   * The pair `(r, e)` that `create_env` and `delete_env` return, by shape:
   * `(None, response)`, `(response, True)` or `(result, False)`.
   */
  datatype EnvReturn =
    | Aborted(response: Response)
    | Failed(response: Response)
    | Done(result: map<string, Value>)

  /** The fields of the event `lambda_handler` reads. */
  datatype Event = Event(resource: string, queryStringParameters: Option<QueryParams>)

  /** `put_item`: an unconditional upsert of one row. */
  function Put(table: map<Key, Record>, key: Key, record: Record): (t: map<Key, Record>)
    ensures key in t && t[key] == record
    ensures t.Keys == table.Keys + {key}
    ensures forall k :: k in table && k != key ==> t[k] == table[k]
  {
    table[key := record]
  }

  /** `delete_item`: removes one row, and is no error when the row is absent. */
  function Remove(table: map<Key, Record>, key: Key): (t: map<Key, Record>)
    ensures key !in t
    ensures t.Keys == table.Keys - {key}
    ensures forall k :: k in t ==> t[k] == table[k]
  {
    table - {key}
  }

  /** The attributes `create_env` writes for an environment. */
  function NewRecord(profileName: string, name: string, now: string, endpoint: Value): (r: Record)
    ensures r.typeName == profileName + "_" + name && r.endpoint == endpoint && r.lastUpdatedTime == now
  {
    Record(profileName + "_" + name, now, endpoint)
  }

  /** Every row's `type_name` is its `type` and its `name` joined by "_". */
  ghost predicate TypeNamesAgree(table: map<Key, Record>)
  {
    forall k :: k in table ==> table[k].typeName == k.profile + "_" + k.name
  }

  /** Writing a row built by `NewRecord` under its own key keeps `type_name` consistent. */
  lemma PutKeepsTypeNames(table: map<Key, Record>, profileName: string, name: string, now: string, endpoint: Value)
    ensures TypeNamesAgree(table) ==> TypeNamesAgree(Put(table, Key(profileName, name), NewRecord(profileName, name, now, endpoint)))
  {
  }

  /** A second write to the same key replaces the first. */
  lemma PutOverwrites(table: map<Key, Record>, key: Key, first: Record, second: Record)
    ensures Put(Put(table, key, first), key, second) == Put(table, key, second)
  {
  }

  /** Deleting twice is deleting once. */
  lemma RemoveIdempotent(table: map<Key, Record>, key: Key)
    ensures Remove(Remove(table, key), key) == Remove(table, key)
  {
  }

  /**
   * Creating an environment that had no row and then deleting it leaves the
   * table as it was; when a row existed before, the delete removes it instead.
   */
  lemma CreateThenDelete(table: map<Key, Record>, key: Key, record: Record)
    ensures key !in table ==> Remove(Put(table, key, record), key) == table
    ensures key in table ==> Remove(Put(table, key, record), key) == Remove(table, key)
  {
  }

  /** The Lambda module's state: the table's environment rows and a record of its side effects. */
  class Backend {
    /** The name of the DynamoDB table (`EDEN_TABLE`). */
    const tableName: string
    /** The environment rows of the table. */
    var table: map<Key, Record>
    /** The provisioning calls and table writes made so far, oldest first. */
    ghost var calls: seq<Call>

    /**
     * A data property of the rows, not a class invariant: rows written
     * out of band may break it, so no method requires it; every method
     * keeps it when it holds.
     */
    ghost predicate TypeNamesConsistent()
      reads this
    {
      TypeNamesAgree(table)
    }

    constructor (tableName: string, rows: map<Key, Record>)
      ensures this.tableName == tableName && table == rows && calls == []
    {
      this.tableName := tableName;
      table := rows;
      calls := [];
    }

    /**
     * `create_env`: provision first; only when that returns, write the row
     * `(profile_name, name)` with the returned `cname` as its endpoint.
     * The `cname` lookup sits inside the write's exception handler, so a
     * result without `cname` is reported like a failed write.
     */
    method CreateEnv(name: string, imageUri: string, profileName: string, config: Value,
                     provision: GatewayOutcome, store: StoreOutcome, now: string)
      returns (ret: EnvReturn)
      modifies this
      ensures provision.GatewayRaised? ==>
        ret == Aborted(Envelope("Exception caught", 501, None)) &&
        table == old(table) && calls == old(calls) + [ProvisionCreate(name, imageUri, config)]
      ensures provision.GatewayReturned? && "cname" !in provision.result ==>
        ret == Failed(Envelope("Unknown exception raised: 'cname'", 501, None)) &&
        table == old(table) && calls == old(calls) + [ProvisionCreate(name, imageUri, config)]
      ensures provision.GatewayReturned? && "cname" in provision.result ==>
        var key := Key(profileName, name);
        var record := NewRecord(profileName, name, now, provision.result["cname"]);
        calls == old(calls) + [ProvisionCreate(name, imageUri, config), PutItem(key, record)] &&
        (store.StoreOk? ==> ret == Done(provision.result) && table == Put(old(table), key, record)) &&
        (store.StoreRaised? ==>
          ret == Failed(Envelope(RaisedMessage(store.errorMessage, store.text), 501, None)) && table == old(table))
      ensures old(TypeNamesConsistent()) ==> TypeNamesConsistent()
    {
      calls := calls + [ProvisionCreate(name, imageUri, config)];
      if provision.GatewayRaised? {
        var response := GenerateResponse("Exception caught", 501, None);
        return Aborted(response);
      }
      var r := provision.result;
      if "cname" !in r {
        var response := GenerateResponse("Unknown exception raised: 'cname'", 501, None);
        return Failed(response);
      }
      var key := Key(profileName, name);
      var record := NewRecord(profileName, name, now, r["cname"]);
      calls := calls + [PutItem(key, record)];
      if store.StoreRaised? {
        var response := GenerateResponse(RaisedMessage(store.errorMessage, store.text), 501, None);
        return Failed(response);
      }
      PutKeepsTypeNames(table, profileName, name, now, r["cname"]);
      table := Put(table, key, record);
      ret := Done(r);
    }

    /**
     * `delete_env`: deprovision first; only when that returns, delete the row
     * `(profile_name, name)`, present or not.
     */
    method DeleteEnv(name: string, profileName: string, config: Value,
                     provision: GatewayOutcome, store: StoreOutcome)
      returns (ret: EnvReturn)
      modifies this
      ensures !ret.Aborted?
      ensures provision.GatewayRaised? ==>
        ret == Failed(Envelope("Exception caught", 501, None)) &&
        table == old(table) && calls == old(calls) + [ProvisionDelete(name, config)]
      ensures provision.GatewayReturned? ==>
        var key := Key(profileName, name);
        calls == old(calls) + [ProvisionDelete(name, config), DeleteItem(key)] &&
        (store.StoreOk? ==> ret == Done(provision.result) && table == Remove(old(table), key)) &&
        (store.StoreRaised? ==>
          ret == Failed(Envelope(RaisedMessage(store.errorMessage, store.text), 501, None)) && table == old(table))
      ensures old(TypeNamesConsistent()) ==> TypeNamesConsistent()
    {
      calls := calls + [ProvisionDelete(name, config)];
      if provision.GatewayRaised? {
        var response := GenerateResponse("Exception caught", 501, None);
        return Failed(response);
      }
      var key := Key(profileName, name);
      calls := calls + [DeleteItem(key)];
      if store.StoreRaised? {
        var response := GenerateResponse(RaisedMessage(store.errorMessage, store.text), 501, None);
        return Failed(response);
      }
      table := Remove(table, key);
      ret := Done(provision.result);
    }

    /**
     * `lambda_handler`: resolve the profile, then validate the parameters of
     * the requested operation, then run it. `None` is the handler returning
     * nothing: an unknown resource, or a create whose provisioning raised.
     */
    method LambdaHandler(event: Event, describe: DescribeOutcome, query: QueryOutcome,
                         decode: string -> Decoded, provision: GatewayOutcome,
                         store: StoreOutcome, now: string)
      returns (result: Option<Response>)
      modifies this
      ensures old(TypeNamesConsistent()) ==> TypeNamesConsistent()
      // Profile resolution comes first; its failure is the answer, whatever the resource.
      ensures var resolution := FetchProfile(tableName, ProfileName(event.queryStringParameters), describe, query, decode);
        resolution.Rejected? ==>
          result == Some(resolution.response) && table == old(table) && calls == old(calls)
      ensures ProfileAvailable(describe, query, decode) && event.resource != CreatePath && event.resource != DeletePath ==>
        result == None && table == old(table) && calls == old(calls)
      // Parameter validation comes second.
      ensures ProfileAvailable(describe, query, decode) && event.resource == CreatePath &&
              ValidateParams(event.queryStringParameters, CreateParams).Some? ==>
        result == ValidateParams(event.queryStringParameters, CreateParams) && table == old(table) && calls == old(calls)
      ensures ProfileAvailable(describe, query, decode) && event.resource == DeletePath &&
              ValidateParams(event.queryStringParameters, DeleteParams).Some? ==>
        result == ValidateParams(event.queryStringParameters, DeleteParams) && table == old(table) && calls == old(calls)
      // A create with a resolved profile and its parameters given.
      ensures ProfileAvailable(describe, query, decode) && event.resource == CreatePath &&
              ValidateParams(event.queryStringParameters, CreateParams).None? ==>
        var q := event.queryStringParameters.value;
        var profileName := ProfileName(event.queryStringParameters);
        var config := FetchProfile(tableName, profileName, describe, query, decode).config;
        var name := q["name"].value;
        var provisionCall := ProvisionCreate(name, q["image_uri"].value, config);
        (provision.GatewayRaised? ==>
          result == None && table == old(table) && calls == old(calls) + [provisionCall]) &&
        (provision.GatewayReturned? && "cname" !in provision.result ==>
          result == Some(Envelope("Unknown exception raised: 'cname'", 501, None)) && table == old(table) &&
          calls == old(calls) + [provisionCall]) &&
        (provision.GatewayReturned? && "cname" in provision.result ==>
          var key := Key(profileName, name);
          var record := NewRecord(profileName, name, now, provision.result["cname"]);
          calls == old(calls) + [provisionCall, PutItem(key, record)] &&
          (store.StoreRaised? ==>
            result == Some(Envelope(RaisedMessage(store.errorMessage, store.text), 501, None)) && table == old(table)) &&
          (store.StoreOk? ==>
            result == Some(Envelope("successfully created", 200, Some(provision.result))) &&
            table == Put(old(table), key, record)))
      // A delete with a resolved profile and its parameters given.
      ensures ProfileAvailable(describe, query, decode) && event.resource == DeletePath &&
              ValidateParams(event.queryStringParameters, DeleteParams).None? ==>
        var q := event.queryStringParameters.value;
        var profileName := ProfileName(event.queryStringParameters);
        var config := FetchProfile(tableName, profileName, describe, query, decode).config;
        var name := q["name"].value;
        (provision.GatewayRaised? ==>
          result == Some(Envelope("Exception caught", 501, None)) && table == old(table) &&
          calls == old(calls) + [ProvisionDelete(name, config)]) &&
        (provision.GatewayReturned? ==>
          calls == old(calls) + [ProvisionDelete(name, config), DeleteItem(Key(profileName, name))]) &&
        (provision.GatewayReturned? && store.StoreRaised? ==>
          result == Some(Envelope(RaisedMessage(store.errorMessage, store.text), 501, None)) && table == old(table)) &&
        (provision.GatewayReturned? && store.StoreOk? ==>
          result == Some(Envelope("successfully deleted", 200, Some(provision.result))) &&
          table == Remove(old(table), Key(profileName, name)))
    {
      var q := event.queryStringParameters;
      var profileName := ProfileName(q);
      var resolution := FetchProfile(tableName, profileName, describe, query, decode);
      if resolution.Rejected? {
        return Some(resolution.response);
      }
      var config := resolution.config;

      if event.resource == CreatePath {
        var errorResponse := ValidateParams(q, CreateParams);
        if errorResponse.Some? {
          return errorResponse;
        }
        assert Present(q.value, CreateParams[0]) && Present(q.value, CreateParams[1]);
        var ret := CreateEnv(q.value["name"].value, q.value["image_uri"].value, profileName, config,
                             provision, store, now);
        match ret
        case Aborted(_) =>
          // `if e: return r` with `r` being `None`.
          return None;
        case Failed(response) =>
          return Some(response);
        case Done(r) =>
          var response := GenerateResponse("successfully created", 200, Some(r));
          return Some(response);
      } else if event.resource == DeletePath {
        var errorResponse := ValidateParams(q, DeleteParams);
        if errorResponse.Some? {
          return errorResponse;
        }
        assert Present(q.value, DeleteParams[0]);
        var ret := DeleteEnv(q.value["name"].value, profileName, config, provision, store);
        match ret
        case Failed(response) =>
          return Some(response);
        case Done(r) =>
          var response := GenerateResponse("successfully deleted", 200, Some(r));
          return Some(response);
      }
      return None;
    }
  }
}

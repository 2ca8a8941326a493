# Eden API request handler, modelled in Dafny

This project models the Lambda request handler of the Eden API (`lambda/main.py`).
The handler creates and deletes ephemeral "environments" under a named "profile".
For each request it does four things:

1. It resolves the profile. It probes the DynamoDB table, queries the single `_profile` row and decodes its `profile` attribute.
2. It validates the query-string parameters.
3. It calls the provisioning library, `aws_eden_core`.
4. It records or removes the environment's row in the table.

It then answers with one response envelope.

Every external call becomes an input outcome:

- the table probe is a `DescribeOutcome`;
- the profile query is a `QueryOutcome`;
- `json.loads` is an opaque decoder, `string -> Decoded`;
- the provisioning library is a `GatewayOutcome`;
- each table write is a `StoreOutcome`.

The table's environment rows are a `map<Key, Record>` keyed by `(type, name)`. This map is a field of the class `Lifecycle.Backend`. Its methods `CreateEnv`, `DeleteEnv` and `LambdaHandler` update the field in place. A ghost `calls` log records the provisioning calls and table writes in the order they are made. The ordering rules are stated against this log: provisioning happens before any table change, and nothing is provisioned when profile resolution or validation fails.

Modules, one per component of `main.py`:

- `Responses`: `generate_response`. It is a specification function `Envelope` plus the method `GenerateResponse`, which copies the additional fields in a loop.
- `Params`: `validate_params` and the choice of profile name.
- `Profiles`: `fetch_profile`, a decision over the probe, the query and the decoder.
- `Lifecycle`: the registry and the handler.
- `Json` and `Wrappers`: value types.

Four behaviours of the code are modelled as written:

- a profile that is not found gives 501 (lambda/main.py:61);
- a missing table gives 400 (lambda/main.py:37);
- the profile is resolved before the parameters are validated (lambda/main.py:187-193);
- when provisioning raises during a create, the handler returns `None` (lambda/main.py:205-206). This is because `create_env` returns `(None, response)` and the handler returns its first component.

## Model

| member | source | states |
|---|---|---|
| `Responses.Envelope` | lambda/main.py:145-167 | `statusCode` is echoed, `isBase64Encoded` is false and `headers` is empty. The body holds exactly `status`, `message` and the additional keys. Every additional key keeps its value, so a colliding key overrides `status`/`message`. Without a collision, `status` is "error" exactly when the code is at least 400 and "ok" exactly when it is below 400, and `message` is the message. |
| `Responses.GenerateResponse` | lambda/main.py:145-167 | The loop that copies `additional_fields` into `ret_dict` one key at a time yields the envelope above, whatever order the keys are visited in. `None` counts as no additional fields. |
| `Params.FirstMissing` | lambda/main.py:174-176 | The loop stops at index i exactly when `checks[i]` is absent or `None` and every earlier check is given. It runs to the end exactly when every check is given. |
| `Params.ValidateParams` | lambda/main.py:170-178 | The result is `None` exactly when the parameters exist and every required one is given. Any other result is a 400 error envelope. Absent parameters give the message naming all required params joined by spaces. Otherwise the message names the first missing param in list order. |
| `Params.JoinSpacesNamesEach` | lambda/main.py:172 | Every required parameter occurs in the space-joined list that the "no parameters" message reports. |
| `Params.ValidateIgnoresOtherParams` | lambda/main.py:174-176 | Setting a parameter that is not required never changes the outcome of validation. |
| `Params.ProfileNameDefaults` | lambda/main.py:182-185 | The profile is "default" when the parameters are absent, when `profile` is absent and when `profile` is given as `None`; these three cases act alike. A given `profile` value is used as is. No other parameter changes the choice. |
| `Profiles.FetchProfile` | lambda/main.py:27-80 | It succeeds exactly when all of the following hold: the table is ACTIVE; the query returns exactly one item; that item has a `profile` attribute; and the attribute decodes. On success it yields the decoded value. A failure is one error envelope with only `status` and `message`. Its code is 400 exactly when the probe raised with no error code or with ResourceNotFoundException, and 501 otherwise. |
| `Profiles.ProbeFailureSkipsQuery` | lambda/main.py:28-40 | When the probe does not report ACTIVE, the result does not depend on the query or the decoder, so the query is never reached. |
| `Profiles.ProbeRejections` | lambda/main.py:28-40 | A probe error with any other code gives 501 "Unknown exception". A missing table gives 400 with the "does not exist" message. Any status other than ACTIVE gives 501 naming that status. |
| `Profiles.QueryRejections` | lambda/main.py:44-78 | With an active table, each of these is a separate 501 with its own message: a query error, no `Items` or zero items, more than one item, an item without `profile`, and a decode error. |
| `Profiles.ExactlyOneComponent` | lambda/main.py:71-80 | The error component of the returned pair is not `None` exactly when resolution fails. The config component is not `None` exactly when resolution succeeds and the profile text does not decode to JSON `null`. In that one case both components are `None`. |
| `Lifecycle.Put` | lambda/main.py:92-101 | `put_item` is an upsert. Afterwards the key holds the new row, the key set gains at most that key, and every other row is unchanged. |
| `Lifecycle.Remove` | lambda/main.py:125-131 | `delete_item` removes exactly the one key, whether or not it was present, and leaves every other row unchanged. |
| `Lifecycle.PutKeepsTypeNames` | lambda/main.py:94-97 | The rows that `create_env` writes keep the property that every row's `type_name` is its `type` and `name` joined by "_". |
| `Lifecycle.PutOverwrites` | lambda/main.py:93-101 | A second write to the same key replaces the first (last writer wins). |
| `Lifecycle.RemoveIdempotent` | lambda/main.py:126-131 | Deleting a key twice is the same as deleting it once. |
| `Lifecycle.CreateThenDelete` | lambda/main.py:83-142 | Writing a row that was absent and then deleting it restores the table. If a row existed before, the pair leaves that row deleted. |
| `Lifecycle.Backend.constructor` | lambda/main.py:15-24 | The module state starts with the given table name and rows and with no calls made. |
| `Lifecycle.Backend.CreateEnv` | lambda/main.py:83-112 | Provisioning is called first. If it raises, the result is `(None, 501 "Exception caught")`, the table is unchanged and no write is attempted. If the result lacks `cname`, the error is caught in the write's handler and gives 501, with no write. Otherwise exactly one `put_item` of `(profile_name, name)` is attempted, and its row has `endpoint` equal to the gateway's `cname`, `type_name` equal to `profile_name + "_" + name` and the given timestamp. On success it upserts that key and returns `(r, False)`. On failure the table is unchanged and the 501 response is returned. When every row's `type_name` agrees with its key beforehand, it still does afterwards. |
| `Lifecycle.Backend.DeleteEnv` | lambda/main.py:116-142 | Deprovisioning is called first. If it raises, the result is `(501 response, True)` and the table is unchanged. Otherwise one `delete_item` of `(profile_name, name)` is attempted. On success it removes only that key, present or not, and returns `(r, False)`. On failure the table is unchanged. It never returns the `(None, response)` shape, and it keeps the `type_name` agreement when it holds. |
| `Lifecycle.Backend.LambdaHandler` | lambda/main.py:181-230 | A failed profile resolution returns that error, whatever the resource or parameters, with no provisioning and no table change. An unknown resource returns `None` with no effect. A validation failure returns its 400 with no effect. Otherwise the whole call log is stated: the provisioning call alone when it raised (or, for a create, when `cname` is missing), and the provisioning call followed by exactly one write otherwise. A create whose provisioning raised returns `None`. A failed write returns its 501 with the table unchanged. Success returns 200 with the gateway result merged into the body, plus the upsert or the removal of `(profile, name)`. |

## Left out

- The boto3 clients and `describe_table`, `query`, `put_item` and `delete_item` as network calls are not modelled. Each is an input outcome, and the environment rows are a map.
- The provisioning library `aws_eden_core.methods.create_env`/`delete_env` is opaque. It is an input that either raises or returns a dictionary, and its own effects (DNS, containers, load balancers) are not modelled.
- The profile query is not linked to the map of environment rows. Profile rows (type `_profile`) live in the same table but are reached only through the query outcome, so a write under the profile name `_profile` is not connected to later queries.
- JSON text is not modelled. The body is the structured dictionary passed to `json.dumps`, so its key order is not captured; the loop in `GenerateResponse` visits keys in an unspecified order. `json.loads` is an opaque decoder.
- A `profile` attribute that is not a string is not modelled: items carry string attributes only. For any other type, `json.loads` raises `TypeError`, which the handler does not catch.
- A missing `queryStringParameters` or `resource` key in the event is not modelled: the handler would raise `KeyError`. An absent value is `None` in the model.
- Numbers are integers. Floating-point JSON numbers and the float timestamp are left out; the timestamp is an opaque string parameter `now`.
- Logging, reading `EDEN_TABLE` from the environment (the table name is a constructor parameter), and races between concurrent invocations on the same key are not modelled.
- Error responses without the expected key are not modelled. The `except` blocks read `e.response['Error']['Code']` (lambda/main.py:33) and `['Message']` (lambda/main.py:50, 104, 134). When `Error` lacks that key, they raise `KeyError`, which escapes the handler. `DescribeRaised`, `QueryRaised` and `StoreRaised` always carry a usable code or message, or none at all.
- Gateway results holding values that are not JSON are not modelled. `json.dumps` (lambda/main.py:166) raises `TypeError` on such a value, and the handler does not catch it. `GatewayReturned` carries only JSON values.

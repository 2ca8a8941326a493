/**
 * The response normaliser (`generate_response`): every outcome of the handler
 * becomes one envelope with a status code, an empty header map and a body
 * whose `status` is "ok" or "error" according to the code.
 */
module Responses {
  import opened Wrappers
  import opened Json

  /**
   * The dictionary the Lambda proxy integration expects. The body is kept as
   * the structured dictionary that the source hands to `json.dumps`.
   */
  datatype Response = Response(
    isBase64Encoded: bool,
    statusCode: int,
    headers: map<string, Value>,
    body: map<string, Value>)

  /** `additional_fields`, with `None` read as the empty dictionary. */
  function ExtraFields(additional: Option<map<string, Value>>): map<string, Value>
  {
    match additional
    case None => map[]
    case Some(fields) => fields
  }

  /**
   * The envelope `generate_response(message, status_code, additional_fields)`
   * returns: `status` and `message` first, then every additional field, a
   * colliding additional field overriding them.
   */
  function Envelope(message: string, statusCode: int, additional: Option<map<string, Value>>): (r: Response)
    ensures r.statusCode == statusCode && !r.isBase64Encoded && r.headers == map[]
    ensures r.body.Keys == {"status", "message"} + ExtraFields(additional).Keys
    ensures forall k :: k in ExtraFields(additional) ==> r.body[k] == ExtraFields(additional)[k]
    ensures "status" !in ExtraFields(additional) ==>
      (r.body["status"] == Str("error") <==> statusCode >= 400) &&
      (r.body["status"] == Str("ok") <==> statusCode < 400)
    ensures "message" !in ExtraFields(additional) ==> r.body["message"] == Str(message)
  {
    var status := if statusCode >= 400 then "error" else "ok";
    Response(false, statusCode, map[], map["status" := Str(status), "message" := Str(message)] + ExtraFields(additional))
  }

  /** The body's `status` field is present and is "error". */
  predicate IsError(r: Response)
  {
    "status" in r.body && r.body["status"] == Str("error")
  }

  /**
   * `generate_response`: builds `ret_dict` and copies the additional fields
   * into it one at a time. The order in which the fields are copied does not
   * matter: the result is always the envelope above.
   */
  method GenerateResponse(message: string, statusCode: int, additional: Option<map<string, Value>>)
    returns (r: Response)
    ensures r == Envelope(message, statusCode, additional)
  {
    var fields := ExtraFields(additional);
    var status := if statusCode >= 400 then "error" else "ok";
    var base := map["status" := Str(status), "message" := Str(message)];
    var retDict := base;
    var todo := fields.Keys;
    while todo != {}
      invariant todo <= fields.Keys
      invariant retDict.Keys == base.Keys + (fields.Keys - todo)
      invariant forall k :: k in fields && k !in todo ==> retDict[k] == fields[k]
      invariant forall k :: k in base && (k !in fields || k in todo) ==> retDict[k] == base[k]
      decreases todo
    {
      var k :| k in todo;
      retDict := retDict[k := fields[k]];
      todo := todo - {k};
    }
    assert retDict == base + fields;
    r := Response(false, statusCode, map[], retDict);
  }

  /**
   * The message `fetch_profile`, `create_env` and `delete_env` report for a
   * caught exception: the service's `Error.Message` when the exception
   * carries one, otherwise "Unknown exception raised: " and the exception text.
   */
  function RaisedMessage(errorMessage: Option<string>, text: string): (m: string)
    ensures errorMessage.None? ==> m == "Unknown exception raised: " + text
    ensures errorMessage.Some? ==> m == errorMessage.value
  {
    match errorMessage
    case Some(msg) => msg
    case None => "Unknown exception raised: " + text
  }
}

/**
 * Independent definitions of the JSON-RPC 2.0 request object (section 4),
 * response object (section 5) and error object (section 5.1) of the
 * JSON-RPC 2.0 Specification, and how the client's envelope and unwrapper
 * relate to them.
 */
module JsonRpc2 {
  import opened Json
  import opened Record

  /** JSON-RPC 2.0 section 4: "jsonrpc" is exactly "2.0", "method" is a string,
      "params" when present is an array or object, "id" when present is a
      string, a number or null. */
  predicate IsRequest(j: Json)
  {
    && j.Obj?
    && Get(j, "jsonrpc") == Str("2.0")
    && Get(j, "method").Str?
    && (HasKey(j.members, "params") ==> Get(j, "params").Arr? || Get(j, "params").Obj?)
    && (HasKey(j.members, "id") ==> Get(j, "id").Str? || Get(j, "id").Num? || Get(j, "id").Null?)
  }

  /** JSON-RPC 2.0 section 5.1: an integer "code" and a string "message". */
  predicate IsErrorObject(e: Json)
  {
    e.Obj? && Get(e, "code").Num? && Get(e, "message").Str?
  }

  /** JSON-RPC 2.0 section 5, success: "result" present, "error" absent, "id" present. */
  predicate IsSuccessResponse(j: Json)
  {
    && j.Obj?
    && Get(j, "jsonrpc") == Str("2.0")
    && HasKey(j.members, "result")
    && !HasKey(j.members, "error")
    && HasKey(j.members, "id")
  }

  /** JSON-RPC 2.0 section 5, failure: "error" present and an error object, "result"
      absent, "id" present. */
  predicate IsErrorResponse(j: Json)
  {
    && j.Obj?
    && Get(j, "jsonrpc") == Str("2.0")
    && !HasKey(j.members, "result")
    && HasKey(j.members, "error")
    && IsErrorObject(Get(j, "error"))
    && HasKey(j.members, "id")
  }

  /** The envelope is a request object, and carries an id, whenever its
      params are structured. */
  lemma EnvelopeIsRequest(params: Json, callId: Option<int>, draw: real)
    requires callId.None? ==> 0.0 <= draw < 1.0
    requires params.Arr? || params.Obj?
    ensures IsRequest(JsonRpcParams(params, callId, draw))
    ensures HasKey(JsonRpcParams(params, callId, draw).members, "id")
  {
  }

  /** Every body `call_json_rpc` sends is a request object. */
  lemma CallIsRequest(url: string, service: string, methodName: string, args: seq<Json>,
                      timeout: Option<real>, draw: real)
    requires 0.0 <= draw < 1.0
    ensures IsRequest(CallJsonRpc(url, service, methodName, args, timeout, draw).body)
  {
  }

  /** A success response unwraps to its result. */
  lemma SuccessResponseUnwraps(j: Json)
    requires IsSuccessResponse(j)
    ensures UnwrapRpcResult(j) == Ok(Get(j, "result"))
  {
  }

  /** An error response never unwraps to a result. It raises the RPC error
      carrying the server's message (the default when that is "") unless
      its optional "data" is a truthy non-object, which makes the client
      fail with AttributeError instead. */
  lemma ErrorResponseRaises(j: Json)
    requires IsErrorResponse(j)
    ensures var error := Get(j, "error");
      var data := Get(error, "data");
      var r := UnwrapRpcResult(j);
      && !r.Ok?
      && (r.AttributeError? <==> Truthy(data) && !data.Obj?)
      && (r.Err? ==>
            r.error.message == if Get(error, "message") == Str("") then Str(DefaultMessage) else Get(error, "message"))
  {
  }
}

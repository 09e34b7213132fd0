/**
 * Properties of the client core: the shape of the envelope, the range of
 * drawn ids, the error-precedence and default rules of the unwrapper, the
 * string form of an RPC error and its inverse, and the worked scenarios.
 */
module RecordProperties {
  import opened Json
  import opened Record

  // ---------------------------------------------------------------- envelope

  /** The envelope binds exactly the four request keys and nothing else. */
  lemma EnvelopeKeysExactly(params: Json, callId: Option<int>, draw: real, key: string)
    requires callId.None? ==> 0.0 <= draw < 1.0
    ensures var r := JsonRpcParams(params, callId, draw);
      HasKey(r.members, key) <==> key in ["jsonrpc", "method", "params", "id"]
  {
  }

  /** With an explicit id the draw plays no part: equal inputs give equal
      envelopes. */
  lemma ExplicitIdIgnoresDraw(params: Json, id: int, draw1: real, draw2: real)
    ensures JsonRpcParams(params, Some(id), draw1) == JsonRpcParams(params, Some(id), draw2)
    ensures Get(JsonRpcParams(params, Some(id), draw1), "id") == Num(id)
  {
  }

  /** An explicit id of 0 is kept: the source tests `call_id is None`, not
      its truthiness. */
  lemma ZeroIdIsKept(params: Json, draw: real)
    ensures Get(JsonRpcParams(params, Some(0), draw), "id") == Num(0)
  {
  }

  /** Every id in [0, 10^9) is drawn by some value of `random.random()`,
      so the range of generated ids is exactly [0, 10^9). */
  lemma DrawnIdCoversRange(k: int)
    requires 0 <= k < IdBound
    ensures 0.0 <= k as real / 1000000000.0 < 1.0
    ensures DrawnId(k as real / 1000000000.0) == k
  {
  }

  // ---------------------------------------------------------------- unwrap

  /** No truthy error: the result member is returned, Null when absent, and
      no error is raised. */
  lemma UnwrapWithoutError(response: Json)
    requires response.Obj? && !Truthy(Get(response, "error"))
    ensures UnwrapRpcResult(response) == Ok(Get(response, "result"))
    ensures !HasKey(response.members, "result") ==> UnwrapRpcResult(response) == Ok(Null)
  {
  }

  /** A truthy error object always raises; the message is the error's
      message when truthy, the default otherwise; the traceback is
      `data.debug` when both are truthy, "" otherwise. The result member is
      never returned, whatever it holds. */
  lemma UnwrapWithError(response: Json)
    requires response.Obj?
    requires var error := Get(response, "error");
      Truthy(error) && error.Obj? &&
      (!Truthy(Get(error, "data")) || Get(error, "data").Obj?)
    ensures var error := Get(response, "error");
      var message := Get(error, "message");
      var data := Get(error, "data");
      UnwrapRpcResult(response) == Err(RpcError(
        if Truthy(message) then message else Str(DefaultMessage),
        if Truthy(data) && Truthy(Get(data, "debug")) then Get(data, "debug") else Str("")))
  {
  }

  /** An empty-string message falls back to the default as well. */
  lemma EmptyMessageFallsBack(response: Json)
    requires response.Obj?
    requires var error := Get(response, "error");
      Truthy(error) && error.Obj? && Get(error, "message") == Str("") &&
      !Truthy(Get(error, "data"))
    ensures UnwrapRpcResult(response) == Err(RpcError(Str(DefaultMessage), Str("")))
  {
  }

  /** Unwrapping fails with AttributeError exactly when `.get` meets a
      value that is not a dict: the response itself, a truthy error, or a
      truthy `data` inside an error object. */
  lemma UnwrapAttributeErrorExactly(response: Json)
    ensures UnwrapRpcResult(response).AttributeError? <==>
      || !response.Obj?
      || (var error := Get(response, "error");
          Truthy(error) &&
          (!error.Obj? || (Truthy(Get(error, "data")) && !Get(error, "data").Obj?)))
  {
  }

  // ---------------------------------------------------------------- string form

  /** Index of the first newline of `s`, or `|s|` when there is none. */
  function FirstNewline(s: string): (k: nat)
    ensures k <= |s|
    ensures k < |s| ==> s[k] == '\n'
    ensures forall j :: 0 <= j < k ==> s[j] != '\n'
    decreases |s|
  {
    if s == [] then 0
    else if s[0] == '\n' then 0
    else 1 + FirstNewline(s[1..])
  }

  /** Reads a rendered error back: the first line is the message, a blank
      line must follow, the rest is the traceback. */
  function ParseRendered(s: string): (r: Option<(string, string)>)
    ensures r.Some? ==> s == r.value.0 + "\n\n" + r.value.1 && '\n' !in r.value.0
  {
    var k := FirstNewline(s);
    if k + 1 < |s| && s[k + 1] == '\n' then
      assert s == s[..k] + "\n\n" + s[k + 2..];
      Some((s[..k], s[k + 2..]))
    else None
  }

  /** A single-line message and its traceback are recovered from the string
      form of the error. */
  lemma RenderedErrorRoundTrip(message: string, traceback: string)
    requires '\n' !in message
    ensures RenderRpcError(RpcError(Str(message), Str(traceback))).Some?
    ensures ParseRendered(RenderRpcError(RpcError(Str(message), Str(traceback))).value)
            == Some((message, traceback))
  {
    var s := message + "\n\n" + traceback;
    assert forall j :: 0 <= j < |message| ==> s[j] == message[j];
    assert s[|message|] == '\n' && s[|message| + 1] == '\n';
    assert FirstNewline(s) == |message|;
    assert s[..|message|] == message && s[|message| + 2..] == traceback;
  }

  // ---------------------------------------------------------------- scenarios

  /** `{"result": 42}` unwraps to 42. */
  lemma ResultScenario()
    ensures UnwrapRpcResult(Obj([("result", Num(42))])) == Ok(Num(42))
  {
  }

  /** `{"error": {"message": "Access Denied"}}` raises with that message
      and an empty traceback. */
  lemma AccessDeniedScenario()
    ensures UnwrapRpcResult(Obj([("error", Obj([("message", Str("Access Denied"))]))]))
            == Err(RpcError(Str("Access Denied"), Str("")))
  {
  }

  /** A message with a debug traceback renders as "Boom\n\nline1\nline2". */
  lemma TracebackScenario()
    ensures var error := Obj([("message", Str("Boom")), ("data", Obj([("debug", Str("line1\nline2"))]))]);
      var r := UnwrapRpcResult(Obj([("error", error)]));
      r.Err? && RenderRpcError(r.error) == Some("Boom\n\nline1\nline2")
  {
    var debug := [("debug", Str("line1\nline2"))];
    var error := [("message", Str("Boom")), ("data", Obj(debug))];
    LookupAt([("error", Obj(error))], 0);
    LookupAt(error, 0);
    LookupAt(error, 1);
    LookupAt(debug, 0);
    var r := UnwrapRpcResult(Obj([("error", Obj(error))]));
    assert r == Err(RpcError(Str("Boom"), Str("line1\nline2")));
    assert "Boom" + "\n\n" + "line1\nline2" == "Boom\n\nline1\nline2";
  }

  /** A failed login answers `{"result": false}`: a falsy uid, no error. */
  lemma FailedLoginScenario()
    ensures var r := UnwrapRpcResult(Obj([("result", Bool(false))]));
      r == Ok(Bool(false)) && !Truthy(r.result)
  {
  }

  /** `read(["name"])` sends the ids, ["name"] and the "en_US" context. */
  lemma ReadNameScenario(s: Session, draw: real)
    requires 0.0 <= draw < 1.0 && s.lang == "en_US"
    ensures SendsExecuteKw(Read(s, Arr([Str("name")]), draw), s, s.model, "read",
      [IdsJson(s.ids), Arr([Str("name")])], [("context", Obj([("lang", Str("en_US"))]))])
  {
  }

  /** `read()` with no fields sends an empty field list. */
  lemma ReadAllFields(s: Session, draw: real)
    requires 0.0 <= draw < 1.0
    ensures SendsExecuteKw(Read(s, Null, draw), s, s.model, "read",
      [IdsJson(s.ids), Arr([])], [("context", Context(s))])
  {
  }
}

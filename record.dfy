/**
 * The pure core of the Odoo JSON-RPC client script: the request envelope,
 * the response unwrapper with its error defaults, the string form of an RPC
 * error, and the argument lists of the record operations `read` and `write`.
 * HTTP, JSON text and the command line stay outside; the response arrives
 * as a parsed `Json` value and the random draw as a parameter.
 */
module Record {
  import opened Json

  /** Message used when the server's error carries no truthy message. */
  const DefaultMessage: string := "Odoo Server Error"

  /** `random.random() * 1e9` is floored into an id below this bound. */
  const IdBound: int := 1000000000

  /** The exception raised for a truthy `error` member. Both fields keep
      whatever value the `or`-defaults left, which need not be a string. */
  datatype RpcError = RpcError(message: Json, traceback: Json)

  /** What unwrapping a response does: return the result, raise the RPC
      error, or fail with AttributeError because `.get` was called on
      something that is not a dict. */
  datatype Outcome =
    | Ok(result: Json)
    | Err(error: RpcError)
    | AttributeError(receiver: Json)

  /** Python's `sep.join(parts)` on a sequence of strings. */
  function Join(sep: string, parts: seq<string>): (r: string)
    ensures parts == [] ==> r == ""
    ensures |parts| == 1 ==> r == parts[0]
    ensures parts != [] ==> |parts[0]| <= |r| && r[..|parts[0]|] == parts[0]
    ensures parts != [] ==>
      var last := parts[|parts| - 1];
      |last| <= |r| && r[|r| - |last|..] == last
    decreases |parts|
  {
    if |parts| == 0 then ""
    else if |parts| == 1 then parts[0]
    else parts[0] + sep + Join(sep, parts[1..])
  }

  /** Putting one part in front of a non-empty list adds it and a
      separator in front of the joined list. */
  lemma JoinCons(sep: string, x: string, rest: seq<string>)
    requires rest != []
    ensures Join(sep, [x] + rest) == x + sep + Join(sep, rest)
  {
    assert ([x] + rest)[1..] == rest;
  }

  /** Joining two non-empty lists is joining each and putting one
      separator between them. */
  lemma {:induction false} JoinAppend(sep: string, ps: seq<string>, qs: seq<string>)
    requires ps != [] && qs != []
    ensures Join(sep, ps + qs) == Join(sep, ps) + sep + Join(sep, qs)
    decreases |ps|
  {
    var x, tail := ps[0], ps[1..];
    assert ps + qs == [x] + (tail + qs) by { assert ps == [x] + tail; }
    if tail == [] {
      assert ps == [x] && tail + qs == qs;
      assert Join(sep, ps + qs) == x + sep + Join(sep, qs) by { JoinCons(sep, x, qs); }
    } else {
      var y, z := Join(sep, tail), Join(sep, qs);
      assert Join(sep, ps + qs) == x + sep + (y + sep + z) by {
        JoinCons(sep, x, tail + qs);
        JoinAppend(sep, tail, qs);
      }
      assert Join(sep, ps) == x + sep + y by {
        assert ps == [x] + tail;
        JoinCons(sep, x, tail);
      }
      assert x + sep + (y + sep + z) == (x + sep + y) + sep + z;
    }
  }

  /** The separator stands between each pair of consecutive parts. */
  lemma JoinThree(sep: string, a: string, b: string, c: string)
    ensures Join(sep, [a, b, c]) == a + sep + b + sep + c
  {
    var parts := [a, b, c];
    assert parts[1..] == [b, c] && parts[1..][1..] == [c];
    assert Join(sep, parts[1..]) == b + sep + c;
    assert a + sep + (b + sep + c) == a + sep + b + sep + c;
  }

  /** `str(RPCException)`: the message, an empty line and the traceback
      joined by newlines. `str.join` raises TypeError (here None) when
      either field is not a string. */
  function RenderRpcError(e: RpcError): (r: Option<string>)
    ensures r.Some? <==> e.message.Str? && e.traceback.Str?
    ensures r.Some? ==> r.value == e.message.s + "\n\n" + e.traceback.s
  {
    if e.message.Str? && e.traceback.Str? then
      var parts := [e.message.s, "", e.traceback.s];
      JoinThree("\n", e.message.s, "", e.traceback.s);
      assert e.message.s + "\n" + "" + "\n" + e.traceback.s == e.message.s + "\n\n" + e.traceback.s;
      Some(Join("\n", parts))
    else None
  }

  /** `int(math.floor(draw * 1e9))` for a draw of `random.random()`. */
  function DrawnId(draw: real): (id: int)
    requires 0.0 <= draw < 1.0
    ensures 0 <= id < IdBound
  {
    (draw * 1000000000.0).Floor
  }

  /** `jsonrpc_params(params, call_id)`: the JSON-RPC 2.0 request object.
      An omitted id (`call_id is None`) is drawn at random; an explicit one,
      0 included, is kept. */
  function JsonRpcParams(params: Json, callId: Option<int>, draw: real): (r: Json)
    requires callId.None? ==> 0.0 <= draw < 1.0
    ensures r.Obj? && Keys(r.members) == ["jsonrpc", "method", "params", "id"]
    ensures Get(r, "jsonrpc") == Str("2.0")
    ensures Get(r, "method") == Str("call")
    ensures Get(r, "params") == params
    ensures callId.Some? ==> Get(r, "id") == Num(callId.value)
    ensures callId.None? ==> Get(r, "id").Num? && 0 <= Get(r, "id").n < IdBound
  {
    var id := match callId
      case Some(given) => given
      case None => DrawnId(draw);
    var members := [("jsonrpc", Str("2.0")), ("method", Str("call")), ("params", params), ("id", Num(id))];
    LookupAt(members, 0);
    LookupAt(members, 1);
    LookupAt(members, 2);
    LookupAt(members, 3);
    Obj(members)
  }

  /** `unwrap_rpc_result` from the parsed response onward. */
  function UnwrapRpcResult(response: Json): (r: Outcome)
    ensures r.Ok? <==> response.Obj? && !Truthy(Get(response, "error"))
    ensures r.Ok? ==> r.result == Get(response, "result")
    ensures r.Err? ==> Truthy(r.error.message)
    ensures r.Err? ==> r.error.traceback == Str("") || Truthy(r.error.traceback)
  {
    if !response.Obj? then AttributeError(response)
    else
      var error := Get(response, "error");
      if !Truthy(error) then Ok(Get(response, "result"))
      else if !error.Obj? then AttributeError(error)
      else
        var message := Or(Get(error, "message"), Str(DefaultMessage));
        var data := Or(Get(error, "data"), Obj([]));
        if !data.Obj? then AttributeError(data)
        else
          var traceback := Or(Get(data, "debug"), Str(""));
          Err(RpcError(message, traceback))
  }

  /** An HTTP request as `call_json_rpc` prepares it: sent to the base URL
      resolved against `reference`, with the envelope as its JSON body. */
  datatype Request = Request(baseUrl: string, reference: string, body: Json, timeout: Option<real>)

  /** The `params` member `call_json_rpc` wraps in its envelope. */
  function CallParams(service: string, methodName: string, args: seq<Json>): (p: Json)
    ensures p.Obj? && Keys(p.members) == ["service", "method", "args"]
    ensures Get(p, "service") == Str(service)
    ensures Get(p, "method") == Str(methodName)
    ensures Get(p, "args") == Arr(args)
  {
    var members := [("service", Str(service)), ("method", Str(methodName)), ("args", Arr(args))];
    LookupAt(members, 0);
    LookupAt(members, 1);
    LookupAt(members, 2);
    Obj(members)
  }

  /** `call_json_rpc(url, service, methodName, args, timeout)` up to the point
      where the request would be sent. It never passes an id, so the id is
      always drawn. */
  function CallJsonRpc(url: string, service: string, methodName: string, args: seq<Json>,
                       timeout: Option<real>, draw: real): (r: Request)
    requires 0.0 <= draw < 1.0
    ensures r.baseUrl == url && r.reference == "jsonrpc" && r.timeout == timeout
    ensures r.body.Obj? && Keys(r.body.members) == ["jsonrpc", "method", "params", "id"]
    ensures Get(r.body, "jsonrpc") == Str("2.0") && Get(r.body, "method") == Str("call")
    ensures Get(r.body, "params").Obj? && Keys(Get(r.body, "params").members) == ["service", "method", "args"]
    ensures Get(r.body, "params") == CallParams(service, methodName, args)
    ensures Get(r.body, "id").Num? && 0 <= Get(r.body, "id").n < IdBound
  {
    Request(url, "jsonrpc", JsonRpcParams(CallParams(service, methodName, args), None, draw), timeout)
  }

  /** The session the script holds after parsing its arguments and logging
      in; `uid` is whatever the login call returned. */
  datatype Session = Session(
    url: string, db: string, uid: Json, password: string,
    model: string, ids: seq<int>, lang: string, timeout: real)

  /** The context `{"lang": lang}` passed to every record operation. */
  function Context(s: Session): (c: Json)
    ensures c.Obj? && Keys(c.members) == ["lang"]
    ensures Get(c, "lang") == Str(s.lang)
  {
    var members := [("lang", Str(s.lang))];
    LookupAt(members, 0);
    Obj(members)
  }

  /** The record ids as a JSON array. */
  function IdsJson(ids: seq<int>): (j: Json)
    ensures j.Arr? && |j.items| == |ids|
    ensures forall i :: 0 <= i < |ids| ==> j.items[i] == Num(ids[i])
  {
    Arr(seq(|ids|, i requires 0 <= i < |ids| => Num(ids[i])))
  }

  /** `r` is the "object"/"execute_kw" call for `model.methodName` with
      the given positional and keyword arguments, under the session's
      database, uid and password. */
  predicate SendsExecuteKw(r: Request, s: Session, model: string, methodName: string,
                           positional: seq<Json>, keywords: seq<(string, Json)>)
  {
    && r.baseUrl == s.url && r.reference == "jsonrpc" && r.timeout == Some(s.timeout)
    && r.body.Obj?
    && Keys(r.body.members) == ["jsonrpc", "method", "params", "id"]
    && Get(r.body, "jsonrpc") == Str("2.0")
    && Get(r.body, "method") == Str("call")
    && var p := Get(r.body, "params");
      && p.Obj?
      && Keys(p.members) == ["service", "method", "args"]
      && Get(p, "service") == Str("object")
      && Get(p, "method") == Str("execute_kw")
      && Get(p, "args") == Arr([Str(s.db), s.uid, Str(s.password), Str(model), Str(methodName),
                                Arr(positional), Obj(keywords)])
  }

  /** `execute_kw(model, method, *args, **kwargs)`: the request sent to
      service "object", method "execute_kw". Its reply is then unwrapped by
      `UnwrapRpcResult`. */
  function ExecuteKw(s: Session, model: string, methodName: string, args: seq<Json>,
                     kwargs: seq<(string, Json)>, draw: real): (r: Request)
    requires 0.0 <= draw < 1.0
    ensures SendsExecuteKw(r, s, model, methodName, args, kwargs)
    ensures Get(r.body, "id").Num? && 0 <= Get(r.body, "id").n < IdBound
  {
    CallJsonRpc(s.url, "object", "execute_kw",
      [Str(s.db), s.uid, Str(s.password), Str(model), Str(methodName), Arr(args), Obj(kwargs)],
      Some(s.timeout), draw)
  }

  /** `read(fields)`: the ids and `fields or []` as positional arguments,
      the context as keyword. */
  function Read(s: Session, fields: Json, draw: real): (r: Request)
    requires 0.0 <= draw < 1.0
    ensures SendsExecuteKw(r, s, s.model, "read",
      [IdsJson(s.ids), if Truthy(fields) then fields else Arr([])],
      [("context", Obj([("lang", Str(s.lang))]))])
  {
    ExecuteKw(s, s.model, "read", [IdsJson(s.ids), Or(fields, Arr([]))],
      [("context", Context(s))], draw)
  }

  /** `write(vals)`: the ids and the values as positional arguments, the
      context as keyword. */
  function Write(s: Session, vals: Json, draw: real): (r: Request)
    requires 0.0 <= draw < 1.0
    ensures SendsExecuteKw(r, s, s.model, "write", [IdsJson(s.ids), vals],
      [("context", Obj([("lang", Str(s.lang))]))])
  {
    ExecuteKw(s, s.model, "write", [IdsJson(s.ids), vals], [("context", Context(s))], draw)
  }
}

# Odoo JSON-RPC record client, modelled in Dafny

`record.py` is a small command-line client for an Odoo server. It logs in
over JSON-RPC and defines `read` and `write` for a fixed set of records of one
model; the script itself calls neither. This project models the pure core of that client. It starts from the
parsed JSON value and stops before the HTTP transport.

- `json.dfy` (module `Json`) defines a parsed JSON value (`Null | Bool | Num | Str | Arr | Obj`).
  An object is an ordered list of members, and a repeated key is resolved to its last
  binding, as in a Python `dict` built by `json.loads`. The module also defines Python
  truthiness (`Truthy`), the `a or b` default (`Or`) and `dict.get` (`Get`, which gives
  `Null` for an absent key, as Python gives `None`).
- `record.dfy` (module `Record`) defines:
  - the request envelope (`JsonRpcParams`);
  - the random id (`DrawnId`);
  - the response unwrapper (`UnwrapRpcResult`);
  - the string form of `RPCException` (`RenderRpcError`);
  - the `params` of `call_json_rpc` (`CallParams`, `CallJsonRpc`);
  - the argument lists of `execute_kw`, `read` and `write`.
  The module globals (url, db, uid, password, model, ids, lang, timeout) are one immutable
  `Session` record.
- `record_properties.dfy` (module `RecordProperties`) holds the lemmas:
  - the envelope has exactly four keys;
  - generated ids cover exactly [0, 10^9);
  - error precedence, the message and traceback defaults, and when AttributeError happens;
  - a parser that recovers message and traceback from the string form;
  - the worked response and `read` scenarios.
- `jsonrpc.dfy` (module `JsonRpc2`) gives separate definitions of the request object
  (section 4), the response object (section 5) and the error object (section 5.1) of the
  JSON-RPC 2.0 Specification. Its lemmas show that every envelope the client sends is a
  request object. They also show how the unwrapper treats conforming success and error
  responses.

The unwrapper has three outcomes: `Ok(result)`, `Err(RpcError(message, traceback))`, and
`AttributeError(receiver)`. The third covers the case where `.get` is called on a value
that is not a dict: a non-object response, a truthy non-object `error`, or a truthy
non-object `error.data`. Python raises AttributeError there. Because of this, a
JSON-RPC 2.0 error response whose optional `data` is a non-empty string makes the client
fail with AttributeError instead of raising the RPC error (`JsonRpc2.ErrorResponseRaises`).

`RpcError` keeps its message and traceback as JSON values, since the `or` defaults pass on
any truthy value. `RenderRpcError` gives `None` when either one is not a string. That is
where `"\n".join` would raise TypeError.

The default message is "Odoo Server Error" (record.py:43, `Record.DefaultMessage`).

## Model

| member | source | states |
|---|---|---|
| `Json.Lookup` | record.py:41-47 | a key is found iff some member binds it, and the value found is the last binding of that key |
| `Json.Get` | record.py:41-47 | `dict.get`: Null when the key is absent, otherwise the value bound to it |
| `Json.Truthy` | record.py:42-45 | Python truthiness: a value is falsy iff it is null, false, 0, "", [] or {} |
| `Json.Or` | record.py:43-45 | `a or b` is `a` when `a` is truthy, else `b`; the result is truthy iff either one is |
| `Record.Join` | record.py:23 | `sep.join(parts)` is "" for no parts, the part itself for one part, and otherwise starts with the first part and ends with the last |
| `Record.JoinCons` | record.py:23 | a part put in front of a non-empty list is followed by one separator and the joined list |
| `Record.JoinAppend` | record.py:23 | joining two non-empty lists is joining each with one separator between them |
| `Record.JoinThree` | record.py:23 | joining three parts puts the separator between each consecutive pair: a + sep + b + sep + c |
| `Record.RenderRpcError` | record.py:22-23 | the string form is defined iff message and traceback are strings, and is then exactly message + "\n\n" + traceback |
| `Record.DrawnId` | record.py:29-30 | an id drawn from `random.random()` lies in [0, 10^9) |
| `Record.JsonRpcParams` | record.py:26-36 | the envelope's keys are jsonrpc, method, params, id in that order; "2.0", "call" and the params are kept; an explicit id is kept and an omitted one is drawn in [0, 10^9) |
| `Record.UnwrapRpcResult` | record.py:39-47 | it succeeds iff the response is an object with a falsy error, and then returns its result; a raised error always has a truthy message and a traceback that is "" or truthy |
| `Record.CallParams` | record.py:58-64 | the params object has exactly the keys service, method, args and holds the caller's values unchanged |
| `Record.CallJsonRpc` | record.py:50-74 | the request goes to the given URL with reference "jsonrpc" and keeps the timeout; its body has exactly the keys jsonrpc, method, params, id with "2.0" and "call"; params has exactly the keys service, method, args holding the caller's values; the id is drawn in [0, 10^9) |
| `Record.Context` | record.py:125-127 | the context is the object with the single key "lang", bound to the session's language |
| `Record.IdsJson` | record.py:150 | the record ids are sent as a JSON array of the same length, holding the same numbers in order |
| `Record.ExecuteKw` | record.py:137-146 | it sends service "object", method "execute_kw", args [db, uid, password, model, method, positional args, keyword args] |
| `Record.Read` | record.py:149-150 | `read(fields)` sends method "read" with positional [ids, fields or []] and keywords {"context": {"lang": lang}} |
| `Record.Write` | record.py:153-154 | `write(vals)` sends method "write" with positional [ids, vals] and keywords {"context": {"lang": lang}} |
| `RecordProperties.EnvelopeKeysExactly` | record.py:31-36 | the envelope binds a key iff it is one of jsonrpc, method, params, id |
| `RecordProperties.ExplicitIdIgnoresDraw` | record.py:26-36 | with an explicit id, the envelope does not depend on the random draw and carries that id |
| `RecordProperties.ZeroIdIsKept` | record.py:29 | an explicit id of 0 is kept, because the test is `is None` and not truthiness |
| `RecordProperties.DrawnIdCoversRange` | record.py:30 | every integer in [0, 10^9) is drawn by some value in [0, 1) |
| `RecordProperties.UnwrapWithoutError` | record.py:41-47 | with a falsy or absent error, the result member is returned, Null when absent, and no error is raised |
| `RecordProperties.UnwrapWithError` | record.py:42-46 | with a truthy error object, it raises with message = error.message if truthy else "Odoo Server Error", and traceback = data.debug if data and debug are truthy else "" |
| `RecordProperties.EmptyMessageFallsBack` | record.py:43 | an empty-string message is replaced by the default message |
| `RecordProperties.UnwrapAttributeErrorExactly` | record.py:40-45 | AttributeError happens iff `.get` meets a non-dict: a non-object response, a truthy non-object error, or a truthy non-object data |
| `RecordProperties.FirstNewline` | record.py:23 | helper of the inverse: the index of the first newline, with no newline before it |
| `RecordProperties.ParseRendered` | record.py:23 | inverse of the string form: whatever it accepts is first line + "\n\n" + rest |
| `RecordProperties.RenderedErrorRoundTrip` | record.py:22-23 | for a single-line message, parsing the string form gives back the message and the traceback |
| `RecordProperties.ResultScenario` | record.py:47 | `{"result": 42}` unwraps to 42 |
| `RecordProperties.AccessDeniedScenario` | record.py:42-46 | `{"error": {"message": "Access Denied"}}` raises with that message and traceback "" |
| `RecordProperties.TracebackScenario` | record.py:22-46 | an error with message "Boom" and debug "line1\nline2" renders as "Boom\n\nline1\nline2" |
| `RecordProperties.FailedLoginScenario` | record.py:129-133 | a login reply `{"result": false}` unwraps to a falsy uid without an error |
| `RecordProperties.ReadNameScenario` | record.py:149-150 | `read(["name"])` with lang en_US sends [ids, ["name"]] and context {"lang": "en_US"} |
| `RecordProperties.ReadAllFields` | record.py:149-150 | `read()` without fields sends an empty field list |
| `JsonRpc2.EnvelopeIsRequest` | record.py:26-36 | with structured params, the envelope is a JSON-RPC 2.0 request object that carries an id |
| `JsonRpc2.CallIsRequest` | record.py:58-64 | every body `call_json_rpc` sends is a JSON-RPC 2.0 request object |
| `JsonRpc2.SuccessResponseUnwraps` | record.py:41-47 | a conforming success response unwraps to its result |
| `JsonRpc2.ErrorResponseRaises` | record.py:41-46 | a conforming error response never unwraps to a result; it fails with AttributeError iff its data is a truthy non-object, and otherwise raises with the server's message, or the default when that message is "" |

## Left out

- HTTP transport (record.py:66-74): the `Request` object, `urlopen`, the timeout's effect, and the Content-Type and User-Agent headers. This is I/O. `CallJsonRpc` returns the request as data, and the reply reaches `UnwrapRpcResult` as a parameter.
- URL resolution by `urllib.parse.urljoin` (record.py:67). This is a library call, so `Request` keeps the base URL and the reference "jsonrpc" apart.
- JSON text and bytes: `json.loads`, `json.dumps` and the UTF-8 encoding (record.py:40, 68). The model starts from the parsed value, so `response.read()` and the `encoding` parameter are not modelled.
- JSON numbers other than integers. `Num` holds an int, so a float result or id is not represented.
- DrawnId: the float arithmetic of `random.random() * 1e9` is computed as exact real arithmetic. The draw is a parameter in [0, 1), and rounding of the product is not modelled.
- The command line, password prompt and import-time login (record.py:77-134): argparse, getpass, the `common`/`login` call and the "Invalid login/password" print. This is CLI glue. `Session` holds the result of that parse and login as plain values.
- Exceptions other than the RPC error and AttributeError are only partly modelled. The TypeError from rendering a non-string field is `None`, and transport errors are not modelled.

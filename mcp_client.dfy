/** The client of the Rohlik MCP grocery server: JSON-RPC 2.0 request bodies,
    the Server-Sent-Events reply framing, the normalisation of a reply into a
    result or an `{"error": ...}` object, and the client object itself, whose
    HTTP session is opened lazily and whose POSTs are recorded in order. */
module McpClient {
  import opened Base
  import opened PyText
  import opened Json

  /** One backend operation of the client, with the arguments it is called with. */
  datatype Operation =
    | Search(keyword: Json)
    | Add(productId: int, quantity: int)
    | ViewCart
    | Remove(productId: int)
    | Update(productId: int, quantity: int)
    | Clear
    | UserInfo

  /** The server-side tool each operation calls. */
  function ToolName(op: Operation): string {
    match op
    case Search(_) => "search_products"
    case Add(_, _) => "add_items_to_cart"
    case ViewCart => "get_cart"
    case Remove(_) => "remove_cart_item"
    case Update(_, _) => "update_cart_item"
    case Clear => "clear_cart"
    case UserInfo => "get_user_info"
  }

  /** The `arguments` object each operation sends. */
  function ToolArguments(op: Operation): Json {
    match op
    case Search(keyword) => JObj(map["keyword" := keyword])
    case Add(p, q) => JObj(map["items" := JArr([JObj(map["productId" := JNum(p), "quantity" := JNum(q)])])])
    case ViewCart => EmptyObject
    case Remove(p) => JObj(map["product_id" := JNum(p)])
    case Update(p, q) => JObj(map["product_id" := JNum(p), "quantity" := JNum(q)])
    case Clear => EmptyObject
    case UserInfo => EmptyObject
  }

  /** The JSON-RPC 2.0 body of a `tools/call` request. */
  function ToolCallRequest(name: string, arguments: Json): Json {
    JObj(map[
      "jsonrpc" := JStr("2.0"),
      "id" := JNum(1),
      "method" := JStr("tools/call"),
      "params" := JObj(map["name" := JStr(name), "arguments" := arguments])])
  }

  function Request(op: Operation): Json {
    ToolCallRequest(ToolName(op), ToolArguments(op))
  }

  /** The body of a `tools/list` request: no `params` at all. */
  const ListToolsRequest: Json :=
    JObj(map["jsonrpc" := JStr("2.0"), "id" := JNum(1), "method" := JStr("tools/list")])

  function IntField(fields: map<string, Json>, key: string): Option<int> {
    if key in fields && fields[key].JNum? then Some(fields[key].n) else None
  }

  /** Reads back, from a request body, the operation it asks the server for. */
  function OperationOf(request: Json): Option<Operation> {
    if !request.JObj? || "params" !in request.fields then None
    else
      var params := request.fields["params"];
      if !params.JObj? || "name" !in params.fields || "arguments" !in params.fields then None
      else if !params.fields["arguments"].JObj? then None
      else
        var name := params.fields["name"];
        var a := params.fields["arguments"].fields;
        if name == JStr("search_products") then
          if "keyword" in a then Some(Search(a["keyword"])) else None
        else if name == JStr("add_items_to_cart") then
          if "items" in a && a["items"].JArr? && |a["items"].items| == 1 && a["items"].items[0].JObj? then
            var item := a["items"].items[0].fields;
            match (IntField(item, "productId"), IntField(item, "quantity"))
            case (Some(p), Some(q)) => Some(Add(p, q))
            case _ => None
          else None
        else if name == JStr("get_cart") then Some(ViewCart)
        else if name == JStr("remove_cart_item") then
          match IntField(a, "product_id")
          case Some(p) => Some(Remove(p))
          case None => None
        else if name == JStr("update_cart_item") then
          match (IntField(a, "product_id"), IntField(a, "quantity"))
          case (Some(p), Some(q)) => Some(Update(p, q))
          case _ => None
        else if name == JStr("clear_cart") then Some(Clear)
        else if name == JStr("get_user_info") then Some(UserInfo)
        else None
  }

  /** Every request body names its operation unambiguously: the operation can
      be read back from the body. */
  lemma RequestRoundTrip(op: Operation)
    ensures OperationOf(Request(op)) == Some(op)
  {
    match op
    case Search(_) =>
    case Add(_, _) =>
    case ViewCart =>
    case Remove(_) =>
    case Update(_, _) =>
    case Clear =>
    case UserInfo =>
  }

  /** Two different operations never send the same body. */
  lemma RequestInjective(a: Operation, b: Operation)
    requires Request(a) == Request(b)
    ensures a == b
  {
    RequestRoundTrip(a);
    RequestRoundTrip(b);
  }

  /** Every operation is a `tools/call` with JSON-RPC version "2.0" and id 1;
      adding to the cart sends a batch of exactly one item. */
  lemma RequestEnvelope(op: Operation)
    ensures var body := Request(op).fields;
      && body["jsonrpc"] == JStr("2.0") && body["id"] == JNum(1)
      && body["method"] == JStr("tools/call")
      && body["params"] == JObj(map["name" := JStr(ToolName(op)), "arguments" := ToolArguments(op)])
    ensures op.Add? ==>
      ToolArguments(op).fields["items"] == JArr([JObj(map["productId" := JNum(op.productId), "quantity" := JNum(op.quantity)])])
  {
  }

  /* ---------------------------------------------------------------------- */
  /* Server-Sent-Events framing                                              */

  const DataPrefix := "data: "

  predicate IsDataLine(line: string) {
    StartsWith(line, DataPrefix)
  }

  /** What one line contributes: the decoding of the text after "data: ", or
      nothing when the line is not a data line or its payload does not decode. */
  function LineValue(line: string, loads: string -> Outcome<Json>): Option<Json> {
    if IsDataLine(line) then
      match loads(line[|DataPrefix|..])
      case Returned(v) => Some(v)
      case Raised(_) => None
    else None
  }

  /** The payload of a data line is everything after its first six characters. */
  lemma DataLinePayload(payload: string, loads: string -> Outcome<Json>)
    ensures LineValue(DataPrefix + payload, loads)
      == (match loads(payload) case Returned(v) => Some(v) case Raised(_) => None)
  {
    assert (DataPrefix + payload)[|DataPrefix|..] == payload;
  }

  /** The value of the last line that contributes one. */
  function LastDecoded(lines: seq<string>, loads: string -> Outcome<Json>): Option<Json>
    decreases |lines|
  {
    if lines == [] then None
    else
      match LineValue(lines[|lines| - 1], loads)
      case Some(v) => Some(v)
      case None => LastDecoded(lines[..|lines| - 1], loads)
  }

  /** `text.strip().split("\n")`. */
  function SseLines(text: string): seq<string> {
    Split(Strip(text), '\n')
  }

  /** What `_parse_sse_response` returns: the last decodable data line's
      value, or `{}` when there is none. */
  function SseValue(text: string, loads: string -> Outcome<Json>): Json {
    match LastDecoded(SseLines(text), loads)
    case Some(v) => v
    case None => EmptyObject
  }

  lemma {:induction false} NoDataLineNoValue(lines: seq<string>, loads: string -> Outcome<Json>)
    requires forall i :: 0 <= i < |lines| ==> !IsDataLine(lines[i])
    ensures LastDecoded(lines, loads) == None
    decreases |lines|
  {
    if lines != [] {
      NoDataLineNoValue(lines[..|lines| - 1], loads);
    }
  }

  /** Without any data line the result is the empty object. */
  lemma SseWithoutDataLines(text: string, loads: string -> Outcome<Json>)
    requires forall i :: 0 <= i < |SseLines(text)| ==> !IsDataLine(SseLines(text)[i])
    ensures SseValue(text, loads) == EmptyObject
  {
    NoDataLineNoValue(SseLines(text), loads);
  }

  lemma {:induction false} LastDecodableLineWins(lines: seq<string>, loads: string -> Outcome<Json>, k: nat, v: Json)
    requires k < |lines| && LineValue(lines[k], loads) == Some(v)
    requires forall j :: k < j < |lines| ==> LineValue(lines[j], loads) == None
    ensures LastDecoded(lines, loads) == Some(v)
    decreases |lines|
  {
    if k < |lines| - 1 {
      LastDecodableLineWins(lines[..|lines| - 1], loads, k, v);
    }
  }

  lemma {:induction false} DecodedValueHasALine(lines: seq<string>, loads: string -> Outcome<Json>)
    requires LastDecoded(lines, loads).Some?
    ensures exists k ::
              && 0 <= k < |lines| && LineValue(lines[k], loads) == LastDecoded(lines, loads)
              && forall j :: k < j < |lines| ==> LineValue(lines[j], loads) == None
    decreases |lines|
  {
    var last := |lines| - 1;
    if LineValue(lines[last], loads).None? {
      var prefix := lines[..last];
      DecodedValueHasALine(prefix, loads);
      var k :| 0 <= k < |prefix| && LineValue(prefix[k], loads) == LastDecoded(prefix, loads)
        && forall j :: k < j < |prefix| ==> LineValue(prefix[j], loads) == None;
      assert lines[k] == prefix[k];
      assert forall j :: k < j < |lines| ==> LineValue(lines[j], loads) == None by {
        forall j | k < j < |lines| ensures LineValue(lines[j], loads) == None {
          if j < last { assert lines[j] == prefix[j]; }
        }
      }
    }
  }

  /** The parsed reply is `v` exactly when some data line decodes to `v` and
      every later line is undecodable or not a data line (or when there is no
      decodable data line at all and `v` is `{}`). */
  lemma SseLastDecodableDataLine(text: string, loads: string -> Outcome<Json>, v: Json)
    ensures SseValue(text, loads) == v <==>
      (exists k :: 0 <= k < |SseLines(text)| && LineValue(SseLines(text)[k], loads) == Some(v)
         && forall j :: k < j < |SseLines(text)| ==> LineValue(SseLines(text)[j], loads) == None)
      || (LastDecoded(SseLines(text), loads) == None && v == EmptyObject)
  {
    var lines := SseLines(text);
    if LastDecoded(lines, loads).Some? {
      DecodedValueHasALine(lines, loads);
    }
    if exists k :: 0 <= k < |lines| && LineValue(lines[k], loads) == Some(v)
         && forall j :: k < j < |lines| ==> LineValue(lines[j], loads) == None {
      var k :| 0 <= k < |lines| && LineValue(lines[k], loads) == Some(v)
         && forall j :: k < j < |lines| ==> LineValue(lines[j], loads) == None;
      LastDecodableLineWins(lines, loads, k, v);
    }
  }

  /** `_parse_sse_response`: walk the lines, keeping the latest decoded payload. */
  method ParseSse(text: string, loads: string -> Outcome<Json>) returns (result: Json)
    ensures result == SseValue(text, loads)
  {
    result := EmptyObject;
    var lines := SseLines(text);
    for i := 0 to |lines|
      invariant result == match LastDecoded(lines[..i], loads) case Some(v) => v case None => EmptyObject
    {
      var line := lines[i];
      assert lines[..i + 1][..i] == lines[..i];
      if StartsWith(line, DataPrefix) {
        var decoded := loads(line[|DataPrefix|..]);
        if decoded.Returned? {
          result := decoded.value;
        }
      }
    }
    assert lines[..|lines|] == lines;
  }

  /* ---------------------------------------------------------------------- */
  /* Reply normalisation                                                     */

  datatype FailureKind = TimedOut | ClientError | OtherError

  /** What one POST brings back: an HTTP status and body, or an exception of
      one of three kinds with its `str(err)` text. */
  datatype Reply = Http(status: int, body: string) | Failure(kind: FailureKind, message: string)

  /** Lines 86-90 of `_call_tool` applied to the parsed envelope. Only a dict
      gets through: any other decoded value makes `in`, indexing or `.get`
      raise. */
  function Unwrap(envelope: Json): Outcome<Json> {
    match PyIn("error", envelope)
    case None => Raised(NotIterable(envelope))
    case Some(true) =>
      if envelope.JObj? then Returned(ErrorObject(envelope.fields["error"]))
      else if envelope.JArr? then Raised("list indices must be integers or slices, not str")
      else Raised("string indices must be integers, not 'str'")
    case Some(false) => Get(envelope, "result", EmptyObject)
  }

  /** What `_call_tool` returns (or raises) for a reply. */
  function ToolOutcome(reply: Reply, loads: string -> Outcome<Json>): Outcome<Json> {
    match reply
    case Http(status, body) =>
      if status != 200 then Returned(ErrorText("HTTP " + IntToString(status) + ": " + body))
      else Unwrap(SseValue(body, loads))
    case Failure(TimedOut, _) => Returned(ErrorText("Request timed out"))
    case Failure(ClientError, message) => Returned(ErrorText(message))
    case Failure(OtherError, message) => Raised(message)
  }

  /** What `list_tools` returns: the whole parsed envelope, never raising. */
  function ListOutcome(reply: Reply, loads: string -> Outcome<Json>): Json {
    match reply
    case Http(status, body) =>
      if status != 200 then ErrorText("HTTP " + IntToString(status)) else SseValue(body, loads)
    case Failure(_, message) => ErrorText(message)
  }

  /** What `test_connection` returns: `"error" not in result`, false when that
      test itself raises. */
  predicate ConnectionOk(reply: Reply, loads: string -> Outcome<Json>) {
    PyIn("error", ListOutcome(reply, loads)) == Some(false)
  }

  /** A non-200 status is reported as "HTTP <status>: <body>", and the body is
      never parsed: the outcome is the same whatever the JSON decoder does. */
  lemma NonOkStatusIsNotParsed(status: int, body: string, loads: string -> Outcome<Json>, other: string -> Outcome<Json>)
    requires status != 200
    ensures ToolOutcome(Http(status, body), loads) == Returned(ErrorText("HTTP " + IntToString(status) + ": " + body))
    ensures ToolOutcome(Http(status, body), loads) == ToolOutcome(Http(status, body), other)
  {
  }

  /** A 200 reply whose envelope is a dict: an `error` key is forwarded as
      `{"error": <it>}`, otherwise `result` is unwrapped, defaulting to `{}`. */
  lemma OkEnvelopeIsUnwrapped(body: string, loads: string -> Outcome<Json>)
    requires SseValue(body, loads).JObj?
    ensures var fields := SseValue(body, loads).fields;
      ToolOutcome(Http(200, body), loads) ==
        if "error" in fields then Returned(ErrorObject(fields["error"]))
        else Returned(if "result" in fields then fields["result"] else EmptyObject)
  {
  }

  /** A 200 reply whose envelope is not a dict makes `_call_tool` raise. */
  lemma NonObjectEnvelopeRaises(body: string, loads: string -> Outcome<Json>)
    requires !SseValue(body, loads).JObj?
    ensures ToolOutcome(Http(200, body), loads).Raised?
  {
  }

  /** A timeout and a client error become error objects; any other exception
      escapes `_call_tool`. */
  lemma TransportFailures(message: string, loads: string -> Outcome<Json>)
    ensures ToolOutcome(Failure(TimedOut, message), loads) == Returned(ErrorText("Request timed out"))
    ensures ToolOutcome(Failure(ClientError, message), loads) == Returned(ErrorText(message))
    ensures ToolOutcome(Failure(OtherError, message), loads) == Raised(message)
  {
  }

  /** `list_tools` reports a non-200 status without its body, returns a 200
      envelope whole (an `error` or `result` key is not unwrapped), and turns
      every exception into an error object. */
  lemma ListToolsOutcomes(reply: Reply, loads: string -> Outcome<Json>)
    ensures reply.Http? && reply.status != 200 ==> ListOutcome(reply, loads) == ErrorText("HTTP " + IntToString(reply.status))
    ensures reply.Http? && reply.status == 200 ==> ListOutcome(reply, loads) == SseValue(reply.body, loads)
    ensures reply.Failure? ==> ListOutcome(reply, loads) == ErrorText(reply.message)
  {
  }

  /** The connection test passes exactly for a 200 reply whose parsed envelope
      is a container without an "error" entry; it fails on every non-200
      status and every exception. */
  lemma ConnectionTestMeaning(reply: Reply, loads: string -> Outcome<Json>)
    ensures ConnectionOk(reply, loads) <==>
      reply.Http? && reply.status == 200 && PyIn("error", SseValue(reply.body, loads)) == Some(false)
  {
  }

  /** A dict envelope passes the connection test exactly when it has no
      `error` key. */
  lemma ConnectionTestOnDict(body: string, loads: string -> Outcome<Json>)
    requires SseValue(body, loads).JObj?
    ensures ConnectionOk(Http(200, body), loads) <==> "error" !in SseValue(body, loads).fields
  {
  }

  /** The backend's answer to operation `op` sent as the `n`-th POST. */
  function Answer(server: (nat, Json) -> Reply, loads: string -> Outcome<Json>, n: nat, op: Operation): Outcome<Json> {
    ToolOutcome(server(n, Request(op)), loads)
  }

  /* ---------------------------------------------------------------------- */
  /* The client object                                                       */

  /** `RohlikMCPClient`. The network is `server`: the reply to the `n`-th POST
      with a given body. `posted` records every body POSTed, in order. */
  class Client {
    const email: string
    const password: string
    const server: (nat, Json) -> Reply
    const loads: string -> Outcome<Json>
    var sessionOpen: bool
    var posted: seq<Json>

    constructor (email: string, password: string, server: (nat, Json) -> Reply, loads: string -> Outcome<Json>)
      ensures this.email == email && this.password == password
      ensures this.server == server && this.loads == loads
      ensures !sessionOpen && posted == []
    {
      this.email := email;
      this.password := password;
      this.server := server;
      this.loads := loads;
      sessionOpen := false;
      posted := [];
    }

    /** The `rhl-email` and `rhl-pass` headers every POST carries. */
    function CredentialHeaders(): map<string, string> {
      map["rhl-email" := email, "rhl-pass" := password]
    }

    /** `_ensure_session`: open a session unless one is open. */
    method EnsureSession()
      modifies this`sessionOpen
      ensures sessionOpen
    {
      if !sessionOpen {
        sessionOpen := true;
      }
    }

    /** `close`: release the session if one is open. */
    method Close()
      modifies this`sessionOpen
      ensures !sessionOpen
    {
      if sessionOpen {
        sessionOpen := false;
      }
    }

    /** One POST over the open session. */
    method Post(payload: Json) returns (reply: Reply)
      requires sessionOpen
      modifies this`posted
      ensures posted == old(posted) + [payload]
      ensures reply == server(|old(posted)|, payload)
    {
      reply := server(|posted|, payload);
      posted := posted + [payload];
    }

    /** `_call_tool`. */
    method CallTool(name: string, arguments: Json) returns (r: Outcome<Json>)
      modifies this
      ensures sessionOpen
      ensures posted == old(posted) + [ToolCallRequest(name, arguments)]
      ensures r == ToolOutcome(server(|old(posted)|, ToolCallRequest(name, arguments)), loads)
    {
      EnsureSession();
      var reply := Post(ToolCallRequest(name, arguments));
      match reply {
        case Http(status, body) =>
          if status != 200 {
            r := Returned(ErrorText("HTTP " + IntToString(status) + ": " + body));
          } else {
            var envelope := ParseSse(body, loads);
            r := Unwrap(envelope);
          }
        case Failure(kind, message) =>
          match kind {
            case TimedOut => r := Returned(ErrorText("Request timed out"));
            case ClientError => r := Returned(ErrorText(message));
            case OtherError => r := Raised(message);
          }
      }
    }

    /** `list_tools`. */
    method ListTools() returns (r: Json)
      modifies this
      ensures sessionOpen
      ensures posted == old(posted) + [ListToolsRequest]
      ensures r == ListOutcome(server(|old(posted)|, ListToolsRequest), loads)
    {
      EnsureSession();
      var reply := Post(ListToolsRequest);
      match reply {
        case Http(status, body) =>
          if status != 200 {
            r := ErrorText("HTTP " + IntToString(status));
          } else {
            r := ParseSse(body, loads);
          }
        case Failure(_, message) =>
          r := ErrorText(message);
      }
    }

    /** `test_connection`. */
    method TestConnection() returns (ok: bool)
      modifies this
      ensures sessionOpen
      ensures posted == old(posted) + [ListToolsRequest]
      ensures ok == ConnectionOk(server(|old(posted)|, ListToolsRequest), loads)
    {
      var result := ListTools();
      match PyIn("error", result) {
        case Some(present) => ok := !present;
        case None => ok := false;
      }
    }

    method SearchProducts(keyword: Json) returns (r: Outcome<Json>)
      modifies this
      ensures sessionOpen
      ensures posted == old(posted) + [Request(Search(keyword))]
      ensures r == Answer(server, loads, |old(posted)|, Search(keyword))
    {
      r := CallTool("search_products", JObj(map["keyword" := keyword]));
    }

    method AddToCart(productId: int, quantity: int := 1) returns (r: Outcome<Json>)
      modifies this
      ensures sessionOpen
      ensures posted == old(posted) + [Request(Add(productId, quantity))]
      ensures r == Answer(server, loads, |old(posted)|, Add(productId, quantity))
    {
      r := CallTool("add_items_to_cart",
        JObj(map["items" := JArr([JObj(map["productId" := JNum(productId), "quantity" := JNum(quantity)])])]));
    }

    method GetCart() returns (r: Outcome<Json>)
      modifies this
      ensures sessionOpen
      ensures posted == old(posted) + [Request(ViewCart)]
      ensures r == Answer(server, loads, |old(posted)|, ViewCart)
    {
      r := CallTool("get_cart", EmptyObject);
    }

    method RemoveFromCart(productId: int) returns (r: Outcome<Json>)
      modifies this
      ensures sessionOpen
      ensures posted == old(posted) + [Request(Remove(productId))]
      ensures r == Answer(server, loads, |old(posted)|, Remove(productId))
    {
      r := CallTool("remove_cart_item", JObj(map["product_id" := JNum(productId)]));
    }

    method UpdateCartItem(productId: int, quantity: int) returns (r: Outcome<Json>)
      modifies this
      ensures sessionOpen
      ensures posted == old(posted) + [Request(Update(productId, quantity))]
      ensures r == Answer(server, loads, |old(posted)|, Update(productId, quantity))
    {
      r := CallTool("update_cart_item", JObj(map["product_id" := JNum(productId), "quantity" := JNum(quantity)]));
    }

    method ClearCart() returns (r: Outcome<Json>)
      modifies this
      ensures sessionOpen
      ensures posted == old(posted) + [Request(Clear)]
      ensures r == Answer(server, loads, |old(posted)|, Clear)
    {
      r := CallTool("clear_cart", EmptyObject);
    }

    method GetUserInfo() returns (r: Outcome<Json>)
      modifies this
      ensures sessionOpen
      ensures posted == old(posted) + [Request(UserInfo)]
      ensures r == Answer(server, loads, |old(posted)|, UserInfo)
    {
      r := CallTool("get_user_info", EmptyObject);
    }

    /** Call the client method that performs `op`. */
    method Perform(op: Operation) returns (r: Outcome<Json>)
      modifies this
      ensures sessionOpen
      ensures posted == old(posted) + [Request(op)]
      ensures r == Answer(server, loads, |old(posted)|, op)
    {
      match op {
        case Search(keyword) => r := SearchProducts(keyword);
        case Add(p, q) => r := AddToCart(p, q);
        case ViewCart => r := GetCart();
        case Remove(p) => r := RemoveFromCart(p);
        case Update(p, q) => r := UpdateCartItem(p, q);
        case Clear => r := ClearCart();
        case UserInfo => r := GetUserInfo();
      }
    }
  }
}

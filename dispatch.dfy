/** The name-to-operation table that both the chat agent (`_execute_function`)
    and the realtime relay (`on_function_call`) use to run a tool call the
    language model asked for, and the two wrappers around it, which differ in
    how they report an unknown name and a failing call. */
module Dispatch {
  import opened Base
  import opened PyText
  import opened Json
  import opened McpClient
  import Tools

  /** Where a tool call goes: a client operation, nowhere (unknown name), or
      an exception raised while reading its arguments. */
  datatype Routing = Call(op: Operation) | Unknown | BadArguments(message: string)

  /** `int(arguments.get(key, default))`. */
  function IntArgument(args: Json, key: string, default: int): Outcome<int> {
    match Get(args, key, JNum(default))
    case Returned(v) => ToInt(v)
    case Raised(m) => Raised(m)
  }

  /** The `if name == ...` chain, with the argument defaults it applies. */
  function Route(name: Json, args: Json): Routing {
    if name == JStr("search_products") then
      match Get(args, "keyword", JStr(""))
      case Returned(k) => Call(Search(k))
      case Raised(m) => BadArguments(m)
    else if name == JStr("add_to_cart") then
      match IntArgument(args, "product_id", 0)
      case Raised(m) => BadArguments(m)
      case Returned(p) =>
        match IntArgument(args, "quantity", 1)
        case Raised(m) => BadArguments(m)
        case Returned(q) => Call(Add(p, q))
    else if name == JStr("get_cart") then Call(ViewCart)
    else if name == JStr("remove_from_cart") then
      match IntArgument(args, "product_id", 0)
      case Raised(m) => BadArguments(m)
      case Returned(p) => Call(Remove(p))
    else if name == JStr("update_cart_item") then
      match IntArgument(args, "product_id", 0)
      case Raised(m) => BadArguments(m)
      case Returned(p) =>
        match IntArgument(args, "quantity", 0)
        case Raised(m) => BadArguments(m)
        case Returned(q) => Call(Update(p, q))
    else if name == JStr("clear_cart") then Call(Clear)
    else Unknown
  }

  const RoutedNames: set<string> :=
    {"search_products", "add_to_cart", "get_cart", "remove_from_cart", "update_cart_item", "clear_cart"}

  /** A name is unknown exactly when it is not one of the six routed strings;
      in particular `get_user_info` cannot be reached by a tool call. */
  lemma UnknownNames(name: Json, args: Json)
    ensures Route(name, args).Unknown? <==> !(name.JStr? && name.s in RoutedNames)
    ensures !(Route(name, args).Call? && Route(name, args).op.UserInfo?)
  {
  }

  /** Missing arguments take the defaults of the table: an empty keyword,
      product 0, and quantity 1 when adding but 0 when updating. */
  lemma DefaultArguments()
    ensures Route(JStr("search_products"), EmptyObject) == Call(Search(JStr("")))
    ensures Route(JStr("add_to_cart"), EmptyObject) == Call(Add(0, 1))
    ensures Route(JStr("remove_from_cart"), EmptyObject) == Call(Remove(0))
    ensures Route(JStr("update_cart_item"), EmptyObject) == Call(Update(0, 0))
  {
  }

  /** Arguments that are not a dict fail every name that reads them, while
      `get_cart` and `clear_cart` ignore them. */
  lemma NonDictArguments(args: Json)
    requires !args.JObj?
    ensures forall name :: name in {"search_products", "add_to_cart", "remove_from_cart", "update_cart_item"} ==>
      Route(JStr(name), args) == BadArguments(NoAttribute(args, "get"))
    ensures Route(JStr("get_cart"), args) == Call(ViewCart)
    ensures Route(JStr("clear_cart"), args) == Call(Clear)
  {
  }

  /** The tool call the catalog describes for an operation: its name, and
      its arguments with a product id as decimal text (the catalog declares
      `product_id` a string) and a quantity as a number. */
  function CatalogCall(op: Operation): (string, Json)
    requires !op.UserInfo?
  {
    match op
    case Search(k) => ("search_products", JObj(map["keyword" := k]))
    case Add(p, q) => ("add_to_cart", JObj(map["product_id" := JStr(IntToString(p)), "quantity" := JNum(q)]))
    case ViewCart => ("get_cart", EmptyObject)
    case Remove(p) => ("remove_from_cart", JObj(map["product_id" := JStr(IntToString(p))]))
    case Update(p, q) => ("update_cart_item", JObj(map["product_id" := JStr(IntToString(p)), "quantity" := JNum(q)]))
    case Clear => ("clear_cart", EmptyObject)
  }

  /** Every operation but `get_user_info` is reached by the call that names it,
      a product id given as text being converted back to the same integer. */
  lemma RouteRecoversOperation(op: Operation)
    requires !op.UserInfo?
    ensures Route(JStr(CatalogCall(op).0), CatalogCall(op).1) == Call(op)
  {
    match op
    case Add(p, q) => AddRecovered(p, q);
    case Remove(p) => RemoveRecovered(p);
    case Update(p, q) => UpdateRecovered(p, q);
    case _ =>
  }

  /** The integer arguments decide the operation that the three
      product-id names reach. */
  lemma RouteIntArguments(args: Json, p: int, q: int)
    ensures IntArgument(args, "product_id", 0) == Returned(p) && IntArgument(args, "quantity", 1) == Returned(q)
      ==> Route(JStr("add_to_cart"), args) == Call(Add(p, q))
    ensures IntArgument(args, "product_id", 0) == Returned(p)
      ==> Route(JStr("remove_from_cart"), args) == Call(Remove(p))
    ensures IntArgument(args, "product_id", 0) == Returned(p) && IntArgument(args, "quantity", 0) == Returned(q)
      ==> Route(JStr("update_cart_item"), args) == Call(Update(p, q))
  {
  }

  lemma AddRecovered(p: int, q: int)
    ensures Route(JStr("add_to_cart"), JObj(map["product_id" := JStr(IntToString(p)), "quantity" := JNum(q)])) == Call(Add(p, q))
  {
    var args := JObj(map["product_id" := JStr(IntToString(p)), "quantity" := JNum(q)]);
    ToIntAcceptsDecimal(p);
    assert IntArgument(args, "product_id", 0) == Returned(p);
    assert IntArgument(args, "quantity", 1) == Returned(q);
    RouteIntArguments(args, p, q);
  }

  lemma RemoveRecovered(p: int)
    ensures Route(JStr("remove_from_cart"), JObj(map["product_id" := JStr(IntToString(p))])) == Call(Remove(p))
  {
    var args := JObj(map["product_id" := JStr(IntToString(p))]);
    ToIntAcceptsDecimal(p);
    assert IntArgument(args, "product_id", 0) == Returned(p);
    RouteIntArguments(args, p, 0);
  }

  lemma UpdateRecovered(p: int, q: int)
    ensures Route(JStr("update_cart_item"), JObj(map["product_id" := JStr(IntToString(p)), "quantity" := JNum(q)])) == Call(Update(p, q))
  {
    var args := JObj(map["product_id" := JStr(IntToString(p)), "quantity" := JNum(q)]);
    ToIntAcceptsDecimal(p);
    assert IntArgument(args, "product_id", 0) == Returned(p);
    assert IntArgument(args, "quantity", 0) == Returned(q);
    RouteIntArguments(args, p, q);
  }

  /** The catalog and the table disagree: the catalog's search parameter is
      `query`, which the table never reads, so a search as the catalog
      describes it searches for the empty keyword; and two routed names,
      `update_cart_item` and `clear_cart`, are not offered by the catalog. */
  lemma CatalogAndTableDiverge(query: Json, limit: Json)
    ensures "keyword" !in Tools.ParamNames(Tools.Catalog[0].properties)
    ensures Route(JStr("search_products"), JObj(map["query" := query, "limit" := limit])) == Call(Search(JStr("")))
    ensures forall name :: name in Tools.ToolNames(Tools.Catalog) ==> name in RoutedNames
    ensures "update_cart_item" !in Tools.ToolNames(Tools.Catalog) && "clear_cart" !in Tools.ToolNames(Tools.Catalog)
  {
    Tools.CatalogOffersFourTools();
    assert Tools.ParamNames(Tools.Catalog[0].properties) == ["query", "limit"];
  }

  /** The request bodies a routing POSTs: one for a call, none otherwise. */
  function Posts(r: Routing): seq<Json> {
    if r.Call? then [Request(r.op)] else []
  }

  /** What `_execute_function` returns; it never raises. */
  function ChatAnswer(server: (nat, Json) -> Reply, loads: string -> Outcome<Json>, n: nat, name: string, args: Json): Json {
    match Route(JStr(name), args)
    case Call(op) =>
      (match Answer(server, loads, n, op)
       case Returned(j) => j
       case Raised(m) => ErrorText(m))
    case Unknown => ErrorText("Neznámá funkce: " + name)
    case BadArguments(m) => ErrorText(m)
  }

  /** What `on_function_call` returns or raises. */
  function RelayAnswer(server: (nat, Json) -> Reply, loads: string -> Outcome<Json>, n: nat, codec: Codec, name: Json, args: Json): Outcome<Json> {
    match Route(name, args)
    case Call(op) => Answer(server, loads, n, op)
    case Unknown => Returned(ErrorText("Unknown function: " + PyStr(name, codec)))
    case BadArguments(m) => Raised(m)
  }

  /** The two wrappers agree on every routed call once the relay's exception
      is turned into `{"error": ...}` (as its caller does); they word an
      unknown name differently. */
  lemma ChatAndRelayAgree(server: (nat, Json) -> Reply, loads: string -> Outcome<Json>, n: nat, codec: Codec, name: string, args: Json)
    ensures Route(JStr(name), args).Unknown? ==>
      && ChatAnswer(server, loads, n, name, args) == ErrorText("Neznámá funkce: " + name)
      && RelayAnswer(server, loads, n, codec, JStr(name), args) == Returned(ErrorText("Unknown function: " + name))
    ensures !Route(JStr(name), args).Unknown? ==>
      ChatAnswer(server, loads, n, name, args) ==
        match RelayAnswer(server, loads, n, codec, JStr(name), args)
        case Returned(j) => j
        case Raised(m) => ErrorText(m)
  {
  }

  /** A call that names an operation is answered by the backend's reply to
      that operation's request, and by nothing else. */
  lemma RoutedCallIsAnsweredByBackend(server: (nat, Json) -> Reply, loads: string -> Outcome<Json>, n: nat, codec: Codec, op: Operation)
    requires !op.UserInfo?
    ensures RelayAnswer(server, loads, n, codec, JStr(CatalogCall(op).0), CatalogCall(op).1) == ToolOutcome(server(n, Request(op)), loads)
    ensures Posts(Route(JStr(CatalogCall(op).0), CatalogCall(op).1)) == [Request(op)]
  {
    RouteRecoversOperation(op);
  }

  /** What running one tool call yields: its answer and the bodies it POSTed. */
  datatype Executed = Executed(answer: Json, posts: seq<Json>)

  /** `_execute_function` as a value: given the number of POSTs made so far,
      a function name and decoded arguments, its answer and its POSTs. */
  function ChatExecutor(server: (nat, Json) -> Reply, loads: string -> Outcome<Json>): (nat, string, Json) -> Executed {
    (k: nat, name: string, args: Json) => Executed(ChatAnswer(server, loads, k, name, args), Posts(Route(JStr(name), args)))
  }

  /** `_execute_function`. */
  method ExecuteFunction(client: Client, name: string, arguments: Json) returns (result: Json)
    modifies client
    ensures client.posted == old(client.posted) + Posts(Route(JStr(name), arguments))
    ensures client.sessionOpen == (old(client.sessionOpen) || Route(JStr(name), arguments).Call?)
    ensures result == ChatAnswer(client.server, client.loads, |old(client.posted)|, name, arguments)
    ensures ChatExecutor(client.server, client.loads)(|old(client.posted)|, name, arguments)
      == Executed(result, Posts(Route(JStr(name), arguments)))
  {
    match Route(JStr(name), arguments) {
      case Call(op) =>
        var r := client.Perform(op);
        match r {
          case Returned(j) => result := j;
          case Raised(m) => result := ErrorText(m);
        }
      case Unknown =>
        result := ErrorText("Neznámá funkce: " + name);
      case BadArguments(m) =>
        result := ErrorText(m);
    }
  }

  /** What running one relayed call yields: its answer or exception, and the
      bodies it POSTed. */
  datatype Relayed = Relayed(answer: Outcome<Json>, posts: seq<Json>)

  /** `on_function_call` as a value, in the same shape as `ChatExecutor`. */
  function RelayExecutor(server: (nat, Json) -> Reply, loads: string -> Outcome<Json>, codec: Codec): (nat, Json, Json) -> Relayed {
    (k: nat, name: Json, args: Json) => Relayed(RelayAnswer(server, loads, k, codec, name, args), Posts(Route(name, args)))
  }

  /** `on_function_call`, the handler the realtime relay installs. */
  method OnFunctionCall(client: Client, codec: Codec, name: Json, arguments: Json) returns (result: Outcome<Json>)
    modifies client
    ensures client.posted == old(client.posted) + Posts(Route(name, arguments))
    ensures client.sessionOpen == (old(client.sessionOpen) || Route(name, arguments).Call?)
    ensures result == RelayAnswer(client.server, client.loads, |old(client.posted)|, codec, name, arguments)
    ensures RelayExecutor(client.server, client.loads, codec)(|old(client.posted)|, name, arguments)
      == Relayed(result, Posts(Route(name, arguments)))
  {
    match Route(name, arguments) {
      case Call(op) =>
        result := client.Perform(op);
      case Unknown =>
        result := Returned(ErrorText("Unknown function: " + PyStr(name, codec)));
      case BadArguments(m) =>
        result := Raised(m);
    }
  }
}

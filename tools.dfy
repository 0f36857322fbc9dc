/** The tool catalog offered to the language model, and the four formatters
    that turn a grocery-backend result into a sentence to speak. */
module Tools {
  import opened Base
  import opened Json

  datatype ParamType = StringType | IntegerType

  /** One entry of a tool's `parameters.properties`. */
  datatype Param = Param(name: string, paramType: ParamType, description: string, default: Option<int>)

  /** One function tool: its name, description, declared parameters and the
      names listed under `required`. */
  datatype Tool = Tool(name: string, description: string, properties: seq<Param>, required: seq<string>)

  const Catalog: seq<Tool> := [
    Tool("search_products",
         "Vyhledá produkty na Rohlíku podle názvu nebo popisu. Použij když uživatel chce najít nebo přidat konkrétní produkt.",
         [Param("query", StringType, "Hledaný výraz (název produktu, značka, kategorie)", None),
          Param("limit", IntegerType, "Maximální počet výsledků (výchozí 10)", Some(10))],
         ["query"]),
    Tool("add_to_cart",
         "Přidá produkt do košíku. Potřebuje ID produktu z vyhledávání.",
         [Param("product_id", StringType, "ID produktu z vyhledávání", None),
          Param("quantity", IntegerType, "Počet kusů (výchozí 1)", Some(1))],
         ["product_id"]),
    Tool("get_cart",
         "Zobrazí aktuální obsah košíku včetně produktů a celkové ceny.",
         [],
         []),
    Tool("remove_from_cart",
         "Odebere produkt z košíku.",
         [Param("product_id", StringType, "ID produktu k odebrání", None)],
         ["product_id"])
  ]

  function ToolNames(tools: seq<Tool>): (names: seq<string>)
    ensures |names| == |tools|
    ensures forall i :: 0 <= i < |tools| ==> names[i] == tools[i].name
  {
    if tools == [] then [] else [tools[0].name] + ToolNames(tools[1..])
  }

  function ParamNames(params: seq<Param>): (names: seq<string>)
    ensures |names| == |params|
    ensures forall i :: 0 <= i < |params| ==> names[i] == params[i].name
  {
    if params == [] then [] else [params[0].name] + ParamNames(params[1..])
  }

  /** The catalog offers exactly four tools, in this order, under pairwise
      distinct names. */
  lemma CatalogOffersFourTools()
    ensures ToolNames(Catalog) == ["search_products", "add_to_cart", "get_cart", "remove_from_cart"]
    ensures forall i, j :: 0 <= i < j < |Catalog| ==> Catalog[i].name != Catalog[j].name
  {
  }

  /** Every required parameter of every tool is one of its declared properties. */
  lemma RequiredParametersAreDeclared()
    ensures forall i, k :: 0 <= i < |Catalog| && 0 <= k < |Catalog[i].required| ==>
      Catalog[i].required[k] in ParamNames(Catalog[i].properties)
  {
    assert ParamNames(Catalog[0].properties) == ["query", "limit"];
    assert ParamNames(Catalog[1].properties) == ["product_id", "quantity"];
    assert ParamNames(Catalog[3].properties) == ["product_id"];
  }

  const SearchErrorPrefix := "Při vyhledávání došlo k chybě: "
  const CartErrorPrefix := "Nepodařilo se načíst košík: "
  const AddErrorPrefix := "Nepodařilo se přidat do košíku: "
  const RemoveErrorPrefix := "Nepodařilo se odebrat z košíku: "
  const NothingFound := "Nenašel jsem žádné produkty odpovídající vašemu dotazu."
  const CartEmpty := "Košík je prázdný."
  const SearchAvailable := "Výsledky vyhledávání jsou k dispozici."
  const CartAvailable := "Obsah košíku je k dispozici."
  const AddDone := "Produkt byl přidán do košíku."
  const RemoveDone := "Produkt byl odebrán z košíku."

  /** `results.get("content", [])`. */
  function Content(results: map<string, Json>): Json {
    Lookup(results, "content", JArr([]))
  }

  /** `content[0].get("text", "")` for a non-empty list; an item that is not a
      dict raises. */
  function FirstText(items: seq<Json>): Outcome<Json>
    requires items != []
  {
    Get(items[0], "text", JStr(""))
  }

  /** The formatters return whatever they computed; a spoken sentence is a `JStr`. */
  function Say(text: string): Outcome<Json> {
    Returned(JStr(text))
  }

  function FormatSearchResults(results: map<string, Json>, codec: Codec): Outcome<Json> {
    if "error" in results then Say(SearchErrorPrefix + PyStr(results["error"], codec))
    else
      var content := Content(results);
      if !Truthy(content) then Say(NothingFound)
      else if content.JArr? && |content.items| > 0 then FirstText(content.items)
      else Say(SearchAvailable)
  }

  function FormatCartContents(cart: map<string, Json>, codec: Codec): Outcome<Json> {
    if "error" in cart then Say(CartErrorPrefix + PyStr(cart["error"], codec))
    else
      var content := Content(cart);
      if !Truthy(content) then Say(CartEmpty)
      else if content.JArr? && |content.items| > 0 then FirstText(content.items)
      else Say(CartAvailable)
  }

  function FormatAddResult(result: map<string, Json>, codec: Codec): Outcome<Json> {
    if "error" in result then Say(AddErrorPrefix + PyStr(result["error"], codec))
    else
      var content := Content(result);
      if content.JArr? && |content.items| > 0 then FirstText(content.items)
      else Say(AddDone)
  }

  function FormatRemoveResult(result: map<string, Json>, codec: Codec): Outcome<Json> {
    if "error" in result then Say(RemoveErrorPrefix + PyStr(result["error"], codec))
    else
      var content := Content(result);
      if content.JArr? && |content.items| > 0 then FirstText(content.items)
      else Say(RemoveDone)
  }

  /** An `error` key decides every formatter, whatever the content holds. */
  lemma ErrorKeyDecidesEveryFormatter(r: map<string, Json>, codec: Codec)
    requires "error" in r
    ensures FormatSearchResults(r, codec) == Say(SearchErrorPrefix + PyStr(r["error"], codec))
    ensures FormatCartContents(r, codec) == Say(CartErrorPrefix + PyStr(r["error"], codec))
    ensures FormatAddResult(r, codec) == Say(AddErrorPrefix + PyStr(r["error"], codec))
    ensures FormatRemoveResult(r, codec) == Say(RemoveErrorPrefix + PyStr(r["error"], codec))
  {
  }

  /** Missing or empty content: search and cart report "nothing", while add and
      remove have no such check and fall through to their success sentence. */
  lemma EmptyContent(r: map<string, Json>, codec: Codec)
    requires "error" !in r
    requires "content" !in r || !Truthy(r["content"])
    ensures FormatSearchResults(r, codec) == Say(NothingFound)
    ensures FormatCartContents(r, codec) == Say(CartEmpty)
    ensures FormatAddResult(r, codec) == Say(AddDone)
    ensures FormatRemoveResult(r, codec) == Say(RemoveDone)
  {
  }

  /** Non-empty list content: every formatter answers with the first item's
      `text` (the empty string when the item has none). */
  lemma FirstItemTextIsTheAnswer(r: map<string, Json>, codec: Codec, first: map<string, Json>, rest: seq<Json>)
    requires "error" !in r
    requires "content" in r && r["content"] == JArr([JObj(first)] + rest)
    ensures var answer := Returned(Lookup(first, "text", JStr("")));
      && FormatSearchResults(r, codec) == answer
      && FormatCartContents(r, codec) == answer
      && FormatAddResult(r, codec) == answer
      && FormatRemoveResult(r, codec) == answer
  {
  }

  /** Truthy content that is not a list: the fixed "available" sentences for
      search and cart, and the success sentences for add and remove. */
  lemma NonListContent(r: map<string, Json>, codec: Codec)
    requires "error" !in r
    requires "content" in r && Truthy(r["content"]) && !r["content"].JArr?
    ensures FormatSearchResults(r, codec) == Say(SearchAvailable)
    ensures FormatCartContents(r, codec) == Say(CartAvailable)
    ensures FormatAddResult(r, codec) == Say(AddDone)
    ensures FormatRemoveResult(r, codec) == Say(RemoveDone)
  {
  }
}

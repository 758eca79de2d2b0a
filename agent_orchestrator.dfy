/**
 * `SierraAgentOrchestrator`: the client configured with the system prompt and the three tools,
 * and the turn that never lets an exception out (agent/orchestrator.py).
 */
module Orchestrator {
  import opened Wrappers
  import opened Text
  import opened Json
  import opened World
  import opened LlmClient
  import opened OrderServices
  import opened ProductServices
  import OrderModels
  import ProductModels
  import OrderTools
  import ProductTools
  import DiscountTools

  /** What the customer sees when a turn fails. */
  const Apology := "\U{1F3D4}\U{FE0F} Sorry, I encountered an error processing your request. Please try again! Onward into the unknown!"

  // ---- Calling a tool function with the decoded arguments as keywords ----

  /** The outcome of `func(**args)` before the body runs: the values of the parameters, in order, or the `TypeError`. */
  datatype Binding = Bound(values: seq<Json>) | BindError(message: string)

  function Quote(name: string): string {
    "'" + name + "'"
  }

  function Quotes(names: seq<string>): seq<string> {
    seq(|names|, k requires 0 <= k < |names| => Quote(names[k]))
  }

  /** How Python lists missing parameters: `'a'`, `'a' and 'b'`, `'a', 'b', and 'c'`. */
  function NameList(names: seq<string>): string {
    if |names| == 0 then ""
    else if |names| == 1 then Quote(names[0])
    else if |names| == 2 then Quote(names[0]) + " and " + Quote(names[1])
    else Join(Quotes(names[..|names| - 1]), ", ") + ", and " + Quote(names[|names| - 1])
  }

  /** The parameters the keywords do not supply, in declaration order. */
  function Missing(params: seq<string>, keys: set<string>): (m: seq<string>)
    ensures forall p :: p in m <==> p in params && p !in keys
    ensures |m| <= |params|
  {
    if params == [] then []
    else Missing(params[..|params| - 1], keys) + (if params[|params| - 1] in keys then [] else [params[|params| - 1]])
  }

  /** The keywords that name no parameter. */
  function Unexpected(params: seq<string>, keys: set<string>): set<string> {
    set k | k in keys && k !in params
  }

  /**
   * Binds keyword arguments to the parameters `params` of the function `name`, defined in module
   * `home`: a value that is not a dict, a keyword no parameter has, or a parameter left without a
   * keyword raises `TypeError`, in that order of checking.
   */
  function Bind(home: string, name: string, params: seq<string>, args: Json): (b: Binding)
    ensures b.Bound? <==> args.JObject? && args.fields.Keys == set p | p in params
    ensures b.Bound? ==> |b.values| == |params| && forall k | 0 <= k < |params| :: params[k] in args.fields && b.values[k] == args.fields[params[k]]
    ensures !args.JObject? ==> b == BindError(home + "." + name + "() argument after ** must be a mapping, not " + TypeName(args))
    ensures args.JObject? && Unexpected(params, args.fields.Keys) != {} ==>
      b.BindError? && StartsWith(b.message, name + "() got an unexpected keyword argument")
  {
    if !args.JObject? then BindError(home + "." + name + "() argument after ** must be a mapping, not " + TypeName(args))
    else
      var keys := args.fields.Keys;
      var extra := Unexpected(params, keys);
      if extra != {} then
        BindError(name + "() got an unexpected keyword argument" + (if |extra| == 1 then " " + Quote(OnlyElement(extra)) else ""))
      else
        var missing := Missing(params, keys);
        if missing != [] then
          assert missing[0] in params && missing[0] !in keys;
          BindError(name + "() missing " + IntString(|missing|) + " required positional argument" + (if |missing| == 1 then "" else "s") + ": " + NameList(missing))
        else
          assert keys == set p | p in params by {
            forall p | p in params ensures p in keys {
              assert p in missing <==> p !in keys;
            }
            forall p | p in keys ensures p in params {
              assert p in extra <==> p !in params;
            }
          }
          Bound(seq(|params|, k requires 0 <= k < |params| => args.fields[params[k]]))
  }

  /** The element of a one-element set. */
  function OnlyElement(s: set<string>): (x: string)
    requires |s| == 1
    ensures s == {x}
  {
    var x :| x in s;
    assert s * {x} == {x};
    assert |s - {x}| == |s| - |s * {x}| == 0;
    assert s - {x} == {};
    assert s == {x} by {
      forall y | y in s ensures y == x {
        assert y !in s - {x};
      }
    }
    x
  }

  /** A call whose keywords miss some parameters names every missing one, in declaration order. */
  lemma MissingReported(home: string, name: string, params: seq<string>, fields: map<string, Json>)
    requires Unexpected(params, fields.Keys) == {}
    requires Missing(params, fields.Keys) != []
    ensures var m := Missing(params, fields.Keys);
      Bind(home, name, params, JObject(fields))
        == BindError(name + "() missing " + IntString(|m|) + " required positional argument" + (if |m| == 1 then "" else "s") + ": " + NameList(m))
  {
  }

  // ---- The three tools ----

  const LookupParams := ["email", "order_number"]
  const DiscountParams := ["request_text"]
  const RecommendParams := ["query"]

  /** What a tool function that returns `json.dumps(doc)` gives back. */
  function Dumped(doc: Json): ToolOutcome {
    Returned(PyStr(JsonOf(doc)))
  }

  /** `lookup_order(**args)`, over the loaded orders and the SKU index of the catalog. */
  function LookupOrderCall(orders: map<OrderKey, OrderModels.Order>, index: map<string, ProductModels.Product>, args: Json): ToolOutcome {
    match Bind("property.orders.tools", "lookup_order", LookupParams, args)
    case BindError(m) => Raised(m)
    case Bound(vals) => Dumped(OrderTools.ReportJson(OrderTools.Report(orders, index, vals[0], vals[1])))
  }

  /** `check_promotional_discount(**args)`, reading the clock and the uuid of the call. */
  function CheckDiscountCall(args: Json, amb: Ambient): ToolOutcome {
    match Bind("property.discounts.tools", "check_promotional_discount", DiscountParams, args)
    case BindError(m) => Raised(m)
    case Bound(vals) => Dumped(DiscountTools.DecisionJson(DiscountTools.Check(vals[0], amb)))
  }

  /** `recommend_products(**args)`, over the loaded catalog. */
  function RecommendCall(catalog: seq<ProductModels.Product>, args: Json): ToolOutcome {
    match Bind("property.products.tools", "recommend_products", RecommendParams, args)
    case BindError(m) => Raised(m)
    case Bound(vals) => Dumped(ProductTools.RecommendationJson(ProductTools.Recommend(catalog, vals[0])))
  }

  function LookupOrderTool(orders: map<OrderKey, OrderModels.Order>, index: map<string, ProductModels.Product>): ToolFn {
    (args: Json, amb: Ambient) => LookupOrderCall(orders, index, args)
  }

  function CheckDiscountTool(): ToolFn {
    (args: Json, amb: Ambient) => CheckDiscountCall(args, amb)
  }

  function RecommendTool(catalog: seq<ProductModels.Product>): ToolFn {
    (args: Json, amb: Ambient) => RecommendCall(catalog, args)
  }

  /** A JSON-schema property of type string. */
  function StringProperty(description: string): Json {
    JObject(map["type" := JStr("string"), "description" := JStr(description)])
  }

  /** A strict object schema: the listed string properties, all required, and no others. */
  function ObjectSchema(properties: map<string, Json>, required: seq<string>): Json {
    JObject(map[
      "type" := JStr("object"),
      "properties" := JObject(properties),
      "required" := JArray(seq(|required|, k requires 0 <= k < |required| => JStr(required[k]))),
      "additionalProperties" := JBool(false)])
  }

  const LookupDescription := "Look up customer order status and tracking information using email and order number."
  const EmailDescription := "Customer's email address"
  const OrderNumberDescription := "Order number (with # prefix, like #W001)"
  const DiscountDescription := "Check for promotional discount eligibility based on customer request and timing constraints."
  const RequestTextDescription := "The customer's exact words requesting a promotional discount."
  const RecommendLead := "Search for and recommend various products based on any and all customer needs and interests. "
  const RecommendDescription := RecommendLead + LimitSentence(ProductTools.MaxProductRecommendations)
  const QueryDescription := "Search query describing what the customer is looking for (e.g., 'hiking backpack', 'cold weather gear', 'waterproof jacket'). Include multiple keywords or terms if searching broadly."

  function LimitSentence(n: int): string {
    "Returns up to " + IntString(n) + " product recommendations."
  }

  function LookupSchema(): ToolSchema {
    ToolSchema("lookup_order", LookupDescription,
      ObjectSchema(map["email" := StringProperty(EmailDescription), "order_number" := StringProperty(OrderNumberDescription)],
        LookupParams))
  }

  function DiscountSchema(): ToolSchema {
    ToolSchema("check_promotional_discount", DiscountDescription,
      ObjectSchema(map["request_text" := StringProperty(RequestTextDescription)], DiscountParams))
  }

  function RecommendSchema(): ToolSchema {
    ToolSchema("recommend_products", RecommendDescription,
      ObjectSchema(map["query" := StringProperty(QueryDescription)], RecommendParams))
  }

  /** The schemas in registration order. */
  function Schemas(): seq<ToolSchema> {
    [LookupSchema(), DiscountSchema(), RecommendSchema()]
  }

  /** The registry after `_register_tools`. */
  function Registry(orders: map<OrderKey, OrderModels.Order>, index: map<string, ProductModels.Product>,
                    catalog: seq<ProductModels.Product>): map<string, ToolFn> {
    map["lookup_order" := LookupOrderTool(orders, index)]
       ["check_promotional_discount" := CheckDiscountTool()]
       ["recommend_products" := RecommendTool(catalog)]
  }

  /** The schemas name the registered tools, one schema per tool, in registration order. */
  lemma SchemasNameTheRegistry(orders: map<OrderKey, OrderModels.Order>, index: map<string, ProductModels.Product>,
                               catalog: seq<ProductModels.Product>)
    ensures |Schemas()| == |Registry(orders, index, catalog)| == 3
    ensures Registry(orders, index, catalog).Keys == {Schemas()[0].name, Schemas()[1].name, Schemas()[2].name}
  {
    var r := Registry(orders, index, catalog);
    assert r.Keys == {"lookup_order", "check_promotional_discount", "recommend_products"};
  }

  /**
   * A schema declares exactly the parameters of its function, requires all of them in declaration
   * order, and forbids other properties.
   */
  predicate DescribesParams(s: ToolSchema, params: seq<string>) {
    && s.parameters.JObject?
    && "properties" in s.parameters.fields && s.parameters.fields["properties"].JObject?
    && s.parameters.fields["properties"].fields.Keys == (set p | p in params)
    && "required" in s.parameters.fields
    && s.parameters.fields["required"] == JArray(seq(|params|, k requires 0 <= k < |params| => JStr(params[k])))
    && "additionalProperties" in s.parameters.fields && s.parameters.fields["additionalProperties"] == JBool(false)
  }

  lemma LookupSchemaMatches()
    ensures DescribesParams(LookupSchema(), LookupParams)
  {
    assert (set p | p in LookupParams) == {"email", "order_number"};
  }

  lemma DiscountSchemaMatches()
    ensures DescribesParams(DiscountSchema(), DiscountParams)
  {
    assert (set p | p in DiscountParams) == {"request_text"};
  }

  lemma RecommendSchemaMatches()
    ensures DescribesParams(RecommendSchema(), RecommendParams)
  {
    assert (set p | p in RecommendParams) == {"query"};
  }

  /** The description of `recommend_products` promises the recommendation limit, five. */
  lemma RecommendDescriptionStatesLimit()
    ensures Contains(RecommendSchema().description, LimitSentence(ProductTools.MaxProductRecommendations))
    ensures LimitSentence(ProductTools.MaxProductRecommendations) == "Returns up to " + "5" + " product recommendations."
  {
    assert RecommendDescription == RecommendLead + LimitSentence(ProductTools.MaxProductRecommendations) + "";
    ContainsMiddle(RecommendLead, LimitSentence(ProductTools.MaxProductRecommendations), "");
    assert IntString(5) == "5";
  }

  /** Arguments as the schema of `lookup_order` describes them reach the order lookup, and only those bind. */
  lemma LookupToolCall(orders: map<OrderKey, OrderModels.Order>, index: map<string, ProductModels.Product>,
                       args: Json, amb: Ambient)
    ensures args.JObject? && args.fields.Keys == {"email", "order_number"} ==>
      LookupOrderTool(orders, index)(args, amb)
        == Dumped(OrderTools.ReportJson(OrderTools.Report(orders, index, args.fields["email"], args.fields["order_number"])))
    ensures (args.JObject? ==> args.fields.Keys != {"email", "order_number"}) ==> LookupOrderTool(orders, index)(args, amb).Raised?
  {
    assert (set p | p in LookupParams) == {"email", "order_number"};
    var b := Bind("property.orders.tools", "lookup_order", LookupParams, args);
    if b.Bound? {
      assert b.values[0] == args.fields["email"] && b.values[1] == args.fields["order_number"];
    }
  }

  /** Arguments as the schema of `check_promotional_discount` describes them reach the decision, and only those bind. */
  lemma DiscountToolCall(args: Json, amb: Ambient)
    ensures args.JObject? && args.fields.Keys == {"request_text"} ==>
      CheckDiscountTool()(args, amb) == Dumped(DiscountTools.DecisionJson(DiscountTools.Check(args.fields["request_text"], amb)))
    ensures (args.JObject? ==> args.fields.Keys != {"request_text"}) ==> CheckDiscountTool()(args, amb).Raised?
  {
    assert (set p | p in DiscountParams) == {"request_text"};
    var b := Bind("property.discounts.tools", "check_promotional_discount", DiscountParams, args);
    if b.Bound? {
      assert b.values[0] == args.fields["request_text"];
    }
  }

  /** Arguments as the schema of `recommend_products` describes them reach the search, and only those bind. */
  lemma RecommendToolCall(catalog: seq<ProductModels.Product>, args: Json, amb: Ambient)
    ensures args.JObject? && args.fields.Keys == {"query"} ==>
      RecommendTool(catalog)(args, amb) == Dumped(ProductTools.RecommendationJson(ProductTools.Recommend(catalog, args.fields["query"])))
    ensures (args.JObject? ==> args.fields.Keys != {"query"}) ==> RecommendTool(catalog)(args, amb).Raised?
  {
    assert (set p | p in RecommendParams) == {"query"};
    var b := Bind("property.products.tools", "recommend_products", RecommendParams, args);
    if b.Bound? {
      assert b.values[0] == args.fields["query"];
    }
  }

  /**
   * What the model reads back from a tool call: the encoded result of the tool when its arguments
   * match its schema, and a not-found note for any name that was not registered.
   */
  lemma ToolTurnContents(orders: map<OrderKey, OrderModels.Order>, index: map<string, ProductModels.Product>,
                         catalog: seq<ProductModels.Product>, name: string, args: Json, amb: Ambient)
    ensures var content := ToolContent(Registry(orders, index, catalog), name, args, amb);
      && (name == "lookup_order" && args.JObject? && args.fields.Keys == {"email", "order_number"} ==>
            content == JsonOf(OrderTools.ReportJson(OrderTools.Report(orders, index, args.fields["email"], args.fields["order_number"]))))
      && (name == "check_promotional_discount" && args.JObject? && args.fields.Keys == {"request_text"} ==>
            content == JsonOf(DiscountTools.DecisionJson(DiscountTools.Check(args.fields["request_text"], amb))))
      && (name == "recommend_products" && args.JObject? && args.fields.Keys == {"query"} ==>
            content == JsonOf(ProductTools.RecommendationJson(ProductTools.Recommend(catalog, args.fields["query"]))))
      && (name !in {"lookup_order", "check_promotional_discount", "recommend_products"} ==>
            content == Chars("Tool '" + name + "' not found"))
  {
    var registry := Registry(orders, index, catalog);
    assert registry.Keys == {"lookup_order", "check_promotional_discount", "recommend_products"};
    if name == "lookup_order" {
      assert registry[name] == LookupOrderTool(orders, index);
      LookupToolCall(orders, index, args, amb);
    } else if name == "check_promotional_discount" {
      assert registry[name] == CheckDiscountTool();
      DiscountToolCall(args, amb);
    } else if name == "recommend_products" {
      assert registry[name] == RecommendTool(catalog);
      RecommendToolCall(catalog, args, amb);
    }
  }

  /** What `process_message` returns for the outcome of `send`: the answer, or the apology for any exception. */
  function Answer(outcome: SendOutcome): (r: Option<string>)
    ensures outcome.Aborted? ==> r == Some(Apology)
    ensures outcome.Answered? ==> r == outcome.answer
  {
    match outcome
    case Answered(a) => a
    case Aborted(_) => Some(Apology)
  }

  /** `SierraAgentOrchestrator`. */
  class Agent {
    const client: ResponsesClient

    /**
     * `__init__` and `_register_tools`: a client talking to `remote`, the prompt set, then the
     * three tools registered in order, over the data the services loaded.
     */
    constructor (remote: Remote, systemPrompt: string, orderService: OrderService, productService: ProductService)
      ensures fresh(client) && client.remote == remote
      ensures client.instructions == systemPrompt
      ensures client.tools == Schemas()
      ensures client.registry == Registry(orderService.orders, productService.skuIndex, productService.products)
      ensures client.state == [] && client.delays == []
      ensures client.history == [PromptSet(systemPrompt), ToolRegistered("lookup_order"),
                                 ToolRegistered("check_promotional_discount"), ToolRegistered("recommend_products")]
    {
      var c := new ResponsesClient(remote);
      c.SetSystemPrompt(systemPrompt);
      var lookup, discount, recommend := LookupSchema(), DiscountSchema(), RecommendSchema();
      c.RegisterFunctionTool(lookup.name, lookup.description, lookup.parameters,
        LookupOrderTool(orderService.orders, productService.skuIndex));
      c.RegisterFunctionTool(discount.name, discount.description, discount.parameters, CheckDiscountTool());
      c.RegisterFunctionTool(recommend.name, recommend.description, recommend.parameters,
        RecommendTool(productService.products));
      assert c.tools == [lookup, discount, recommend];
      client := c;
    }

    /**
     * `process_message`: one turn of `send`; the log, the script and the sleeps move on as `send`
     * describes, and any exception becomes the apology.
     */
    method ProcessMessage(userMessage: string, env: ToolCall -> Ambient) returns (r: Option<string>)
      modifies client, client.remote
      ensures var c := Converse(old(client.state) + [User(userMessage)], client.instructions, client.tools, client.registry,
                                old(client.remote.replies), env);
        && r == Answer(c.outcome)
        && client.state == c.log
        && client.remote.replies == c.rest
        && client.delays == old(client.delays) + c.sleeps
      ensures client.instructions == old(client.instructions) && client.tools == old(client.tools)
      ensures client.registry == old(client.registry) && client.history == old(client.history)
    {
      var outcome := client.Send(userMessage, env);
      match outcome
      case Answered(a) => r := a;
      case Aborted(_) => r := Some(Apology);
    }

    /** `reset_conversation`: the log is emptied; the prompt and the tools stay. */
    method ResetConversation()
      modifies client
      ensures client.state == []
      ensures client.instructions == old(client.instructions) && client.tools == old(client.tools)
      ensures client.registry == old(client.registry)
      ensures client.delays == old(client.delays) && client.history == old(client.history) + [LogCleared]
    {
      client.Reset();
    }
  }

  /** A turn keeps everything said before it and the user's message, whether it is answered or fails. */
  lemma TurnKeepsLog(log: seq<Message>, userMessage: string, instructions: string, tools: seq<ToolSchema>,
                     registry: map<string, ToolFn>, replies: seq<Reply>, env: ToolCall -> Ambient)
    ensures var c := Converse(log + [User(userMessage)], instructions, tools, registry, replies, env);
      && |c.log| > |log|
      && c.log[..|log| + 1] == log + [User(userMessage)]
  {
    ConverseAppendsRounds(log + [User(userMessage)], instructions, tools, registry, replies, env);
    var c := Converse(log + [User(userMessage)], instructions, tools, registry, replies, env);
    assert c.log[..|log| + 1] == (log + [User(userMessage)] + Flatten(c.rounds))[..|log| + 1];
  }

  /** A model that cannot be reached in three attempts makes the turn end in the apology, after sleeps of 1 and 2 seconds. */
  lemma UnreachableModelApologizes(log: seq<Message>, userMessage: string, instructions: string, tools: seq<ToolSchema>,
                                   registry: map<string, ToolFn>, env: ToolCall -> Ambient)
    ensures var c := Converse(log + [User(userMessage)], instructions, tools, registry, [], env);
      && Answer(c.outcome) == Some(Apology)
      && c.log == log + [User(userMessage)]
      && c.sleeps == [1, 2]
      && |c.sent| == 3
  {
    var start := log + [User(userMessage)];
    RetrySchedule([]);
    AttemptsSpec([], 0);
    ConverseUnfold(start, instructions, tools, registry, [], env);
    RoundFromCases(registry, [], env);
    var s := RoundFrom(registry, [], env);
    assert start + s.round.response + s.round.results == start;
    RepeatHolds(RequestFor(instructions, tools, start), s.attempts.count);
  }
}

/**
 * The burger agent's graph (src/agent/graph.py): the router after the agent
 * step, the two cart nodes, the purchase flow (prepare, approval gate,
 * decision, execution) and the fixed edge table. The agent step itself, an
 * LLM call, is not part of this model; its output arrives as the last
 * message of the log.
 */
module Graph {
  import opened Wrappers
  import opened Records
  import Text
  import Cart
  import Configuration
  import Tools
  import opened AgentState

  /** The graph's nodes, with the framework's START and END markers. */
  datatype Node =
    | StartNode
    | AgentNode
    | ToolsNode
    | AddBurgerToCartNode
    | RemoveBurgerFromCartNode
    | PreparePurchaseBurgerItemsNode
    | PurchaseApprovalNode
    | ExecutePurchaseNode
    | EndNode
  {
    /** The name the node is registered under. */
    function Name(): string
    {
      match this
      case StartNode => "__start__"
      case AgentNode => "agent"
      case ToolsNode => "tools"
      case AddBurgerToCartNode => "add_burger_to_cart"
      case RemoveBurgerFromCartNode => "remove_burger_from_cart"
      case PreparePurchaseBurgerItemsNode => "prepare_purchase_burger_items"
      case PurchaseApprovalNode => "purchase_approval"
      case ExecutePurchaseNode => "execute_purchase"
      case EndNode => "__end__"
    }
  }

  /** Why a node or router raised. */
  datatype NodeError =
    | IndexError            // `state.messages[-1]` of an empty log
    | NotAnAIMessage        // the last message is not from the model
    | MissingToolCall       // no tool call of the expected name
    | NotAnItem             // the add payload is not a burger line
    | ItemNotFound          // `list.remove` found no equal line
    | NotConfirmed          // the approval gate did not see a tool result
    | NoPurchaseInformation // nothing to purchase

  function Last(messages: seq<Message>): Message
    requires messages != []
  {
    messages[|messages| - 1]
  }

  // ---------------------------------------------------------------------------
  // Router

  /** `tool_router`: three tools have their own node, every other name goes to "tools". */
  function ToolRouter(toolName: string): (n: Node)
    ensures n == PreparePurchaseBurgerItemsNode <==> toolName == Tools.PurchaseBurgerItemsName
    ensures n == AddBurgerToCartNode <==> toolName == Tools.AddBurgerToCartToolName
    ensures n == RemoveBurgerFromCartNode <==> toolName == Tools.RemoveBurgerFromCartToolName
    ensures n == ToolsNode <==> toolName !in {Tools.PurchaseBurgerItemsName, Tools.AddBurgerToCartToolName, Tools.RemoveBurgerFromCartToolName}
  {
    if toolName == Tools.PurchaseBurgerItemsName then PreparePurchaseBurgerItemsNode
    else if toolName == Tools.AddBurgerToCartToolName then AddBurgerToCartNode
    else if toolName == Tools.RemoveBurgerFromCartToolName then RemoveBurgerFromCartNode
    else ToolsNode
  }

  /** One step per tool call, in call order, duplicates kept. */
  function RouteCalls(calls: seq<ToolCall>): (r: seq<Node>)
    ensures |r| == |calls|
    ensures forall i :: 0 <= i < |calls| ==> r[i] == ToolRouter(calls[i].name)
  {
    seq(|calls|, i requires 0 <= i < |calls| => ToolRouter(calls[i].name))
  }

  /** What `should_continue` returns: one node, or a list of nodes to fan out to. */
  datatype Route = Goto(node: Node) | Fanout(nodes: seq<Node>)

  /** `should_continue`. */
  function ShouldContinue(messages: seq<Message>): (r: Result<Route, NodeError>)
    ensures r.Err? <==> messages == []
    ensures r.Ok? && r.value.Goto? ==> r.value.node in {AgentNode, EndNode}
    ensures r.Ok? && r.value.Fanout? ==>
              Last(messages).AIMessage? && |r.value.nodes| == |Last(messages).toolCalls| >= 1
              && forall i :: 0 <= i < |r.value.nodes| ==> r.value.nodes[i] == ToolRouter(Last(messages).toolCalls[i].name)
  {
    if messages == [] then Err(IndexError)
    else if !Last(messages).AIMessage? then Ok(Goto(AgentNode))
    else if Last(messages).toolCalls == [] then Ok(Goto(EndNode))
    else Ok(Fanout(RouteCalls(Last(messages).toolCalls)))
  }

  /** The router's cases, each with the condition that selects it. */
  lemma ShouldContinueCases(messages: seq<Message>)
    ensures ShouldContinue(messages).Err? <==> messages == []
    ensures ShouldContinue(messages) == Ok(Goto(AgentNode)) <==> messages != [] && !Last(messages).AIMessage?
    ensures ShouldContinue(messages) == Ok(Goto(EndNode))
        <==> messages != [] && Last(messages).AIMessage? && Last(messages).toolCalls == []
    ensures ShouldContinue(messages).Ok? && ShouldContinue(messages).value.Fanout?
        <==> messages != [] && Last(messages).AIMessage? && Last(messages).toolCalls != []
  {
  }

  /** A fan-out carries one step per tool call of the last message, in order. */
  lemma FanoutFollowsCalls(messages: seq<Message>, i: int)
    requires ShouldContinue(messages).Ok? && ShouldContinue(messages).value.Fanout?
    requires 0 <= i < |Last(messages).toolCalls|
    ensures |ShouldContinue(messages).value.nodes| == |Last(messages).toolCalls| >= 1
    ensures ShouldContinue(messages).value.nodes[i] == ToolRouter(Last(messages).toolCalls[i].name)
  {
  }

  /**
   * Of the five tools, three have a dedicated node; the suggestion tool and
   * the cart query fall through to the generic tool node.
   */
  lemma AllToolsRouting()
    ensures ToolRouter(Tools.AllTools[0]) == PreparePurchaseBurgerItemsNode
    ensures ToolRouter(Tools.AllTools[1]) == ToolsNode
    ensures ToolRouter(Tools.AllTools[2]) == ToolsNode
    ensures ToolRouter(Tools.AllTools[3]) == AddBurgerToCartNode
    ensures ToolRouter(Tools.AllTools[4]) == RemoveBurgerFromCartNode
  {
    Tools.AllToolsDistinct();
  }

  // ---------------------------------------------------------------------------
  // Finding the tool call a node serves

  /** The index of the first call with the given name. */
  function FirstCallIndex(calls: seq<ToolCall>, name: string): (r: Option<nat>)
    ensures r.None? <==> forall j :: 0 <= j < |calls| ==> calls[j].name != name
    ensures r.Some? ==> r.value < |calls| && calls[r.value].name == name
    ensures r.Some? ==> forall j :: 0 <= j < r.value ==> calls[j].name != name
  {
    if calls == [] then None
    else if calls[0].name == name then Some(0)
    else match FirstCallIndex(calls[1..], name)
      case None => None
      case Some(k) => Some(k + 1)
  }

  /**
   * The tool call a node serves: the last message must come from the model
   * and carry a call of the node's tool name; the first such call is used.
   */
  function ExpectedCall(messages: seq<Message>, name: string): (r: Result<ToolCall, NodeError>)
    ensures r.Ok? <==> messages != [] && Last(messages).AIMessage?
                       && exists j :: 0 <= j < |Last(messages).toolCalls| && Last(messages).toolCalls[j].name == name
    ensures r.Err? ==> r.error == (if messages == [] then IndexError
                                   else if !Last(messages).AIMessage? then NotAnAIMessage
                                   else MissingToolCall)
    ensures r.Ok? ==> exists i :: (0 <= i < |Last(messages).toolCalls| && Last(messages).toolCalls[i] == r.value
                                   && forall j :: 0 <= j < i ==> Last(messages).toolCalls[j].name != name)
    ensures r.Ok? ==> r.value.name == name
  {
    if messages == [] then Err(IndexError)
    else if !Last(messages).AIMessage? then Err(NotAnAIMessage)
    else match FirstCallIndex(Last(messages).toolCalls, name)
      case None => Err(MissingToolCall)
      case Some(i) => Ok(Last(messages).toolCalls[i])
  }

  const ItemArgKey: string := "purchase_burger_item"
  const PurchaseArgKey: string := "purchase_information"

  /** `args.get("purchase_burger_item")`, when it is a burger line. */
  function ItemPayload(call: ToolCall): (r: Option<PurchaseBurgerItem>)
    ensures r.Some? <==> ItemArgKey in call.args && call.args[ItemArgKey].ItemArg?
    ensures r.Some? ==> r.value == call.args[ItemArgKey].item
  {
    if ItemArgKey in call.args && call.args[ItemArgKey].ItemArg? then Some(call.args[ItemArgKey].item) else None
  }

  // ---------------------------------------------------------------------------
  // Cart nodes

  /** What a cart node leaves behind: the cart and either its messages or the error it raised. */
  datatype NodeOutcome = NodeOutcome(cart: Option<PurchaseInfo>, result: Result<seq<Message>, NodeError>)

  function AddedText(name: string, user: string): string
  {
    "Successfully added " + name + " to " + user + "'s cart."
  }

  function RemovedText(name: string, user: string): string
  {
    "Successfully removed " + name + " to " + user + "'s cart."
  }

  /** The tool result a cart node answers its call with. */
  function Reply(call: ToolCall, content: string): Message
  {
    ToolMessage(content, Some(call.id), Some(call.name), None)
  }

  /**
   * `add_burger_to_cart` on values: checks the call, lazily creates the cart,
   * appends the payload and raises the totals. A payload that is not a
   * burger line raises after the cart is created.
   */
  function AddBurgerToCartStep(messages: seq<Message>, cart: Option<PurchaseInfo>, user: string): (o: NodeOutcome)
    ensures ExpectedCall(messages, Tools.AddBurgerToCartToolName).Err? ==> o == NodeOutcome(cart, Err(ExpectedCall(messages, Tools.AddBurgerToCartToolName).error))
    ensures o.result.Ok? <==> ExpectedCall(messages, Tools.AddBurgerToCartToolName).Ok?
                              && ItemPayload(ExpectedCall(messages, Tools.AddBurgerToCartToolName).value).Some?
    ensures o.result.Ok? ==>
              var call := ExpectedCall(messages, Tools.AddBurgerToCartToolName).value;
              var item := ItemPayload(call).value;
              o.cart == Some(Cart.Added(OrEmpty(cart), item)) && o.result.value == [Reply(call, AddedText(item.name, user))]
    ensures o.result.Err? ==> OrEmpty(o.cart) == OrEmpty(cart)
    ensures (cart.None? || Cart.Consistent(cart.value)) ==> (o.cart.None? || Cart.Consistent(o.cart.value))
  {
    Cart.EmptyIsConsistent();
    match ExpectedCall(messages, Tools.AddBurgerToCartToolName)
    case Err(e) => NodeOutcome(cart, Err(e))
    case Ok(call) =>
      match ItemPayload(call)
      case None => NodeOutcome(Some(OrEmpty(cart)), Err(NotAnItem))
      case Some(item) => NodeOutcome(Some(Cart.Added(OrEmpty(cart), item)), Ok([Reply(call, AddedText(item.name, user))]))
  }

  /**
   * `remove_burger_from_cart` on values: checks the call, lazily creates the
   * cart, removes the first equal line and lowers the totals. With no equal
   * line, or a payload that is no line at all, `list.remove` raises and the
   * totals are untouched.
   */
  function RemoveBurgerFromCartStep(messages: seq<Message>, cart: Option<PurchaseInfo>, user: string): (o: NodeOutcome)
    ensures ExpectedCall(messages, Tools.RemoveBurgerFromCartToolName).Err? ==> o == NodeOutcome(cart, Err(ExpectedCall(messages, Tools.RemoveBurgerFromCartToolName).error))
    ensures o.result.Ok? <==> ExpectedCall(messages, Tools.RemoveBurgerFromCartToolName).Ok?
                              && ItemPayload(ExpectedCall(messages, Tools.RemoveBurgerFromCartToolName).value).Some?
                              && ItemPayload(ExpectedCall(messages, Tools.RemoveBurgerFromCartToolName).value).value in OrEmpty(cart).items
    ensures o.result.Ok? ==>
              var call := ExpectedCall(messages, Tools.RemoveBurgerFromCartToolName).value;
              var item := ItemPayload(call).value;
              Cart.Removed(OrEmpty(cart), item).Ok?
              && o.cart == Some(Cart.Removed(OrEmpty(cart), item).value)
              && o.result.value == [Reply(call, RemovedText(item.name, user))]
    ensures o.result.Err? ==> OrEmpty(o.cart) == OrEmpty(cart)
    ensures (cart.None? || Cart.Consistent(cart.value)) ==> (o.cart.None? || Cart.Consistent(o.cart.value))
  {
    Cart.EmptyIsConsistent();
    match ExpectedCall(messages, Tools.RemoveBurgerFromCartToolName)
    case Err(e) => NodeOutcome(cart, Err(e))
    case Ok(call) =>
      match ItemPayload(call)
      case None => NodeOutcome(Some(OrEmpty(cart)), Err(ItemNotFound))
      case Some(item) =>
        match Cart.Removed(OrEmpty(cart), item)
        case Err(_) => NodeOutcome(Some(OrEmpty(cart)), Err(ItemNotFound))
        case Ok(after) => NodeOutcome(Some(after), Ok([Reply(call, RemovedText(item.name, user))]))
  }

  /** `add_burger_to_cart`, updating the state's cart object in place. */
  method AddBurgerToCart(state: State, config: Option<Configuration.RunnableConfig>, env: map<string, string>)
    returns (r: Result<seq<Message>, NodeError>)
    modifies state, state.purchaseInformation
    ensures state.messages == old(state.messages)
    ensures old(state.purchaseInformation) != null ==> state.purchaseInformation == old(state.purchaseInformation)
    ensures old(state.purchaseInformation) == null && state.purchaseInformation != null ==> fresh(state.purchaseInformation)
    ensures var o := AddBurgerToCartStep(old(state.messages), old(state.Cart()), Tools.UserId(config, env));
            state.Cart() == o.cart && r == o.result
  {
    var user := Tools.UserId(config, env);
    var call := ExpectedCall(state.messages, Tools.AddBurgerToCartToolName);
    if call.Err? {
      return Err(call.error);
    }
    var payload := ItemPayload(call.value);
    var cart := state.EnsurePurchaseInformation();
    if payload.None? {
      return Err(NotAnItem);
    }
    cart.AddLine(payload.value);
    r := Ok([Reply(call.value, AddedText(payload.value.name, user))]);
  }

  /** `remove_burger_from_cart`, updating the state's cart object in place. */
  method RemoveBurgerFromCart(state: State, config: Option<Configuration.RunnableConfig>, env: map<string, string>)
    returns (r: Result<seq<Message>, NodeError>)
    modifies state, state.purchaseInformation
    ensures state.messages == old(state.messages)
    ensures old(state.purchaseInformation) != null ==> state.purchaseInformation == old(state.purchaseInformation)
    ensures old(state.purchaseInformation) == null && state.purchaseInformation != null ==> fresh(state.purchaseInformation)
    ensures var o := RemoveBurgerFromCartStep(old(state.messages), old(state.Cart()), Tools.UserId(config, env));
            state.Cart() == o.cart && r == o.result
  {
    var user := Tools.UserId(config, env);
    var call := ExpectedCall(state.messages, Tools.RemoveBurgerFromCartToolName);
    if call.Err? {
      return Err(call.error);
    }
    var payload := ItemPayload(call.value);
    var cart := state.EnsurePurchaseInformation();
    if payload.None? {
      return Err(ItemNotFound);
    }
    var removed := cart.RemoveLine(payload.value);
    if removed.Err? {
      return Err(ItemNotFound);
    }
    r := Ok([Reply(call.value, RemovedText(payload.value.name, user))]);
  }

  /** A model turn asking for one cart tool with the given line. */
  function CartTurn(toolName: string, item: PurchaseBurgerItem): Message
  {
    AIMessage("", [ToolCall("call", toolName, map[ItemArgKey := ItemArg(item)])])
  }

  lemma CartTurnCall(history: seq<Message>, toolName: string, item: PurchaseBurgerItem)
    ensures ExpectedCall(history + [CartTurn(toolName, item)], toolName).Ok?
    ensures ItemPayload(ExpectedCall(history + [CartTurn(toolName, item)], toolName).value) == Some(item)
  {
    var calls := Last(history + [CartTurn(toolName, item)]).toolCalls;
    assert calls[0].name == toolName;
  }

  /**
   * The add node followed by the remove node for the same line restores all
   * three totals and the multiset of lines; when the line was not in the cart
   * before, the cart is exactly restored.
   */
  lemma AddNodeThenRemoveNode(h1: seq<Message>, h2: seq<Message>, cart: Option<PurchaseInfo>, item: PurchaseBurgerItem, user: string)
    ensures var added := AddBurgerToCartStep(h1 + [CartTurn(Tools.AddBurgerToCartToolName, item)], cart, user);
            var removed := RemoveBurgerFromCartStep(h2 + [CartTurn(Tools.RemoveBurgerFromCartToolName, item)], added.cart, user);
            added.result.Ok? && removed.result.Ok?
            && removed.cart.value.totalItems == OrEmpty(cart).totalItems
            && removed.cart.value.totalQuantity == OrEmpty(cart).totalQuantity
            && removed.cart.value.totalPrice == OrEmpty(cart).totalPrice
            && multiset(removed.cart.value.items) == multiset(OrEmpty(cart).items)
            && (item !in OrEmpty(cart).items ==> removed.cart == Some(OrEmpty(cart)))
  {
    CartTurnCall(h1, Tools.AddBurgerToCartToolName, item);
    CartTurnCall(h2, Tools.RemoveBurgerFromCartToolName, item);
    Cart.AddThenRemove(OrEmpty(cart), item);
  }

  /** A remove call for a line the cart does not hold raises and leaves the totals alone. */
  lemma RemoveNodeOfAbsentLine(h: seq<Message>, cart: Option<PurchaseInfo>, item: PurchaseBurgerItem, user: string)
    requires item !in OrEmpty(cart).items
    ensures var o := RemoveBurgerFromCartStep(h + [CartTurn(Tools.RemoveBurgerFromCartToolName, item)], cart, user);
            o.result == Err(ItemNotFound) && o.cart == Some(OrEmpty(cart))
  {
    CartTurnCall(h, Tools.RemoveBurgerFromCartToolName, item);
  }

  /** Two 빅맥® at 6900 KRW into a missing cart, and out again. */
  lemma BigMacScenario()
    ensures var line := NewPurchaseBurgerItem(7, "빅맥®", 6900, 2);
            var added := AddBurgerToCartStep([CartTurn(Tools.AddBurgerToCartToolName, line)], None, "default");
            added.cart == Some(PurchaseInfo([line], 13800, 1, 2))
            && RemoveBurgerFromCartStep([CartTurn(Tools.RemoveBurgerFromCartToolName, line)], added.cart, "default").cart
               == Some(EmptyPurchaseInfo)
  {
    var line := NewPurchaseBurgerItem(7, "빅맥®", 6900, 2);
    CartTurnCall([], Tools.AddBurgerToCartToolName, line);
    CartTurnCall([], Tools.RemoveBurgerFromCartToolName, line);
    Cart.AddThenRemove(EmptyPurchaseInfo, line);
    assert [] + [CartTurn(Tools.AddBurgerToCartToolName, line)] == [CartTurn(Tools.AddBurgerToCartToolName, line)];
    assert [] + [CartTurn(Tools.RemoveBurgerFromCartToolName, line)] == [CartTurn(Tools.RemoveBurgerFromCartToolName, line)];
  }

  // ---------------------------------------------------------------------------
  // Purchase flow

  /** What `prepare_purchase_burger_items` hands back to the framework. */
  datatype PrepareUpdate =
    | AskForPurchaseInformation(messages: seq<Message>)   // `{"messages": ...}`
    | OverwritePurchaseInformation(payload: ArgValue)     // `{"purchase_information": ...}`

  const AskPurchaseText: string := "Please provide the purchasing burgers to further process your order."

  function MissingInformationText(toolName: string): string
  {
    "Please provide the missing information for the " + toolName + " tool."
  }

  /** One tool message per tool call of the model's turn, carrying the call's id as its message id. */
  function MissingInformationMessages(calls: seq<ToolCall>): (r: seq<Message>)
    ensures |r| == |calls|
    ensures forall i :: 0 <= i < |calls| ==> r[i] == ToolMessage(MissingInformationText(calls[i].name), None, None, Some(calls[i].id))
  {
    seq(|calls|, i requires 0 <= i < |calls| => ToolMessage(MissingInformationText(calls[i].name), None, None, Some(calls[i].id)))
  }

  /**
   * `prepare_purchase_burger_items`: with a missing or falsy
   * `purchase_information` argument it asks for it, once per tool call and
   * once more as the assistant; otherwise the argument replaces the cart as is.
   */
  function PreparePurchaseBurgerItems(messages: seq<Message>): (r: Result<PrepareUpdate, NodeError>)
    ensures r.Err? <==> ExpectedCall(messages, Tools.PurchaseBurgerItemsName).Err?
    ensures r.Ok? && r.value.OverwritePurchaseInformation? ==> ArgTruthy(r.value.payload)
    ensures r.Ok? && r.value.AskForPurchaseInformation? ==>
              |r.value.messages| == |Last(messages).toolCalls| + 1
              && r.value.messages[|r.value.messages| - 1] == AIMessage(AskPurchaseText, [])
  {
    match ExpectedCall(messages, Tools.PurchaseBurgerItemsName)
    case Err(e) => Err(e)
    case Ok(call) =>
      var arg := if PurchaseArgKey in call.args then call.args[PurchaseArgKey] else Null;
      if !ArgTruthy(arg) then
        Ok(AskForPurchaseInformation(MissingInformationMessages(Last(messages).toolCalls) + [AIMessage(AskPurchaseText, [])]))
      else
        Ok(OverwritePurchaseInformation(arg))
  }

  /** The cases of the prepare node and what each hands back. */
  lemma PrepareCases(messages: seq<Message>)
    ensures var call := ExpectedCall(messages, Tools.PurchaseBurgerItemsName);
            var r := PreparePurchaseBurgerItems(messages);
            (call.Err? ==> r == Err(call.error))
            && (call.Ok? && PurchaseArgKey in call.value.args && ArgTruthy(call.value.args[PurchaseArgKey])
                ==> r == Ok(OverwritePurchaseInformation(call.value.args[PurchaseArgKey])))
            && (call.Ok? && !(PurchaseArgKey in call.value.args && ArgTruthy(call.value.args[PurchaseArgKey]))
                ==> r.Ok? && r.value.AskForPurchaseInformation?
                    && |r.value.messages| == |Last(messages).toolCalls| + 1
                    && (forall i :: 0 <= i < |Last(messages).toolCalls| ==>
                          r.value.messages[i].ToolMessage? && r.value.messages[i].id == Some(Last(messages).toolCalls[i].id))
                    && r.value.messages[|r.value.messages| - 1] == AIMessage(AskPurchaseText, []))
  {
  }

  /** The messages an update of the prepare node appends to the log. */
  function Appended(u: PrepareUpdate): seq<Message>
  {
    match u
    case AskForPurchaseInformation(m) => m
    case OverwritePurchaseInformation(_) => []
  }

  /** `purchase_approval`: passes only when the last message is a tool result. */
  function PurchaseApproval(messages: seq<Message>): (r: Result<(), NodeError>)
    ensures r.Ok? <==> messages != [] && Last(messages).ToolMessage?
    ensures r.Err? ==> r.error == (if messages == [] then IndexError else NotConfirmed)
  {
    if messages == [] then Err(IndexError)
    else if Last(messages).ToolMessage? then Ok(())
    else Err(NotConfirmed)
  }

  /**
   * Whatever the prepare node does, the message it leaves last is not a tool
   * result: its ask ends with an assistant message, and an overwrite appends
   * nothing after the model's turn. So when prepare is the only node of its
   * step, the approval gate on the fixed edge after it raises.
   */
  lemma PrepareNeverSatisfiesApproval(messages: seq<Message>)
    requires PreparePurchaseBurgerItems(messages).Ok?
    ensures PurchaseApproval(messages + Appended(PreparePurchaseBurgerItems(messages).value)) == Err(NotConfirmed)
  {
    var u := PreparePurchaseBurgerItems(messages).value;
    var after := messages + Appended(u);
    if u.AskForPurchaseInformation? {
      assert Last(after) == Last(u.messages);
    } else {
      assert after == messages;
    }
  }

  /**
   * The approval gate does pass when the prepare node shares its step with
   * another node: a turn calling the purchase tool and the suggestion tool
   * fans out to prepare and to the generic tool node, whose tool result then
   * ends the log.
   */
  lemma FanoutWithToolResultPassesApproval(info: PurchaseInfo, result: Message)
    requires result.ToolMessage?
    ensures var turn := AIMessage("", [ToolCall("call-1", Tools.PurchaseBurgerItemsName, map[PurchaseArgKey := PurchaseArg(info)]),
                                       ToolCall("call-2", Tools.SuggestBurgersName, map[])]);
            ShouldContinue([turn]) == Ok(Fanout([PreparePurchaseBurgerItemsNode, ToolsNode]))
            && PreparePurchaseBurgerItems([turn]) == Ok(OverwritePurchaseInformation(PurchaseArg(info)))
            && PurchaseApproval([turn] + Appended(PreparePurchaseBurgerItems([turn]).value) + [result]) == Ok(())
  {
    var turn := AIMessage("", [ToolCall("call-1", Tools.PurchaseBurgerItemsName, map[PurchaseArgKey := PurchaseArg(info)]),
                               ToolCall("call-2", Tools.SuggestBurgersName, map[])]);
    Tools.AllToolsDistinct();
    assert turn.toolCalls[0].name == Tools.AllTools[0];
    assert turn.toolCalls[1].name == Tools.AllTools[1];
    assert RouteCalls(turn.toolCalls) == [PreparePurchaseBurgerItemsNode, ToolsNode];
  }

  predicate Either(c: char, lower: char, upper: char)
  {
    c == lower || c == upper
  }

  /** "y" or "yes" in any mix of cases: the ten spellings the decision accepts. */
  predicate SaysYes(s: string)
  {
    (|s| == 1 && Either(s[0], 'y', 'Y'))
    || (|s| == 3 && Either(s[0], 'y', 'Y') && Either(s[1], 'e', 'E') && Either(s[2], 's', 'S'))
  }

  /** `should_execute_purchase`. */
  function ShouldExecutePurchase(messages: seq<Message>): (r: Result<Node, NodeError>)
    ensures r.Err? <==> messages == []
    ensures r.Ok? ==> (r.value == ExecutePurchaseNode <==> SaysYes(Last(messages).content))
    ensures r.Ok? ==> r.value in {ExecutePurchaseNode, AgentNode}
  {
    if messages == [] then Err(IndexError)
    else
      var decision := Text.Lower(Last(messages).content);
      LowerSaysYes(Last(messages).content);
      if decision == "yes" || decision == "y" then Ok(ExecutePurchaseNode) else Ok(AgentNode)
  }

  lemma LowerCharIs(c: char, lower: char, upper: char)
    requires 'a' <= lower <= 'z' && upper as int == lower as int - 32
    ensures Text.LowerChar(c) == lower <==> Either(c, lower, upper)
  {
  }

  /** Lower-casing then comparing with "yes" and "y" accepts exactly the spellings of `SaysYes`. */
  lemma LowerSaysYes(s: string)
    ensures (Text.Lower(s) == "yes" || Text.Lower(s) == "y") <==> SaysYes(s)
  {
    var l := Text.Lower(s);
    if |s| >= 1 {
      LowerCharIs(s[0], 'y', 'Y');
    }
    if |s| == 3 {
      LowerCharIs(s[1], 'e', 'E');
      LowerCharIs(s[2], 's', 'S');
      if SaysYes(s) {
        assert l == [l[0], l[1], l[2]] == "yes";
      }
    }
    if |s| == 1 && SaysYes(s) {
      assert l == [l[0]] == "y";
    }
  }

  const ExecuteToolName: string := "execute_purchase"
  const SuccessJson: string := "{\"success\": true}"
  const PurchasedPrefix: string := "Successfully purchased "
  const PurchasedMiddle: string := "items for a total of "
  const PurchasedSuffix: string := "KRW."

  /** The closing text naming `total_quantity` and `total_price`. */
  function PurchaseSummary(quantity: int, price: int): string
  {
    PurchasedPrefix + Text.IntToString(quantity) + " " + PurchasedMiddle + Text.IntToString(price) + " " + PurchasedSuffix
  }

  /** Reads quantity and price back out of a closing text. */
  function ReadPurchaseSummary(text: string): Option<(int, int)>
  {
    match Text.AfterPrefix(text, PurchasedPrefix)
    case None => None
    case Some(r1) =>
      match Text.ReadNumber(r1)
      case None => None
      case Some((quantity, r2)) =>
        match Text.AfterPrefix(r2, PurchasedMiddle)
        case None => None
        case Some(r3) =>
          match Text.ReadNumber(r3)
          case None => None
          case Some((price, r4)) => if r4 == PurchasedSuffix then Some((quantity, price)) else None
  }

  lemma ReadPurchaseSummaryBack(quantity: int, price: int)
    ensures ReadPurchaseSummary(PurchaseSummary(quantity, price)) == Some((quantity, price))
  {
    var q := Text.IntToString(quantity);
    var p := Text.IntToString(price);
    var r3 := p + " " + PurchasedSuffix;
    var r2 := PurchasedMiddle + r3;
    var r1 := q + " " + r2;
    assert PurchaseSummary(quantity, price) == PurchasedPrefix + r1;
    Text.AfterPrefixOf(PurchasedPrefix, r1);
    Text.ReadNumberOf(quantity, r2);
    Text.AfterPrefixOf(PurchasedMiddle, r3);
    Text.ReadNumberOf(price, PurchasedSuffix);
  }

  /**
   * `execute_purchase`, with the `random.random()` text of the call id
   * passed in: raises without a cart, otherwise emits the model's tool call,
   * its result and the closing text.
   */
  function ExecutePurchase(cart: Option<PurchaseInfo>, randomValue: string): (r: Result<seq<Message>, NodeError>)
    ensures r.Err? <==> cart.None?
    ensures r.Err? ==> r.error == NoPurchaseInformation
    ensures r.Ok? ==> |r.value| == 3
    ensures r.Ok? ==> r.value[0].AIMessage? && |r.value[0].toolCalls| == 1
                      && r.value[0].toolCalls[0].name == ExecuteToolName
                      && r.value[0].toolCalls[0].args == map[PurchaseArgKey := PurchaseArg(cart.value)]
    ensures r.Ok? ==> r.value[1].ToolMessage? && r.value[1].toolCallId == Some(r.value[0].toolCalls[0].id)
                      && r.value[1].name == Some(ExecuteToolName) && r.value[1].content == SuccessJson
    ensures r.Ok? ==> r.value[2].AIMessage? && r.value[2].toolCalls == []
                      && ReadPurchaseSummary(r.value[2].content) == Some((cart.value.totalQuantity, cart.value.totalPrice))
  {
    match cart
    case None => Err(NoPurchaseInformation)
    case Some(info) =>
      var id := "tool_" + randomValue;
      ReadPurchaseSummaryBack(info.totalQuantity, info.totalPrice);
      Ok([AIMessage("", [ToolCall(id, ExecuteToolName, map[PurchaseArgKey := PurchaseArg(info)])]),
          ToolMessage(SuccessJson, Some(id), Some(ExecuteToolName), None),
          AIMessage(PurchaseSummary(info.totalQuantity, info.totalPrice), [])])
  }

  // ---------------------------------------------------------------------------
  // Edge table

  /** The fixed edges: each source node's single successor. */
  function FixedSuccessor(n: Node): (r: Option<Node>)
    ensures r.None? <==> n in {AgentNode, PurchaseApprovalNode, EndNode}
    ensures r.Some? ==> ConditionalTargets(n) == {} && r.value != StartNode
  {
    match n
    case StartNode => Some(AgentNode)
    case ToolsNode => Some(AgentNode)
    case AddBurgerToCartNode => Some(AgentNode)
    case RemoveBurgerFromCartNode => Some(AgentNode)
    case ExecutePurchaseNode => Some(EndNode)
    case PreparePurchaseBurgerItemsNode => Some(PurchaseApprovalNode)
    case _ => None
  }

  /** The declared targets of the conditional edges. */
  function ConditionalTargets(n: Node): (r: set<Node>)
    ensures r != {} <==> n == AgentNode || n == PurchaseApprovalNode
    ensures EndNode in r ==> n == AgentNode
    ensures StartNode !in r
  {
    match n
    case AgentNode => {ToolsNode, EndNode, PreparePurchaseBurgerItemsNode, AddBurgerToCartNode, RemoveBurgerFromCartNode}
    case PurchaseApprovalNode => {ExecutePurchaseNode, AgentNode}
    case _ => {}
  }

  function Successors(n: Node): set<Node>
  {
    (if FixedSuccessor(n).Some? then {FixedSuccessor(n).value} else {}) + ConditionalTargets(n)
  }

  /** A run of the graph from START along declared edges. */
  predicate IsPath(p: seq<Node>)
  {
    |p| >= 1 && p[0] == StartNode && forall i :: 0 < i < |p| ==> p[i] in Successors(p[i - 1])
  }

  /** Who may come right before a node of the purchase flow. */
  lemma Predecessors(n: Node)
    ensures ExecutePurchaseNode in Successors(n) <==> n == PurchaseApprovalNode
    ensures PurchaseApprovalNode in Successors(n) <==> n == PreparePurchaseBurgerItemsNode
    ensures PreparePurchaseBurgerItemsNode in Successors(n) <==> n == AgentNode
    ensures StartNode !in Successors(n)
    ensures Successors(EndNode) == {}
  {
  }

  /**
   * On any run, the purchase is executed only right after the approval gate,
   * which comes right after the prepare node, which the agent step scheduled.
   */
  lemma ExecuteOnlyAfterPrepareAndApproval(p: seq<Node>, i: int)
    requires IsPath(p) && 0 <= i < |p| && p[i] == ExecutePurchaseNode
    ensures i >= 3
    ensures p[i - 1] == PurchaseApprovalNode && p[i - 2] == PreparePurchaseBurgerItemsNode && p[i - 3] == AgentNode
  {
    assert i > 0;
    Predecessors(p[i - 1]);
    assert i - 1 > 0;
    Predecessors(p[i - 2]);
    assert i - 2 > 0;
    Predecessors(p[i - 3]);
  }

  /** Every node the router can name is a declared target of the agent's conditional edge, except its recovery step back to the agent. */
  lemma RouterTargets(messages: seq<Message>)
    requires ShouldContinue(messages).Ok?
    ensures var route := ShouldContinue(messages).value;
            (route.Goto? ==> (route.node in ConditionalTargets(AgentNode) <==> route.node == EndNode))
            && (route.Fanout? ==> forall i :: 0 <= i < |route.nodes| ==> route.nodes[i] in ConditionalTargets(AgentNode))
  {
  }

  /** The recovery route "agent" is not among the agent node's declared targets. */
  lemma RecoveryTargetUndeclared()
    ensures ShouldContinue([HumanMessage("")]) == Ok(Goto(AgentNode))
    ensures AgentNode !in ConditionalTargets(AgentNode)
  {
  }

  /** The decision after approval only names the declared targets of the approval node. */
  lemma DecisionTargetsDeclared(messages: seq<Message>)
    requires ShouldExecutePurchase(messages).Ok?
    ensures ShouldExecutePurchase(messages).value in ConditionalTargets(PurchaseApprovalNode)
  {
  }
}

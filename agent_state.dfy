/**
 * The mutable objects of src/agent/state.py: a `PurchaseInformation` whose
 * fields the cart nodes and tools update in place, and the graph `State`
 * holding the message log and an optional cart. Messages and tool calls are
 * the framework's message objects reduced to what the core reads.
 */
module AgentState {
  import opened Wrappers
  import opened Records
  import Cart
  import Json
  import Text

  /** A value found in a tool call's `args` dict. `Null` is JSON null, `EmptyObject` is `{}`. */
  datatype ArgValue = Null | EmptyObject | ItemArg(item: PurchaseBurgerItem) | PurchaseArg(info: PurchaseInfo)

  /** Python truthiness of an argument: None and an empty dict are false. */
  predicate ArgTruthy(v: ArgValue)
  {
    !v.Null? && !v.EmptyObject?
  }

  datatype ToolCall = ToolCall(id: string, name: string, args: map<string, ArgValue>)

  /**
   * The message kinds of the log. A tool message carries its `tool_call_id`,
   * its tool `name` and its own message `id`, each possibly absent.
   */
  datatype Message =
    | HumanMessage(content: string)
    | SystemMessage(content: string)
    | AIMessage(content: string, toolCalls: seq<ToolCall>)
    | ToolMessage(content: string, toolCallId: Option<string>, name: Option<string>, id: Option<string>)

  /** The cart a missing one stands for once it is lazily created. */
  function OrEmpty(cart: Option<PurchaseInfo>): (p: PurchaseInfo)
    ensures cart.None? ==> p == EmptyPurchaseInfo
    ensures cart.Some? ==> p == cart.value
  {
    match cart
    case None => EmptyPurchaseInfo
    case Some(p) => p
  }

  class PurchaseInformation {
    var items: seq<PurchaseBurgerItem>
    var totalPrice: int
    var totalItems: int
    var totalQuantity: int

    /** `PurchaseInformation()`: no items, all totals zero. */
    constructor ()
      ensures Value() == EmptyPurchaseInfo
      ensures Valid()
    {
      items := [];
      totalPrice := 0;
      totalItems := 0;
      totalQuantity := 0;
    }

    /** The object's fields as a value. */
    function Value(): PurchaseInfo
      reads this
    {
      PurchaseInfo(items, totalPrice, totalItems, totalQuantity)
    }

    /** The cart invariant: the totals agree with the items. */
    predicate Valid()
      reads this
    {
      Cart.Consistent(Value())
    }

    /** `dict()`: the dataclass fields, each value passed through `str`. */
    function Dict(): (d: seq<(string, string)>)
      reads this
      ensures Keys(d) == InfoFields
      ensures d == InfoDict(Value())
      ensures Text.ParseInt(d[1].1) == Some(totalPrice) && Text.ParseInt(d[2].1) == Some(totalItems)
      ensures Text.ParseInt(d[3].1) == Some(totalQuantity) && d[0].1 == ReprItems(items)
    {
      Text.ParseIntToString(totalPrice);
      Text.ParseIntToString(totalItems);
      Text.ParseIntToString(totalQuantity);
      InfoDict(Value())
    }

    /** `json()`: `json.dumps(self.dict())`. */
    function JsonText(): (r: string)
      reads this
      ensures r == Json.ObjectText(Dict())
    {
      InfoJson(Value())
    }

    /**
     * Appends a line and raises `total_items` by one, `total_quantity` by its
     * quantity and `total_price` by price times quantity, in place.
     */
    method AddLine(item: PurchaseBurgerItem)
      modifies this
      ensures Value() == Cart.Added(old(Value()), item)
      ensures old(Valid()) ==> Valid()
    {
      items := items + [item];
      totalItems := totalItems + 1;
      totalQuantity := totalQuantity + item.quantity;
      totalPrice := totalPrice + item.price * item.quantity;
    }

    /**
     * `items.remove(item)` followed by lowering the three totals. With no
     * equal line `list.remove` raises, before any total is touched.
     */
    method RemoveLine(item: PurchaseBurgerItem) returns (r: Result<(), Cart.CartError>)
      modifies this
      ensures r.Err? <==> item !in old(items)
      ensures r.Err? ==> Value() == old(Value())
      ensures r.Ok? ==> Cart.Removed(old(Value()), item) == Ok(Value())
      ensures old(Valid()) ==> Valid()
    {
      if item !in items {
        return Err(Cart.ItemNotFound);
      }
      items := Cart.RemoveFirst(items, item);
      totalItems := totalItems - 1;
      totalQuantity := totalQuantity - item.quantity;
      totalPrice := totalPrice - item.price * item.quantity;
      r := Ok(());
    }
  }

  class State {
    var messages: seq<Message>
    var purchaseInformation: PurchaseInformation?

    /** `State(messages)`: `purchase_information` defaults to None. */
    constructor (messages: seq<Message>)
      ensures this.messages == messages
      ensures purchaseInformation == null
    {
      this.messages := messages;
      purchaseInformation := null;
    }

    /** The cart as a value, `None` while there is none. */
    function Cart(): Option<PurchaseInfo>
      reads this, purchaseInformation
    {
      if purchaseInformation == null then None else Some(purchaseInformation.Value())
    }

    /** `if state.purchase_information is None: state.purchase_information = PurchaseInformation()`. */
    method EnsurePurchaseInformation() returns (cart: PurchaseInformation)
      modifies this
      ensures purchaseInformation == cart
      ensures messages == old(messages)
      ensures old(purchaseInformation) != null ==> cart == old(purchaseInformation)
      ensures old(purchaseInformation) == null ==> fresh(cart)
      ensures cart.Value() == OrEmpty(old(Cart()))
    {
      if purchaseInformation == null {
        purchaseInformation := new PurchaseInformation();
      }
      cart := purchaseInformation;
    }
  }
}

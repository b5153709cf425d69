/**
 * The tools of src/agent/tools.py that the agent may call: their names as
 * the router sees them, the two pure tools, the read-only cart query and the
 * two cart tools that update the injected state in place.
 */
module Tools {
  import opened Wrappers
  import opened Records
  import Text
  import Cart
  import Constants
  import Configuration
  import opened AgentState

  const PurchaseBurgerItemsName: string := "purchase_burger_items"
  const SuggestBurgersName: string := "suggest_burgers"
  const GetCurrentPurchaseInformationName: string := "get_current_purchase_information"
  const AddBurgerToCartToolName: string := "add_burger_to_cart_tool"
  const RemoveBurgerFromCartToolName: string := "remove_burger_from_cart_tool"

  /** `ALL_TOOLS`, by tool name, in list order. */
  const AllTools: seq<string> := [
    PurchaseBurgerItemsName,
    SuggestBurgersName,
    GetCurrentPurchaseInformationName,
    AddBurgerToCartToolName,
    RemoveBurgerFromCartToolName
  ]

  lemma AllToolsDistinct()
    ensures |AllTools| == 5
    ensures forall i, j :: 0 <= i < j < |AllTools| ==> AllTools[i] != AllTools[j]
  {
    assert AllTools[0][0] == 'p' && AllTools[1][0] == 's' && AllTools[2][0] == 'g';
    assert AllTools[3][0] == 'a' && AllTools[4][0] == 'r';
  }

  /** `f"{user_id}"` of the resolved configuration. */
  function UserId(config: Option<Configuration.RunnableConfig>, env: map<string, string>): string
  {
    Configuration.ToStr(Configuration.FromRunnableConfig(config, env).userId)
  }

  /** The dict `suggest_burgers` returns: `{"burgerItems": burger_menus}`. */
  datatype Suggestions = Suggestions(burgerItems: seq<Constants.MenuEntry>)

  /** `suggest_burgers`: the whole static catalogue, whatever the state. */
  function SuggestBurgers(state: State): (r: Suggestions)
    ensures r.burgerItems == Constants.BurgerMenus
    ensures |r.burgerItems| == 18
  {
    Constants.CatalogueWellFormed();
    Suggestions(Constants.BurgerMenus)
  }

  const ConfirmedPrefix: string := "Confirmed purchase of "
  const ConfirmedMiddle: string := "for "

  /**
   * `purchase_burger_items`: a confirmation naming the payload's
   * `total_quantity` and the user. It reads nothing else and changes nothing.
   */
  function PurchaseBurgerItems(info: PurchaseInfo, config: Option<Configuration.RunnableConfig>,
                               env: map<string, string>): (r: string)
    ensures ReadConfirmedQuantity(r) == Some(info.totalQuantity)
  {
    ConfirmationReadsBack(info.totalQuantity, UserId(config, env));
    Confirmation(info.totalQuantity, UserId(config, env))
  }

  function Confirmation(quantity: int, user: string): string
  {
    ConfirmedPrefix + Text.IntToString(quantity) + " " + ConfirmedMiddle + user + "."
  }

  /** Reads the quantity back out of a confirmation text. */
  function ReadConfirmedQuantity(text: string): Option<int>
  {
    if |text| < |ConfirmedPrefix| || text[..|ConfirmedPrefix|] != ConfirmedPrefix then None
    else Text.ParseInt(Text.UntilSpace(text[|ConfirmedPrefix|..]))
  }

  lemma ConfirmationReadsBack(quantity: int, user: string)
    ensures ReadConfirmedQuantity(Confirmation(quantity, user)) == Some(quantity)
  {
    var q := Text.IntToString(quantity);
    var rest := ConfirmedMiddle + user + ".";
    var text := Confirmation(quantity, user);
    assert text == ConfirmedPrefix + (q + " " + rest);
    assert text[..|ConfirmedPrefix|] == ConfirmedPrefix;
    assert text[|ConfirmedPrefix|..] == q + " " + rest;
    Text.IntToStringHasNoSpace(quantity);
    Text.UntilSpaceOfWord(q, rest);
    Text.ParseIntToString(quantity);
  }

  /** `get_current_purchase_information`: the state's cart object itself, possibly None. */
  method GetCurrentPurchaseInformation(state: State) returns (r: PurchaseInformation?)
    ensures r == state.purchaseInformation
    ensures r != null ==> r.Value() == state.Cart().value
  {
    r := state.purchaseInformation;
  }

  /**
   * `add_burger_to_cart_tool`: lazily creates the cart, appends the line,
   * raises the totals, and returns the cart's `json()` after the update.
   */
  method AddBurgerToCartTool(state: State, item: PurchaseBurgerItem) returns (text: string)
    modifies state, state.purchaseInformation
    ensures state.messages == old(state.messages)
    ensures state.purchaseInformation != null
    ensures old(state.purchaseInformation) != null ==> state.purchaseInformation == old(state.purchaseInformation)
    ensures old(state.purchaseInformation) == null ==> fresh(state.purchaseInformation)
    ensures state.Cart() == Some(Cart.Added(OrEmpty(old(state.Cart())), item))
    ensures text == state.purchaseInformation.JsonText()
  {
    var cart := state.EnsurePurchaseInformation();
    cart.AddLine(item);
    text := cart.JsonText();
  }

  /**
   * `remove_burger_from_cart_tool`: lazily creates the cart, removes the
   * first equal line and lowers the totals, and returns the cart's `json()`.
   * With no equal line the tool raises and only the lazy creation remains.
   */
  method RemoveBurgerFromCartTool(state: State, item: PurchaseBurgerItem) returns (r: Result<string, Cart.CartError>)
    modifies state, state.purchaseInformation
    ensures state.messages == old(state.messages)
    ensures state.purchaseInformation != null
    ensures old(state.purchaseInformation) != null ==> state.purchaseInformation == old(state.purchaseInformation)
    ensures old(state.purchaseInformation) == null ==> fresh(state.purchaseInformation)
    ensures r.Err? <==> item !in OrEmpty(old(state.Cart())).items
    ensures r.Err? ==> r.error == Cart.ItemNotFound && state.Cart() == Some(OrEmpty(old(state.Cart())))
    ensures r.Ok? ==> Cart.Removed(OrEmpty(old(state.Cart())), item) == Ok(state.Cart().value)
    ensures r.Ok? ==> r.value == state.purchaseInformation.JsonText()
  {
    var cart := state.EnsurePurchaseInformation();
    var removed := cart.RemoveLine(item);
    if removed.Err? {
      return Err(removed.error);
    }
    r := Ok(cart.JsonText());
  }
}

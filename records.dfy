/**
 * The dataclass records of src/agent/state.py as values: `BurgerOption`,
 * `PurchaseBurgerItem`, and `PurchaseInfo`, the value held by a
 * `PurchaseInformation` object at one moment. Dataclass `__eq__` compares
 * all fields, which is exactly Dafny's equality on these datatypes.
 * Prices are whole KRW amounts.
 */
module Records {
  import opened Wrappers
  import Text
  import Json

  datatype BurgerOption = BurgerOption(id: int, name: string, price: int)

  datatype PurchaseBurgerItem =
    PurchaseBurgerItem(id: int, name: string, price: int, quantity: int, options: seq<BurgerOption>)

  /** The fields of a `PurchaseInformation`, in declaration order. */
  datatype PurchaseInfo =
    PurchaseInfo(items: seq<PurchaseBurgerItem>, totalPrice: int, totalItems: int, totalQuantity: int)

  /** `PurchaseBurgerItem(id, name, price, quantity)`: `options` defaults to an empty list. */
  function NewPurchaseBurgerItem(id: int, name: string, price: int, quantity: int): (r: PurchaseBurgerItem)
    ensures r.options == []
    ensures r.id == id && r.name == name && r.price == price && r.quantity == quantity
  {
    PurchaseBurgerItem(id, name, price, quantity, [])
  }

  /** `PurchaseInformation()`: no items and every total zero. */
  const EmptyPurchaseInfo: PurchaseInfo := PurchaseInfo([], 0, 0, 0)

  const OptionFields: seq<string> := ["id", "name", "price"]
  const ItemFields: seq<string> := ["id", "name", "price", "quantity", "options"]
  const ItemsKey: string := "items"
  const TotalPriceKey: string := "total_price"
  const TotalItemsKey: string := "total_items"
  const TotalQuantityKey: string := "total_quantity"
  const InfoFields: seq<string> := [ItemsKey, TotalPriceKey, TotalItemsKey, TotalQuantityKey]

  function Keys(pairs: seq<(string, string)>): (ks: seq<string>)
    ensures |ks| == |pairs|
    ensures forall i :: 0 <= i < |pairs| ==> ks[i] == pairs[i].0
  {
    if pairs == [] then [] else [pairs[0].0] + Keys(pairs[1..])
  }

  /** The value stored under `key` in a dict given as its ordered pairs. */
  function Lookup(pairs: seq<(string, string)>, key: string): Option<string>
  {
    if pairs == [] then None
    else if pairs[0].0 == key then Some(pairs[0].1)
    else Lookup(pairs[1..], key)
  }

  /** The first pair with a given key decides the lookup. */
  lemma {:induction false} LookupAt(pairs: seq<(string, string)>, i: nat, key: string)
    requires i < |pairs| && pairs[i].0 == key
    requires forall j :: 0 <= j < i ==> pairs[j].0 != key
    ensures Lookup(pairs, key) == Some(pairs[i].1)
  {
    if i > 0 {
      LookupAt(pairs[1..], i - 1, key);
    }
  }

  // Python's repr() of the values `asdict` produces, as `str()` of a list shows them.

  function ReprStr(s: string): string { "'" + s + "'" }

  function ReprList(parts: seq<string>): string { "[" + Text.Join(", ", parts) + "]" }

  function ReprOption(o: BurgerOption): string
  {
    "{'id': " + Text.IntToString(o.id) + ", 'name': " + ReprStr(o.name)
      + ", 'price': " + Text.IntToString(o.price) + "}"
  }

  function ReprOptions(os: seq<BurgerOption>): (r: string)
  {
    ReprList(seq(|os|, i requires 0 <= i < |os| => ReprOption(os[i])))
  }

  function ReprItem(it: PurchaseBurgerItem): string
  {
    "{'id': " + Text.IntToString(it.id) + ", 'name': " + ReprStr(it.name)
      + ", 'price': " + Text.IntToString(it.price) + ", 'quantity': " + Text.IntToString(it.quantity)
      + ", 'options': " + ReprOptions(it.options) + "}"
  }

  function ReprItems(items: seq<PurchaseBurgerItem>): string
  {
    ReprList(seq(|items|, i requires 0 <= i < |items| => ReprItem(items[i])))
  }

  /** `BurgerOption.dict()`: every field, its value passed through `str`. */
  function OptionDict(o: BurgerOption): (d: seq<(string, string)>)
    ensures Keys(d) == OptionFields
    ensures Text.ParseInt(d[0].1) == Some(o.id) && d[1].1 == o.name && Text.ParseInt(d[2].1) == Some(o.price)
  {
    Text.ParseIntToString(o.id);
    Text.ParseIntToString(o.price);
    [("id", Text.IntToString(o.id)), ("name", o.name), ("price", Text.IntToString(o.price))]
  }

  /** `PurchaseBurgerItem.dict()`. */
  function ItemDict(it: PurchaseBurgerItem): (d: seq<(string, string)>)
    ensures Keys(d) == ItemFields
    ensures Text.ParseInt(d[0].1) == Some(it.id) && d[1].1 == it.name
    ensures Text.ParseInt(d[2].1) == Some(it.price) && Text.ParseInt(d[3].1) == Some(it.quantity)
    ensures d[4].1 == ReprOptions(it.options)
  {
    Text.ParseIntToString(it.id);
    Text.ParseIntToString(it.price);
    Text.ParseIntToString(it.quantity);
    [("id", Text.IntToString(it.id)), ("name", it.name), ("price", Text.IntToString(it.price)),
     ("quantity", Text.IntToString(it.quantity)), ("options", ReprOptions(it.options))]
  }

  /** `PurchaseInformation.dict()`. */
  function InfoDict(p: PurchaseInfo): (d: seq<(string, string)>)
    ensures Keys(d) == InfoFields
  {
    [(ItemsKey, ReprItems(p.items)), (TotalPriceKey, Text.IntToString(p.totalPrice)),
     (TotalItemsKey, Text.IntToString(p.totalItems)), (TotalQuantityKey, Text.IntToString(p.totalQuantity))]
  }

  /** `PurchaseInformation.json()`: `json.dumps` of `dict()`. */
  function InfoJson(p: PurchaseInfo): (r: string)
    ensures |r| >= 2 && r[0] == '{' && r[|r| - 1] == '}'
  {
    Json.ObjectText(InfoDict(p))
  }

  /** The numeric fields of `dict()` read back as the numbers they came from. */
  lemma InfoDictTotals(p: PurchaseInfo)
    ensures Lookup(InfoDict(p), TotalPriceKey).Some?
    ensures Text.ParseInt(Lookup(InfoDict(p), TotalPriceKey).value) == Some(p.totalPrice)
    ensures Lookup(InfoDict(p), TotalItemsKey).Some?
    ensures Text.ParseInt(Lookup(InfoDict(p), TotalItemsKey).value) == Some(p.totalItems)
    ensures Lookup(InfoDict(p), TotalQuantityKey).Some?
    ensures Text.ParseInt(Lookup(InfoDict(p), TotalQuantityKey).value) == Some(p.totalQuantity)
  {
    var d := InfoDict(p);
    LookupAt(d, 1, TotalPriceKey);
    LookupAt(d, 2, TotalItemsKey);
    LookupAt(d, 3, TotalQuantityKey);
    Text.ParseIntToString(p.totalPrice);
    Text.ParseIntToString(p.totalItems);
    Text.ParseIntToString(p.totalQuantity);
  }

  /** The numeric fields of `BurgerOption.dict()`, looked up by key, read back as the numbers they came from. */
  lemma OptionDictNumbers(o: BurgerOption)
    ensures Lookup(OptionDict(o), "id").Some?
    ensures Text.ParseInt(Lookup(OptionDict(o), "id").value) == Some(o.id)
    ensures Lookup(OptionDict(o), "price").Some?
    ensures Text.ParseInt(Lookup(OptionDict(o), "price").value) == Some(o.price)
  {
    var d := OptionDict(o);
    LookupAt(d, 0, "id");
    LookupAt(d, 2, "price");
  }

  /** The numeric fields of `PurchaseBurgerItem.dict()`, looked up by key, read back as the numbers they came from. */
  lemma ItemDictNumbers(it: PurchaseBurgerItem)
    ensures Lookup(ItemDict(it), "id").Some?
    ensures Text.ParseInt(Lookup(ItemDict(it), "id").value) == Some(it.id)
    ensures Lookup(ItemDict(it), "quantity").Some?
    ensures Text.ParseInt(Lookup(ItemDict(it), "quantity").value) == Some(it.quantity)
    ensures Lookup(ItemDict(it), "price").Some?
    ensures Text.ParseInt(Lookup(ItemDict(it), "price").value) == Some(it.price)
  {
    var d := ItemDict(it);
    LookupAt(d, 0, "id");
    LookupAt(d, 2, "price");
    LookupAt(d, 3, "quantity");
  }

  /**
   * In the JSON text the three totals are JSON strings holding their decimal
   * digits, not JSON numbers; the item list is a JSON string holding its repr.
   */
  lemma InfoJsonShape(p: PurchaseInfo)
    ensures InfoJson(p) == "{" + Text.Join(", ", Json.Entries(InfoDict(p))) + "}"
    ensures |Json.Entries(InfoDict(p))| == 4
    ensures Json.Entries(InfoDict(p))[0] == Json.Entry(ItemsKey, ReprItems(p.items))
    ensures Json.Entries(InfoDict(p))[1] == Json.Quote(TotalPriceKey) + ": \"" + Text.IntToString(p.totalPrice) + "\""
    ensures Json.Entries(InfoDict(p))[2] == Json.Quote(TotalItemsKey) + ": \"" + Text.IntToString(p.totalItems) + "\""
    ensures Json.Entries(InfoDict(p))[3] == Json.Quote(TotalQuantityKey) + ": \"" + Text.IntToString(p.totalQuantity) + "\""
  {
    var d := InfoDict(p);
    var es := Json.Entries(d);
    assert d[0] == (ItemsKey, ReprItems(p.items));
    assert d[1] == (TotalPriceKey, Text.IntToString(p.totalPrice));
    assert d[2] == (TotalItemsKey, Text.IntToString(p.totalItems));
    assert d[3] == (TotalQuantityKey, Text.IntToString(p.totalQuantity));
    Json.EntryInt(TotalPriceKey, p.totalPrice);
    Json.EntryInt(TotalItemsKey, p.totalItems);
    Json.EntryInt(TotalQuantityKey, p.totalQuantity);
  }
}

/**
  The cart rules: add a product (merge into its line or append a new one),
  remove a line, set a line's quantity with a floor of 1, and the two sums
  shown to the shopper (the badge count and the cart total).
 */
module CartEngine {
  import opened JsArray
  import opened Entities

  /** The index of the first cart line with that id, as the cart lookup finds it. */
  function FindLine(cart: seq<CartLine>, id: string): (r: Option<nat>)
    ensures r.Some? ==> r.value < |cart| && cart[r.value].id == id
    ensures r.Some? ==> forall j :: 0 <= j < r.value ==> cart[j].id != id
    ensures r.None? ==> forall j :: 0 <= j < |cart| ==> cart[j].id != id
  {
    FindIndex(cart, (l: CartLine) => l.id == id)
  }

  /** The line a first add creates: the product's current id, name, price and image, quantity 1. */
  function NewLine(p: Product): CartLine
  {
    CartLine(p.id, p.name, p.price, p.image, 1)
  }

  /** `addToCart(productId)` on the cart it reads and saves back. */
  function AddToCart(catalog: seq<Product>, cart: seq<CartLine>, productId: string): seq<CartLine>
  {
    match FindProduct(catalog, productId)
    case None => cart
    case Some(k) =>
      match FindLine(cart, productId)
      case Some(i) => cart[i := cart[i].(quantity := cart[i].quantity + 1)]
      case None => cart + [NewLine(catalog[k])]
  }

  /** The `data-remove` branch: drop every line with that id. */
  function RemoveLine(cart: seq<CartLine>, id: string): seq<CartLine>
  {
    Filter(cart, (l: CartLine) => l.id != id)
  }

  /** `Math.max(1, value)`. */
  function ClampQuantity(value: int): (q: int)
    ensures q >= 1
    ensures value >= 1 ==> q == value
    ensures value < 1 ==> q == 1
  {
    if value < 1 then 1 else value
  }

  /** The quantity branch: the first line with that id gets quantity `max(1, value)`. */
  function SetQuantity(cart: seq<CartLine>, id: string, value: int): seq<CartLine>
  {
    match FindLine(cart, id)
    case None => cart
    case Some(i) => cart[i := cart[i].(quantity := ClampQuantity(value))]
  }

  function Quantity(l: CartLine): int { l.quantity }

  function LineTotal(l: CartLine): int { l.price * l.quantity }

  /** The sum of the lines' quantities, shown on the cart badge. */
  function BadgeCount(cart: seq<CartLine>): int
  {
    Sum(cart, Quantity)
  }

  /** The sum over the lines of snapshot price times quantity. */
  function CartTotal(cart: seq<CartLine>): int
  {
    Sum(cart, LineTotal)
  }

  /** Every line has quantity at least 1. */
  predicate QuantitiesPositive(cart: seq<CartLine>)
  {
    forall i :: 0 <= i < |cart| ==> cart[i].quantity >= 1
  }

  /** No two lines share a product id: adding merges instead of duplicating. */
  predicate UniqueIds(cart: seq<CartLine>)
  {
    forall i, j :: 0 <= i < j < |cart| ==> cart[i].id != cart[j].id
  }

  /** The cart invariant every cart operation keeps. */
  predicate ValidCart(cart: seq<CartLine>)
  {
    QuantitiesPositive(cart) && UniqueIds(cart)
  }

  // ----- addToCart -----

  /** An id that is not in the catalog leaves the cart as it was. */
  lemma AddUnknownProduct(catalog: seq<Product>, cart: seq<CartLine>, id: string)
    requires forall j :: 0 <= j < |catalog| ==> catalog[j].id != id
    ensures AddToCart(catalog, cart, id) == cart
  {
  }

  /**
    For a catalog id already in the cart, the first line with that id gains
    exactly one unit and keeps its name, image and price snapshot; every
    other line is unchanged.
   */
  lemma AddExistingLine(catalog: seq<Product>, cart: seq<CartLine>, id: string, i: nat)
    requires exists k :: 0 <= k < |catalog| && catalog[k].id == id
    requires i < |cart| && cart[i].id == id
    requires forall j :: 0 <= j < i ==> cart[j].id != id
    ensures |AddToCart(catalog, cart, id)| == |cart|
    ensures AddToCart(catalog, cart, id)[i].quantity == cart[i].quantity + 1
    ensures AddToCart(catalog, cart, id)[i] == cart[i].(quantity := cart[i].quantity + 1)
    ensures forall j :: 0 <= j < |cart| && j != i ==> AddToCart(catalog, cart, id)[j] == cart[j]
  {
  }

  /**
    For a catalog id not yet in the cart, one line is appended with the
    product's current id, name, price and image and quantity 1; the lines
    already present are unchanged.
   */
  lemma AddNewLine(catalog: seq<Product>, cart: seq<CartLine>, id: string, k: nat)
    requires k < |catalog| && catalog[k].id == id
    requires forall j :: 0 <= j < k ==> catalog[j].id != id
    requires forall j :: 0 <= j < |cart| ==> cart[j].id != id
    ensures AddToCart(catalog, cart, id)[..|cart|] == cart
    ensures AddToCart(catalog, cart, id) == cart + [CartLine(id, catalog[k].name, catalog[k].price, catalog[k].image, 1)]
  {
  }

  /**
    Adding a catalog product twice to a cart without its line gives exactly
    one new line: quantity 2, at the price the product had at the first add.
   */
  lemma AddTwice(catalog: seq<Product>, cart: seq<CartLine>, id: string, k: nat)
    requires k < |catalog| && catalog[k].id == id
    requires forall j :: 0 <= j < k ==> catalog[j].id != id
    requires forall j :: 0 <= j < |cart| ==> cart[j].id != id
    ensures AddToCart(catalog, AddToCart(catalog, cart, id), id)
         == cart + [CartLine(id, catalog[k].name, catalog[k].price, catalog[k].image, 2)]
  {
    AddNewLine(catalog, cart, id, k);
    var once := AddToCart(catalog, cart, id);
    assert once[|cart|].id == id;
    AddExistingLine(catalog, once, id, |cart|);
    var twice := AddToCart(catalog, once, id);
    assert |twice| == |cart| + 1;
    assert forall j :: 0 <= j < |cart| ==> twice[j] == cart[j];
  }

  /** Adding keeps every quantity at least 1 and never duplicates a product id. */
  lemma AddKeepsValid(catalog: seq<Product>, cart: seq<CartLine>, id: string)
    requires ValidCart(cart)
    ensures ValidCart(AddToCart(catalog, cart, id))
  {
  }

  /** A successful add raises the badge count by exactly one. */
  lemma AddRaisesBadgeByOne(catalog: seq<Product>, cart: seq<CartLine>, id: string)
    requires exists k :: 0 <= k < |catalog| && catalog[k].id == id
    ensures BadgeCount(AddToCart(catalog, cart, id)) == BadgeCount(cart) + 1
  {
    match FindLine(cart, id)
    case Some(i) =>
      SumUpdate(cart, i, cart[i].(quantity := cart[i].quantity + 1), Quantity);
    case None =>
      var k := FindProduct(catalog, id).value;
      SumConcat(cart, [NewLine(catalog[k])], Quantity);
      SumOfOne(NewLine(catalog[k]), Quantity);
  }

  /**
    A successful add raises the cart total by one unit price: the line's
    snapshot price when the line exists, the product's current price when
    it is new.
   */
  lemma AddRaisesTotalByOnePrice(catalog: seq<Product>, cart: seq<CartLine>, id: string)
    ensures FindProduct(catalog, id).Some? && FindLine(cart, id).Some? ==>
      CartTotal(AddToCart(catalog, cart, id)) == CartTotal(cart) + cart[FindLine(cart, id).value].price
    ensures FindProduct(catalog, id).Some? && FindLine(cart, id).None? ==>
      CartTotal(AddToCart(catalog, cart, id)) == CartTotal(cart) + catalog[FindProduct(catalog, id).value].price
  {
    match FindProduct(catalog, id)
    case None =>
    case Some(k) =>
      match FindLine(cart, id)
      case Some(i) =>
        var l := cart[i];
        SumUpdate(cart, i, l.(quantity := l.quantity + 1), LineTotal);
        assert LineTotal(l.(quantity := l.quantity + 1)) == LineTotal(l) + l.price by {
          assert l.price * (l.quantity + 1) == l.price * l.quantity + l.price;
        }
      case None =>
        SumConcat(cart, [NewLine(catalog[k])], LineTotal);
        SumOfOne(NewLine(catalog[k]), LineTotal);
  }

  // ----- remove -----

  /**
    Removing an id leaves exactly the lines with another id: none with that
    id remains and every other line is kept.
   */
  lemma RemoveLineContents(cart: seq<CartLine>, id: string)
    ensures forall l :: l in RemoveLine(cart, id) ==> l.id != id
    ensures forall l :: l in RemoveLine(cart, id) <==> l in cart && l.id != id
    ensures |RemoveLine(cart, id)| <= |cart|
  {
  }

  /** Removal works part by part, so the remaining lines keep their relative order. */
  lemma RemoveLineKeepsOrder(a: seq<CartLine>, b: seq<CartLine>, id: string)
    ensures RemoveLine(a + b, id) == RemoveLine(a, id) + RemoveLine(b, id)
  {
    FilterConcat(a, b, (l: CartLine) => l.id != id);
  }

  /** Removing an id no line carries changes nothing. */
  lemma RemoveAbsentLine(cart: seq<CartLine>, id: string)
    requires forall j :: 0 <= j < |cart| ==> cart[j].id != id
    ensures RemoveLine(cart, id) == cart
  {
    FilterAll(cart, (l: CartLine) => l.id != id);
  }

  /** Removing keeps every quantity at least 1 and ids unique. */
  lemma RemoveKeepsValid(cart: seq<CartLine>, id: string)
    requires ValidCart(cart)
    ensures ValidCart(RemoveLine(cart, id))
  {
    RemoveKeepsValidRec(cart, (l: CartLine) => l.id != id);
  }

  lemma {:induction false} RemoveKeepsValidRec(cart: seq<CartLine>, p: CartLine -> bool)
    requires ValidCart(cart)
    ensures ValidCart(Filter(cart, p))
  {
    if cart != [] {
      RemoveKeepsValidRec(cart[1..], p);
      var rest := Filter(cart[1..], p);
      if p(cart[0]) {
        var r := [cart[0]] + rest;
        forall j | 1 <= j < |r| ensures r[0].id != r[j].id {
          assert r[j] == rest[j - 1] && rest[j - 1] in cart[1..];
        }
      }
    }
  }

  // ----- quantity -----

  /**
    Setting a quantity changes only the first line with that id, and only
    its quantity, to `max(1, value)`; every other line is unchanged.
   */
  lemma SetQuantityChangesOneLine(cart: seq<CartLine>, id: string, value: int, i: nat)
    requires i < |cart| && cart[i].id == id
    requires forall j :: 0 <= j < i ==> cart[j].id != id
    ensures |SetQuantity(cart, id, value)| == |cart|
    ensures SetQuantity(cart, id, value)[i] == cart[i].(quantity := if value < 1 then 1 else value)
    ensures SetQuantity(cart, id, value)[i].quantity >= 1
    ensures forall j :: 0 <= j < |cart| && j != i ==> SetQuantity(cart, id, value)[j] == cart[j]
  {
  }

  /** Setting the quantity of an id no line carries changes nothing. */
  lemma SetQuantityAbsentLine(cart: seq<CartLine>, id: string, value: int)
    requires forall j :: 0 <= j < |cart| ==> cart[j].id != id
    ensures SetQuantity(cart, id, value) == cart
  {
  }

  /** Setting a quantity keeps every quantity at least 1 and ids unique. */
  lemma SetQuantityKeepsValid(cart: seq<CartLine>, id: string, value: int)
    requires ValidCart(cart)
    ensures ValidCart(SetQuantity(cart, id, value))
  {
  }

  // ----- sums -----

  /** With every quantity at least 1 the badge shows at least one per line, and 0 only for an empty cart. */
  lemma BadgeCountBounds(cart: seq<CartLine>)
    requires QuantitiesPositive(cart)
    ensures BadgeCount(cart) >= |cart|
    ensures BadgeCount(cart) == 0 <==> cart == []
  {
    SumOfPositives(cart, Quantity);
  }

  /** Removing a line (ids being unique) lowers the badge by that line's quantity and the total by its line total. */
  lemma RemoveLowersSums(cart: seq<CartLine>, i: nat)
    requires UniqueIds(cart) && i < |cart|
    ensures BadgeCount(RemoveLine(cart, cart[i].id)) == BadgeCount(cart) - cart[i].quantity
    ensures CartTotal(RemoveLine(cart, cart[i].id)) == CartTotal(cart) - cart[i].price * cart[i].quantity
  {
    var id := cart[i].id;
    assert cart == cart[..i] + ([cart[i]] + cart[i + 1..]);
    RemoveLineKeepsOrder(cart[..i], [cart[i]] + cart[i + 1..], id);
    RemoveLineKeepsOrder([cart[i]], cart[i + 1..], id);
    RemoveAbsentLine(cart[..i], id);
    RemoveAbsentLine(cart[i + 1..], id);
    assert RemoveLine([cart[i]], id) == [];
    assert RemoveLine(cart, id) == cart[..i] + cart[i + 1..];
    SumConcat(cart[..i], [cart[i]] + cart[i + 1..], Quantity);
    SumConcat([cart[i]], cart[i + 1..], Quantity);
    SumConcat(cart[..i], cart[i + 1..], Quantity);
    SumConcat(cart[..i], [cart[i]] + cart[i + 1..], LineTotal);
    SumConcat([cart[i]], cart[i + 1..], LineTotal);
    SumConcat(cart[..i], cart[i + 1..], LineTotal);
    SumOfOne(cart[i], Quantity);
    SumOfOne(cart[i], LineTotal);
  }
}

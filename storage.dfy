/**
  The persistent store as an abstract key-value map. The browser keeps one
  serialized blob per key; here a key maps to the typed value it was last
  set to, and an absent key is one that was never written.
 */
module Storage {
  import opened JsArray
  import opened Entities

  /** The four storage slots. */
  datatype Key = ProductsKey | CartKey | UserKey | OrdersKey

  /** The names the slots are stored under. */
  function KeyName(k: Key): string
  {
    match k
    case ProductsKey => "legoLandProducts"
    case CartKey => "legoLandCart"
    case UserKey => "legoLandUser"
    case OrdersKey => "legoLandOrders"
  }

  /** Distinct slots are stored under distinct names, so writing one never touches another. */
  lemma KeyNamesDistinct(a: Key, b: Key)
    ensures KeyName(a) == KeyName(b) <==> a == b
  {
  }

  /** A stored value; `Null` is the fallback the user slot is read with. */
  datatype Value =
    | ProductList(products: seq<Product>)
    | LineList(lines: seq<CartLine>)
    | Account(user: User)
    | OrderList(orders: seq<Order>)
    | Null

  type Store = map<Key, Value>

  /** The kind of value each slot holds. */
  predicate Holds(k: Key, v: Value)
  {
    match k
    case ProductsKey => v.ProductList?
    case CartKey => v.LineList?
    case UserKey => v.Account?
    case OrdersKey => v.OrderList?
  }

  /** Every present slot holds a value of its own kind. */
  predicate WellTyped(s: Store)
  {
    forall k :: k in s ==> Holds(k, s[k])
  }

  /** `getStored(key, fallback)`: the stored value, or the fallback when the key is absent. */
  function Stored(s: Store, key: Key, fallback: Value): Value
  {
    if key in s then s[key] else fallback
  }

  /** `setStored(key, value)` on the abstract store. */
  function Put(s: Store, key: Key, value: Value): (r: Store)
    ensures r.Keys == s.Keys + {key}
    ensures forall k :: k in s && k != key ==> r[k] == s[k]
    ensures Holds(key, value) && WellTyped(s) ==> WellTyped(r)
  {
    s[key := value]
  }

  /** Reading a slot after writing it returns what was written, whatever the fallback. */
  lemma {:induction false} StoredAfterPut(s: Store, key: Key, value: Value, fallback: Value)
    ensures Stored(Put(s, key, value), key, fallback) == value
    ensures forall k, f :: k != key ==> Stored(Put(s, key, value), k, f) == Stored(s, k, f)
  {
  }

  /** `getProducts()`. */
  function Products(s: Store): (ps: seq<Product>)
    requires WellTyped(s)
    ensures ProductsKey !in s ==> ps == []
    ensures ProductsKey in s ==> s[ProductsKey] == ProductList(ps)
  {
    Stored(s, ProductsKey, ProductList([])).products
  }

  /** `getCart()`. */
  function Cart(s: Store): (lines: seq<CartLine>)
    requires WellTyped(s)
    ensures CartKey !in s ==> lines == []
    ensures CartKey in s ==> s[CartKey] == LineList(lines)
  {
    Stored(s, CartKey, LineList([])).lines
  }

  /** `getOrders()`. */
  function Orders(s: Store): (os: seq<Order>)
    requires WellTyped(s)
    ensures OrdersKey !in s ==> os == []
    ensures OrdersKey in s ==> s[OrdersKey] == OrderList(os)
  {
    Stored(s, OrdersKey, OrderList([])).orders
  }

  /** `getUser()`: the session user, or none when no user was ever stored. */
  function CurrentUser(s: Store): (u: Option<User>)
    requires WellTyped(s)
    ensures u.None? <==> UserKey !in s
    ensures u.Some? ==> s[UserKey] == Account(u.value)
  {
    match Stored(s, UserKey, Null)
    case Account(user) => Some(user)
    case _ => None
  }

  /** `ensureData()`: seed products, an empty cart and an empty order list into whichever of those slots is absent. */
  function EnsureData(s: Store): (r: Store)
    ensures r.Keys == s.Keys + {ProductsKey, CartKey, OrdersKey}
    ensures forall k :: k in s ==> r[k] == s[k]
    ensures ProductsKey !in s ==> r[ProductsKey] == ProductList(DefaultProducts)
    ensures CartKey !in s ==> r[CartKey] == LineList([])
    ensures OrdersKey !in s ==> r[OrdersKey] == OrderList([])
    ensures UserKey in r <==> UserKey in s
    ensures WellTyped(s) ==> WellTyped(r)
  {
    var s1 := if ProductsKey in s then s else Put(s, ProductsKey, ProductList(DefaultProducts));
    var s2 := if CartKey in s1 then s1 else Put(s1, CartKey, LineList([]));
    if OrdersKey in s2 then s2 else Put(s2, OrdersKey, OrderList([]))
  }

  /** Seeding is idempotent: a second call finds every seeded slot present and writes nothing. */
  lemma EnsureDataIdempotent(s: Store)
    ensures EnsureData(EnsureData(s)) == EnsureData(s)
  {
  }

  /** A seeded store reads the demo catalog, an empty cart and no orders unless those slots held something already. */
  lemma EnsureDataReads(s: Store)
    requires WellTyped(s)
    ensures WellTyped(EnsureData(s))
    ensures Products(EnsureData(s)) == if ProductsKey in s then Products(s) else DefaultProducts
    ensures Cart(EnsureData(s)) == Cart(s)
    ensures Orders(EnsureData(s)) == Orders(s)
    ensures CurrentUser(EnsureData(s)) == CurrentUser(s)
  {
  }
}

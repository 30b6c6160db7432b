/**
  Building an order at checkout and the admin's status update.
 */
module OrderEngine {
  import opened JsArray
  import opened Entities
  import opened CartEngine
  import opened Forms

  /** The order id drawn at checkout: a draw `random` in [0, 1) scaled to 90000 values, shifted by 10000 and rounded down. */
  function OrderId(random: real): (id: nat)
    requires 0.0 <= random < 1.0
    ensures 10000 <= id <= 99999
  {
    (random * 90000.0 + 10000.0).Floor
  }

  /** The user a checkout acts for: the session user if there is one, else a shopper built from the form. */
  function ActingUser(stored: Option<User>, fields: map<string, string>): User
  {
    match stored
    case Some(u) => u
    case None => User(FormField(fields, "fullName"), FormField(fields, "email"), "shopper")
  }

  /** The order `handleCheckout` builds from the cart it read. */
  function NewOrder(id: nat, cart: seq<CartLine>, user: User, placedAt: string, fields: map<string, string>): Order
  {
    Order(id, cart, CartTotal(cart), Processing, placedAt, user.email, fields)
  }

  /** What a checkout submission led to. */
  datatype CheckoutResult = EmptyCartRejected | Placed(order: Order)

  /**
    A placed order snapshots the cart: its items are the cart lines, its
    total is the sum of price times quantity over them, it starts in
    "Processing" and belongs to the acting user's email.
   */
  lemma NewOrderSnapshotsCart(id: nat, cart: seq<CartLine>, stored: Option<User>, placedAt: string, fields: map<string, string>)
    ensures NewOrder(id, cart, ActingUser(stored, fields), placedAt, fields).items == cart
    ensures NewOrder(id, cart, ActingUser(stored, fields), placedAt, fields).total == Sum(cart, LineTotal)
    ensures NewOrder(id, cart, ActingUser(stored, fields), placedAt, fields).status == "Processing"
    ensures NewOrder(id, cart, ActingUser(stored, fields), placedAt, fields).status in StatusChoices
    ensures NewOrder(id, cart, ActingUser(stored, fields), placedAt, fields).shipping == fields
    ensures stored.Some? ==> NewOrder(id, cart, ActingUser(stored, fields), placedAt, fields).userEmail == stored.value.email
    ensures stored.None? ==> NewOrder(id, cart, ActingUser(stored, fields), placedAt, fields).userEmail == FormField(fields, "email")
  {
  }

  /** The acting user is the stored one when present; otherwise a "shopper" named and addressed by the form. */
  lemma ActingUserChoice(stored: Option<User>, fields: map<string, string>)
    ensures stored.Some? ==> ActingUser(stored, fields) == stored.value
    ensures stored.None? ==> ActingUser(stored, fields).role == "shopper"
    ensures stored.None? ==> ActingUser(stored, fields).name == FormField(fields, "fullName")
    ensures stored.None? ==> ActingUser(stored, fields).email == FormField(fields, "email")
  {
  }

  // ----- admin status update -----

  /** The index of the first order whose id, printed in decimal, equals the selector. */
  function FindOrder(orders: seq<Order>, selector: string): (r: Option<nat>)
    ensures r.Some? ==> r.value < |orders| && DecimalString(orders[r.value].id) == selector
    ensures r.Some? ==> forall j :: 0 <= j < r.value ==> DecimalString(orders[j].id) != selector
    ensures r.None? ==> forall j :: 0 <= j < |orders| ==> DecimalString(orders[j].id) != selector
  {
    FindIndex(orders, (o: Order) => DecimalString(o.id) == selector)
  }

  /** `handleAdminStatus`: the first order the selector names takes the chosen status, whatever it is. */
  function UpdateStatus(orders: seq<Order>, selector: string, status: string): seq<Order>
  {
    match FindOrder(orders, selector)
    case None => orders
    case Some(i) => orders[i := orders[i].(status := status)]
  }

  /**
    A selector names an order exactly when it prints that order's id, so
    matching the printed id finds the first order with that numeric id.
   */
  lemma FindOrderById(orders: seq<Order>, id: nat)
    ensures FindOrder(orders, DecimalString(id)).Some? <==> exists j :: 0 <= j < |orders| && orders[j].id == id
    ensures FindOrder(orders, DecimalString(id)).Some? ==>
      var i := FindOrder(orders, DecimalString(id)).value;
      orders[i].id == id && forall j :: 0 <= j < i ==> orders[j].id != id
  {
    forall j | 0 <= j < |orders| ensures DecimalString(orders[j].id) == DecimalString(id) <==> orders[j].id == id {
      DecimalStringInjective(orders[j].id, id);
    }
  }

  /**
    A status update rewrites only the `status` field of the first order the
    selector names; every other order and every other field is unchanged.
   */
  lemma UpdateStatusChangesOneField(orders: seq<Order>, selector: string, status: string, i: nat)
    requires i < |orders| && DecimalString(orders[i].id) == selector
    requires forall j :: 0 <= j < i ==> DecimalString(orders[j].id) != selector
    ensures |UpdateStatus(orders, selector, status)| == |orders|
    ensures UpdateStatus(orders, selector, status)[i] == orders[i].(status := status)
    ensures forall j :: 0 <= j < |orders| && j != i ==> UpdateStatus(orders, selector, status)[j] == orders[j]
  {
  }

  /** A selector that names no order leaves the orders untouched. */
  lemma UpdateStatusNoMatch(orders: seq<Order>, selector: string, status: string)
    requires forall j :: 0 <= j < |orders| ==> DecimalString(orders[j].id) != selector
    ensures UpdateStatus(orders, selector, status) == orders
  {
  }

  function OrderTotal(o: Order): int { o.total }

  /** A status change never alters an order's frozen items or total, so revenue is unaffected. */
  lemma UpdateStatusKeepsTotals(orders: seq<Order>, selector: string, status: string)
    ensures |UpdateStatus(orders, selector, status)| == |orders|
    ensures forall j :: 0 <= j < |orders| ==>
      UpdateStatus(orders, selector, status)[j].items == orders[j].items &&
      UpdateStatus(orders, selector, status)[j].total == orders[j].total
    ensures Sum(UpdateStatus(orders, selector, status), OrderTotal) == Sum(orders, OrderTotal)
  {
    match FindOrder(orders, selector)
    case None =>
    case Some(i) =>
      SumUpdate(orders, i, orders[i].(status := status), OrderTotal);
  }
}

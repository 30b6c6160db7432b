/**
  The data each renderer derives from the stored state, without the markup:
  product detail, order confirmation, profile, and the admin analytics.
 */
module Views {
  import opened JsArray
  import opened Entities
  import opened CartEngine
  import opened OrderEngine

  /** `renderProductDetail`: the first product with the requested id, or not found. */
  function ProductDetail(catalog: seq<Product>, id: string): (r: Option<Product>)
    ensures r.Some? ==> r.value in catalog && r.value.id == id
    ensures r.None? <==> forall j :: 0 <= j < |catalog| ==> catalog[j].id != id
    ensures r.Some? ==> exists k :: 0 <= k < |catalog| && catalog[k] == r.value &&
                          forall j :: 0 <= j < k ==> catalog[j].id != id
  {
    match FindProduct(catalog, id)
    case None => None
    case Some(k) => Some(catalog[k])
  }

  /** `renderOrderSuccess`: the most recently appended order, if any. */
  function LatestOrder(orders: seq<Order>): Option<Order>
  {
    if orders == [] then None else Some(orders[|orders| - 1])
  }

  /** Appending an order makes it the one the confirmation page shows; no orders shows none. */
  lemma LatestOrderIsLastAppended(orders: seq<Order>, o: Order)
    ensures LatestOrder(orders + [o]) == Some(o)
    ensures LatestOrder([]) == None
  {
  }

  /** What the profile page shows. */
  datatype Profile = SignInPrompt | Welcome(user: User, recent: seq<Order>)

  function BelongsTo(email: string): Order -> bool
  {
    (o: Order) => o.userEmail == email
  }

  /** The user's own orders in storage order, keeping only the last three. */
  function RecentOrders(orders: seq<Order>, email: string): (r: seq<Order>)
    ensures |r| <= 3
    ensures forall i :: 0 <= i < |r| ==> r[i].userEmail == email && r[i] in orders
  {
    TakeLast(Filter(orders, BelongsTo(email)), 3)
  }

  /** `renderProfile`: a sign-in prompt without a user, else the user and their last three orders. */
  function ProfileView(user: Option<User>, orders: seq<Order>): (r: Profile)
    ensures user.None? <==> r.SignInPrompt?
    ensures r.Welcome? ==> r.user == user.value && r.recent == RecentOrders(orders, user.value.email)
  {
    match user
    case None => SignInPrompt
    case Some(u) => Welcome(u, RecentOrders(orders, u.email))
  }

  /**
    The profile lists the user's own orders in storage order, at most the
    last three: all of them when they have fewer than three, and the three
    most recent otherwise.
   */
  lemma RecentOrdersAreLastThreeOwn(orders: seq<Order>, email: string)
    ensures var own := Filter(orders, BelongsTo(email));
      |RecentOrders(orders, email)| == (if |own| < 3 then |own| else 3) &&
      RecentOrders(orders, email) == own[|own| - |RecentOrders(orders, email)|..]
  {
  }

  /** When every stored order is the user's, the profile shows exactly the last three of them (or all). */
  lemma RecentOrdersOfOwnHistory(orders: seq<Order>, email: string)
    requires forall i :: 0 <= i < |orders| ==> orders[i].userEmail == email
    ensures |orders| >= 3 ==> RecentOrders(orders, email) == orders[|orders| - 3..]
    ensures |orders| < 3 ==> RecentOrders(orders, email) == orders
  {
    FilterAll(orders, BelongsTo(email));
  }

  /** An order just placed for this email is the last one its owner's profile lists. */
  lemma RecentOrdersEndWithNewest(orders: seq<Order>, o: Order)
    ensures var r := RecentOrders(orders + [o], o.userEmail); |r| >= 1 && r[|r| - 1] == o
  {
    FilterConcat(orders, [o], BelongsTo(o.userEmail));
    assert Filter([o], BelongsTo(o.userEmail)) == [o];
  }

  /** The admin dashboard's analytics card; amounts in cents. */
  datatype Analytics = Analytics(orderCount: nat, revenue: int, averageBasket: int)

  /** `renderAdmin` analytics: order count, revenue as the sum of order totals, and the average basket, 0 with no orders. */
  function AdminAnalytics(orders: seq<Order>): (a: Analytics)
    ensures a.orderCount == |orders|
    ensures a.revenue == Sum(orders, OrderTotal)
    ensures orders == [] ==> a.averageBasket == 0
    ensures orders != [] ==> a.averageBasket * |orders| <= a.revenue < (a.averageBasket + 1) * |orders|
  {
    var revenue := Sum(orders, OrderTotal);
    Analytics(|orders|, revenue, if orders == [] then 0 else revenue / |orders|)
  }

  /** Revenue counts each order's frozen total once: appending an order adds exactly its total. */
  lemma RevenueAfterAppend(orders: seq<Order>, o: Order)
    ensures AdminAnalytics(orders + [o]).revenue == AdminAnalytics(orders).revenue + o.total
    ensures AdminAnalytics(orders + [o]).orderCount == AdminAnalytics(orders).orderCount + 1
  {
  }

  /** Three orders totalling 10.00, 20.00 and 30.00 report revenue 60.00 and an average basket of 20.00. */
  lemma AnalyticsOfThreeOrders(orders: seq<Order>)
    requires |orders| == 3
    requires orders[0].total == 1000 && orders[1].total == 2000 && orders[2].total == 3000
    ensures AdminAnalytics(orders) == Analytics(3, 6000, 2000)
  {
    assert Sum(orders[..1], OrderTotal) == 1000 by { assert orders[..1][..0] == []; }
    assert Sum(orders[..2], OrderTotal) == 3000 by { assert orders[..2][..1] == orders[..1]; }
    assert orders[..|orders| - 1] == orders[..2];
  }
}

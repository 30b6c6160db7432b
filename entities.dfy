/**
  The records the storefront persists: catalog products, cart lines, the
  session user and placed orders. Prices and totals are integer cents and
  ratings are tenths of a star, so 54.99 is 5499 and 4.9 is 49.
 */
module Entities {
  import opened JsArray

  datatype Product = Product(
    id: string,
    name: string,
    category: string,
    price: int,
    rating: int,
    age: string,
    stock: int,
    description: string,
    image: string)

  /** A cart line keeps a snapshot of the product's price taken when the line was created. */
  datatype CartLine = CartLine(id: string, name: string, price: int, image: string, quantity: int)

  datatype User = User(name: string, email: string, role: string)

  /** `shipping` holds every submitted checkout form field verbatim. */
  datatype Order = Order(
    id: nat,
    items: seq<CartLine>,
    total: int,
    status: string,
    placedAt: string,
    userEmail: string,
    shipping: map<string, string>)

  /** The status every new order starts in. */
  const Processing: string := "Processing"

  /** The choices the admin status selector offers; an update may store any string. */
  const StatusChoices: seq<string> := [Processing, "Packed", "Shipped", "Delivered"]

  /** The six demo products seeded into an empty store. */
  const DefaultProducts: seq<Product> := [
    Product("ll-rocket", "Galaxy Rocket Builder", "Space Adventures", 5499, 49, "7+", 22,
      "Blast off with 320 interlocking blocks, glow tiles, and mini astronaut figures.",
      "assets/product-rocket.svg"),
    Product("ll-castle", "Rainbow Castle Quest", "Fantasy Kingdom", 6450, 48, "6+", 18,
      "Build a rainbow castle with moving bridges, dragons, and jewel pieces.",
      "assets/product-castle.svg"),
    Product("ll-zoo", "Safari Zoo Board Game", "Family Game Night", 2995, 46, "5+", 40,
      "Guide friendly animals across the board with dice and mission cards.",
      "assets/product-zoo.svg"),
    Product("ll-city", "LegoTown Builder Set", "City Builders", 7200, 47, "8+", 15,
      "Create a bustling city with 5 modular buildings and mini vehicles.",
      "assets/product-city.svg"),
    Product("ll-ocean", "Ocean Rescue Mission", "Eco Heroes", 3995, 45, "6+", 28,
      "Solve rescue puzzles to protect coral reefs and baby turtles.",
      "assets/product-ocean.svg"),
    Product("ll-lab", "Science Lab Experiment Kit", "STEM Play", 4400, 48, "7+", 25,
      "Combine blocks and cards to unlock safe kid-approved experiments.",
      "assets/product-lab.svg")
  ]

  /** The index of the first catalog product with that id, as the catalog lookup finds it. */
  function FindProduct(catalog: seq<Product>, id: string): (r: Option<nat>)
    ensures r.Some? ==> r.value < |catalog| && catalog[r.value].id == id
    ensures r.Some? ==> forall j :: 0 <= j < r.value ==> catalog[j].id != id
    ensures r.None? ==> forall j :: 0 <= j < |catalog| ==> catalog[j].id != id
  {
    FindIndex(catalog, (p: Product) => p.id == id)
  }

  /** The decimal digit character for `d`. */
  function Digit(d: nat): (c: char)
    requires d < 10
    ensures '0' <= c <= '9' && c as int - '0' as int == d
  {
    (d + '0' as int) as char
  }

  /** `String(n)` for a non-negative integer: its decimal digits, without leading zeros. */
  function DecimalString(n: nat): (s: string)
    ensures 1 <= |s|
    ensures forall i :: 0 <= i < |s| ==> '0' <= s[i] <= '9'
    ensures n < 10 <==> |s| == 1
  {
    if n < 10 then [Digit(n)] else DecimalString(n / 10) + [Digit(n % 10)]
  }

  /** Different numbers print differently, so comparing `String(id)` compares ids. */
  lemma {:induction false} DecimalStringInjective(a: nat, b: nat)
    ensures DecimalString(a) == DecimalString(b) <==> a == b
  {
    if DecimalString(a) == DecimalString(b) && a >= 10 && b >= 10 {
      var sa, sb := DecimalString(a), DecimalString(b);
      assert sa[..|sa| - 1] == DecimalString(a / 10);
      assert sb[..|sb| - 1] == DecimalString(b / 10);
      DecimalStringInjective(a / 10, b / 10);
      assert sa[|sa| - 1] == Digit(a % 10);
      assert sb[|sb| - 1] == Digit(b % 10);
    }
  }
}

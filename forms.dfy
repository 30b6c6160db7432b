/**
  The records built from submitted forms: a new catalog product from the
  admin's product form and the session user from the login form.
 */
module Forms {
  import opened Entities

  /** A submitted form field; a field the form did not carry reads as the empty string. */
  function FormField(fields: map<string, string>, name: string): string
  {
    if name in fields then fields[name] else ""
  }

  /** The admin product form after `Number()` parsing of price (in cents) and stock. */
  datatype ProductForm = ProductForm(name: string, category: string, price: int, age: string, stock: int, description: string)

  /** The id prefix every catalog id carries. */
  const IdPrefix: string := "ll-"

  /** `handleAdminProduct`'s new record: a timestamp id, rating 4.6 and the placeholder image. */
  function NewProduct(form: ProductForm, now: nat): Product
  {
    Product(IdPrefix + DecimalString(now), form.name, form.category, form.price, 46, form.age, form.stock,
      form.description, "assets/product-custom.svg")
  }

  /**
    A product added by the admin carries "ll-" and then only digits as its
    id, so it can never collide with a seeded demo product; two additions
    get the same id only when made at the same timestamp.
   */
  lemma NewProductId(form: ProductForm, now: nat, other: ProductForm, later: nat)
    ensures NewProduct(form, now).id[..3] == IdPrefix
    ensures forall i :: 3 <= i < |NewProduct(form, now).id| ==> '0' <= NewProduct(form, now).id[i] <= '9'
    ensures forall p :: p in DefaultProducts ==> p.id != NewProduct(form, now).id
    ensures NewProduct(form, now).id == NewProduct(other, later).id <==> now == later
  {
    var id := NewProduct(form, now).id;
    assert id[3] in "0123456789";
    forall p | p in DefaultProducts ensures p.id != id {
      assert p.id[3] !in "0123456789";
    }
    DecimalStringInjective(now, later);
    assert NewProduct(other, later).id[3..] == DecimalString(later);
    assert id[3..] == DecimalString(now);
  }

  /** `handleLogin`'s session user, taken from the form verbatim. */
  function LoginUser(fields: map<string, string>): User
  {
    User(FormField(fields, "name"), FormField(fields, "email"), FormField(fields, "role"))
  }
}

/** The shopping-cart state container of the storefront: an ordered list of
    line items, looked up by id with a linear scan, and three operations
    (add, increment, decrement) that replace that list with an updated copy.

    The pure part (the lookups and a reference definition of what each
    operation does to the list) comes first; `CartStore` then holds the list
    as a field and performs the operations step by step, as the hook does. */
module Cart {
  import opened Wrappers

  /** One line item: a product placed in the cart with a quantity.
      The price is only carried along; no operation looks at it. */
  datatype Product = Product(id: string, title: string, imageUrl: string, price: real, quantity: int)

  /** What `addToCart` is given: a product without its quantity. */
  datatype NewProduct = NewProduct(id: string, title: string, imageUrl: string, price: real)

  /** The line item `addToCart` appends for a product not yet in the cart. */
  function LineItem(item: NewProduct): Product {
    Product(item.id, item.title, item.imageUrl, item.price, 1)
  }

  /** `item` describes line item `p`: every field but the quantity agrees. */
  predicate Describes(item: NewProduct, p: Product) {
    p.id == item.id && p.title == item.title && p.imageUrl == item.imageUrl && p.price == item.price
  }

  /** Two line items that differ at most in their quantity. */
  predicate SameProduct(a: Product, b: Product) {
    a.id == b.id && a.title == b.title && a.imageUrl == b.imageUrl && a.price == b.price
  }

  predicate HasId(products: seq<Product>, id: string) {
    exists j :: 0 <= j < |products| && products[j].id == id
  }

  /** No two line items share an id. */
  predicate DistinctIds(products: seq<Product>) {
    forall i, j :: 0 <= i < j < |products| ==> products[i].id != products[j].id
  }

  // ---------------------------------------------------------------------
  // Lookups
  // ---------------------------------------------------------------------

  /** `products.findIndex(p => p.id === id)`: the index of the first line
      item with this id, or -1 when there is none. */
  function FindIndex(products: seq<Product>, id: string): (r: int)
    ensures -1 <= r < |products|
    ensures r >= 0 <==> HasId(products, id)
    ensures r >= 0 ==> products[r].id == id && forall j :: 0 <= j < r ==> products[j].id != id
  {
    if |products| == 0 then -1
    else if products[0].id == id then 0
    else
      var k := FindIndex(products[1..], id);
      if k == -1 then -1 else k + 1
  }

  /** `products.find(p => p.id === id)`: the first line item with this id,
      or nothing (`undefined`) when there is none. */
  function Find(products: seq<Product>, id: string): (r: Option<Product>)
    ensures r.None? <==> !HasId(products, id)
    ensures r.Some? ==> r.value.id == id && r.value == products[FindIndex(products, id)]
  {
    if |products| == 0 then None
    else if products[0].id == id then Some(products[0])
    else Find(products[1..], id)
  }

  /** Whichever list two line-item lists with the same ids at the same
      positions are, the first index of an id in them is the same. */
  lemma FindIndexFollowsIds(a: seq<Product>, b: seq<Product>, id: string)
    requires |a| == |b|
    requires forall j :: 0 <= j < |a| ==> a[j].id == b[j].id
    ensures FindIndex(a, id) == FindIndex(b, id)
  {
  }

  // ---------------------------------------------------------------------
  // Reference definitions of the three operations on the list
  // ---------------------------------------------------------------------

  /** The list after `increment(id)`: the first line item with this id has
      its quantity raised by one; nothing else is touched. An absent id
      leaves the list as it was. */
  function Incremented(products: seq<Product>, id: string): (r: seq<Product>)
    ensures |r| == |products|
    ensures forall j :: 0 <= j < |products| ==> SameProduct(r[j], products[j])
    ensures forall j :: 0 <= j < |products| && j != FindIndex(products, id) ==> r[j] == products[j]
    ensures HasId(products, id) ==>
      var i := FindIndex(products, id); r[i].quantity == products[i].quantity + 1
    ensures !HasId(products, id) ==> r == products
    ensures DistinctIds(products) ==> DistinctIds(r)
  {
    var i := FindIndex(products, id);
    seq(|products|, j requires 0 <= j < |products| =>
      if j == i then products[j].(quantity := products[j].quantity + 1) else products[j])
  }

  /** The list after `decrement(id)`: the first line item with this id has
      its quantity lowered by one. There is no floor: the quantity may reach
      zero or go below it, and the line item always stays in the list. An
      absent id leaves the list as it was. */
  function Decremented(products: seq<Product>, id: string): (r: seq<Product>)
    ensures |r| == |products|
    ensures forall j :: 0 <= j < |products| ==> SameProduct(r[j], products[j])
    ensures forall j :: 0 <= j < |products| && j != FindIndex(products, id) ==> r[j] == products[j]
    ensures HasId(products, id) ==>
      var i := FindIndex(products, id); r[i].quantity == products[i].quantity - 1
    ensures !HasId(products, id) ==> r == products
    ensures DistinctIds(products) ==> DistinctIds(r)
  {
    var i := FindIndex(products, id);
    seq(|products|, j requires 0 <= j < |products| =>
      if j == i then products[j].(quantity := products[j].quantity - 1) else products[j])
  }

  /** The list after `addToCart(item)`: a product whose id is not yet in
      the cart is appended as a new line item of quantity one; otherwise the
      result is that of incrementing the id. */
  function AddedToCart(products: seq<Product>, item: NewProduct): (r: seq<Product>)
    ensures HasId(r, item.id)
    ensures HasId(products, item.id) ==> r == Incremented(products, item.id) && |r| == |products|
    ensures !HasId(products, item.id) ==>
      |r| == |products| + 1 && r[..|products|] == products &&
      Describes(item, r[|products|]) && r[|products|].quantity == 1
    ensures DistinctIds(products) ==> DistinctIds(r)
  {
    match Find(products, item.id)
    case None =>
      var r := products + [LineItem(item)];
      assert r[|products|].id == item.id;
      r
    case Some(_) => Incremented(products, item.id)
  }

  // ---------------------------------------------------------------------
  // Properties relating the operations
  // ---------------------------------------------------------------------

  /** Decrementing an id undoes incrementing it, present or absent. */
  lemma DecrementUndoesIncrement(products: seq<Product>, id: string)
    ensures Decremented(Incremented(products, id), id) == products
  {
  }

  /** Incrementing an id undoes decrementing it, present or absent. */
  lemma IncrementUndoesDecrement(products: seq<Product>, id: string)
    ensures Incremented(Decremented(products, id), id) == products
  {
  }

  /** Decrementing never removes a line item, even one of quantity one or
      less: the id stays at the same position with a quantity one lower. */
  lemma DecrementKeepsItem(products: seq<Product>, id: string)
    requires HasId(products, id)
    ensures var i := FindIndex(products, id);
      FindIndex(Decremented(products, id), id) == i &&
      Decremented(products, id)[i].quantity == products[i].quantity - 1
  {
  }

  /** After `addToCart`, looking the id up finds the line item that was
      incremented or, for a new id, the one appended at the end. */
  lemma AddedToCartFinds(products: seq<Product>, item: NewProduct)
    ensures FindIndex(AddedToCart(products, item), item.id) ==
      if HasId(products, item.id) then FindIndex(products, item.id) else |products|
  {
  }

  // ---------------------------------------------------------------------
  // The store
  // ---------------------------------------------------------------------

  /** The provider's state: the `products` list, created empty, and the
      three operations, each of which replaces the list with an updated
      copy. Each operation runs against the current list. */
  class CartStore {
    var products: seq<Product>

    constructor ()
      ensures products == []
    {
      products := [];
    }

    method Increment(id: string)
      modifies this
      ensures products == Incremented(old(products), id)
      ensures |products| == |old(products)|
      ensures DistinctIds(old(products)) ==> DistinctIds(products)
    {
      var productIndex := FindIndex(products, id);
      if productIndex > -1 {
        var productsUpdated := products;
        var p := productsUpdated[productIndex];
        productsUpdated := productsUpdated[productIndex := p.(quantity := p.quantity + 1)];
        products := productsUpdated;
      }
    }

    method AddToCart(item: NewProduct)
      modifies this
      ensures products == AddedToCart(old(products), item)
      ensures HasId(products, item.id)
      ensures DistinctIds(old(products)) ==> DistinctIds(products)
    {
      var productExists := Find(products, item.id);
      if productExists.None? {
        products := products + [LineItem(item)];
      } else {
        Increment(item.id);
      }
    }

    method Decrement(id: string)
      modifies this
      ensures products == Decremented(old(products), id)
      ensures |products| == |old(products)|
      ensures DistinctIds(old(products)) ==> DistinctIds(products)
    {
      var productIndex := FindIndex(products, id);
      if productIndex > -1 {
        var productsUpdated := products;
        var p := productsUpdated[productIndex];
        productsUpdated := productsUpdated[productIndex := p.(quantity := p.quantity - 1)];
        products := productsUpdated;
      }
    }
  }

  // ---------------------------------------------------------------------
  // Access through the provider context
  // ---------------------------------------------------------------------

  const UseCartError: string := "useCart must be used within a CartProvider"

  /** `useCart()`: the context the nearest provider supplies, or a thrown
      error when there is no provider (the context is null). */
  function UseCart<C>(context: Option<C>): (r: Result<C, string>)
    ensures r.Failure? <==> context.None?
    ensures r.Failure? ==> r.error == UseCartError
    ensures context.Some? ==> r == Success(context.value)
  {
    match context
    case None => Failure(UseCartError)
    case Some(c) => Success(c)
  }

  /** The sequence the store goes through in a short session: two products
      are added, one of them twice, and the one with quantity one is then
      decremented to zero and stays in the cart. */
  method ExampleSession(a: NewProduct, b: NewProduct, absent: string)
    requires a.id != b.id && absent != a.id && absent != b.id
  {
    var cart := new CartStore();
    cart.AddToCart(a);
    cart.AddToCart(b);
    cart.AddToCart(a);
    assert cart.products == [LineItem(a).(quantity := 2), LineItem(b)];
    cart.Decrement(b.id);
    assert cart.products == [LineItem(a).(quantity := 2), LineItem(b).(quantity := 0)];
    cart.Increment(absent);
    assert cart.products == [LineItem(a).(quantity := 2), LineItem(b).(quantity := 0)];
  }
}

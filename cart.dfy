/** The list logic of the shopping-cart provider: the record kept for each
    cart line and the three updates behind addToCart, increment and
    decrement. Each update looks up the first line with the given id and then
    either appends a new line or maps the list position by position. */
module Cart {

  datatype Option<T> = None | Some(value: T)

  /** A unit price. It is copied from the catalog item and never computed with,
      so the model keeps it as an opaque value that supports only equality. */
  type Price(==)

  /** One cart line. */
  datatype Product = Product(id: string, title: string, imageUrl: string, price: Price, quantity: int)

  /** What addToCart is given: a catalog product without a quantity. */
  datatype Item = Item(id: string, title: string, imageUrl: string, price: Price)

  predicate HasId(s: seq<Product>, id: string) {
    exists i :: 0 <= i < |s| && s[i].id == id
  }

  /** The cart's invariant: at most one line per id. */
  predicate UniqueIds(s: seq<Product>) {
    forall i, j :: 0 <= i < j < |s| ==> s[i].id != s[j].id
  }

  /** The cart's invariant: no quantity is negative. */
  predicate NonNegative(s: seq<Product>) {
    forall i :: 0 <= i < |s| ==> s[i].quantity >= 0
  }

  /** Both invariants the cart keeps. */
  predicate Valid(s: seq<Product>) {
    UniqueIds(s) && NonNegative(s)
  }

  /** The lookup `find(item => item.id === id)`, giving the position of the
      first line with that id, or None when there is none. */
  function Find(s: seq<Product>, id: string): (r: Option<nat>)
    ensures r.None? <==> !HasId(s, id)
    ensures r.Some? ==> r.value < |s| && s[r.value].id == id
    ensures r.Some? ==> forall j :: 0 <= j < r.value ==> s[j].id != id
  {
    if s == [] then None
    else if s[0].id == id then Some(0)
    else
      match Find(s[1..], id)
      case None =>
        assert forall i :: 1 <= i < |s| ==> s[i] == s[1..][i - 1];
        None
      case Some(k) => Some(k + 1)
  }

  /** The update `map(item => item.id === id ? p : item)`: every line whose id
      matches becomes p, every other line stays, in the same order. */
  function Replace(s: seq<Product>, id: string, p: Product): (r: seq<Product>)
    ensures |r| == |s|
    ensures forall i :: 0 <= i < |s| ==> r[i] == if s[i].id == id then p else s[i]
  {
    if s == [] then []
    else [if s[0].id == id then p else s[0]] + Replace(s[1..], id, p)
  }

  /** The line addToCart appends for an id not yet in the cart. */
  function NewProduct(item: Item): (p: Product)
    ensures p.id == item.id && p.title == item.title && p.imageUrl == item.imageUrl
    ensures p.price == item.price && p.quantity == 1
  {
    Product(item.id, item.title, item.imageUrl, item.price, 1)
  }

  /** addToCart: append a new line with quantity 1 when the id is absent,
      otherwise raise the quantity of the line found by one. */
  function AddToCart(s: seq<Product>, item: Item): (r: seq<Product>)
    ensures !HasId(s, item.id) ==>
      |r| == |s| + 1 && r[..|s|] == s &&
      r[|s|].id == item.id && r[|s|].title == item.title &&
      r[|s|].imageUrl == item.imageUrl && r[|s|].price == item.price &&
      r[|s|].quantity == 1
    ensures HasId(s, item.id) ==> |r| == |s|
    ensures HasId(s, item.id) ==>
      var k := Find(s, item.id).value;
      forall i :: 0 <= i < |s| && s[i].id == item.id ==> r[i] == s[k].(quantity := s[k].quantity + 1)
    ensures forall i :: 0 <= i < |s| ==> r[i].id == s[i].id
    ensures forall i :: 0 <= i < |s| && s[i].id != item.id ==> r[i] == s[i]
  {
    match Find(s, item.id)
    case None => s + [NewProduct(item)]
    case Some(k) => Replace(s, item.id, s[k].(quantity := s[k].quantity + 1))
  }

  /** increment: raise the quantity of the line with this id by one; no change
      when the id is absent. */
  function Increment(s: seq<Product>, id: string): (r: seq<Product>)
    ensures |r| == |s|
    ensures !HasId(s, id) ==> r == s
    ensures HasId(s, id) ==>
      var k := Find(s, id).value;
      forall i :: 0 <= i < |s| && s[i].id == id ==> r[i] == s[k].(quantity := s[k].quantity + 1)
    ensures forall i :: 0 <= i < |s| ==> r[i].id == s[i].id
    ensures forall i :: 0 <= i < |s| && s[i].id != id ==> r[i] == s[i]
  {
    match Find(s, id)
    case None => s
    case Some(k) => Replace(s, id, s[k].(quantity := s[k].quantity + 1))
  }

  /** decrement: lower the quantity of the line with this id by one when it is
      above zero; no change when the id is absent or the quantity is zero. A
      line that reaches zero stays in the cart. */
  function Decrement(s: seq<Product>, id: string): (r: seq<Product>)
    ensures |r| == |s|
    ensures !HasId(s, id) ==> r == s
    ensures HasId(s, id) ==>
      var k := Find(s, id).value;
      if s[k].quantity > 0 then
        forall i :: 0 <= i < |s| && s[i].id == id ==> r[i] == s[k].(quantity := s[k].quantity - 1)
      else r == s
    ensures forall i :: 0 <= i < |s| ==> r[i].id == s[i].id
    ensures forall i :: 0 <= i < |s| && s[i].id != id ==> r[i] == s[i]
    ensures forall i :: 0 <= i < |s| ==> r[i] == s[i] || r[i].quantity >= 0
  {
    match Find(s, id)
    case None => s
    case Some(k) =>
      if s[k].quantity > 0 then Replace(s, id, s[k].(quantity := s[k].quantity - 1))
      else s
  }

  /** addToCart keeps both invariants: it appends only when the lookup finds
      no line with the id, and the appended line has quantity 1. */
  lemma AddToCartKeepsValid(s: seq<Product>, item: Item)
    requires Valid(s)
    ensures Valid(AddToCart(s, item))
  {
  }

  /** increment keeps both invariants. */
  lemma IncrementKeepsValid(s: seq<Product>, id: string)
    requires Valid(s)
    ensures Valid(Increment(s, id))
  {
  }

  /** decrement keeps both invariants; in particular it never makes a
      quantity negative. */
  lemma DecrementKeepsValid(s: seq<Product>, id: string)
    requires Valid(s)
    ensures Valid(Decrement(s, id))
  {
  }

  /** In a cart with unique ids, the lookup finds exactly the line with that id. */
  lemma FindUnique(s: seq<Product>, id: string, k: nat)
    requires UniqueIds(s) && k < |s| && s[k].id == id
    ensures Find(s, id) == Some(k)
  {
  }

  /** In a cart with unique ids, a list that agrees with s on every other id
      and holds p at the id's positions is s with only position k replaced. */
  lemma UpdateAtUnique(s: seq<Product>, r: seq<Product>, id: string, k: nat, p: Product)
    requires UniqueIds(s) && k < |s| && s[k].id == id && |r| == |s|
    requires forall i :: 0 <= i < |s| && s[i].id == id ==> r[i] == p
    requires forall i :: 0 <= i < |s| && s[i].id != id ==> r[i] == s[i]
    ensures r == s[k := p]
  {
    forall i | 0 <= i < |s|
      ensures r[i] == s[k := p][i]
    {
      if i != k {
        assert s[i].id != id;
      }
    }
  }

  /** addToCart on an id already in a cart with unique ids keeps the length
      and raises the quantity of that one line, at the same position. */
  lemma AddToCartPresent(s: seq<Product>, item: Item, k: nat)
    requires UniqueIds(s) && k < |s| && s[k].id == item.id
    ensures AddToCart(s, item) == s[k := s[k].(quantity := s[k].quantity + 1)]
  {
    FindUnique(s, item.id, k);
    UpdateAtUnique(s, AddToCart(s, item), item.id, k, s[k].(quantity := s[k].quantity + 1));
  }

  /** increment on an id in a cart with unique ids raises that one line's
      quantity by one; title, image, price and order are kept. */
  lemma IncrementPresent(s: seq<Product>, id: string, k: nat)
    requires UniqueIds(s) && k < |s| && s[k].id == id
    ensures Increment(s, id) == s[k := s[k].(quantity := s[k].quantity + 1)]
  {
    FindUnique(s, id, k);
    UpdateAtUnique(s, Increment(s, id), id, k, s[k].(quantity := s[k].quantity + 1));
  }

  /** decrement on an id in a cart with unique ids lowers that one line's
      quantity by one when it is above zero, and changes nothing otherwise. */
  lemma DecrementPresent(s: seq<Product>, id: string, k: nat)
    requires UniqueIds(s) && k < |s| && s[k].id == id
    ensures Decrement(s, id) ==
      if s[k].quantity > 0 then s[k := s[k].(quantity := s[k].quantity - 1)] else s
  {
    FindUnique(s, id, k);
    if s[k].quantity > 0 {
      UpdateAtUnique(s, Decrement(s, id), id, k, s[k].(quantity := s[k].quantity - 1));
    }
  }

  /** Increment and decrement undo each other on a line whose quantity is
      not negative, in a cart with unique ids. */
  lemma DecrementUndoesIncrement(s: seq<Product>, id: string)
    requires Valid(s)
    ensures Decrement(Increment(s, id), id) == s
  {
  }

  /** The number of units in the cart: the sum of the line quantities. */
  function TotalQuantity(s: seq<Product>): (n: int) {
    if s == [] then 0 else s[0].quantity + TotalQuantity(s[1..])
  }

  lemma {:induction false} TotalQuantityAppend(s: seq<Product>, p: Product)
    ensures TotalQuantity(s + [p]) == TotalQuantity(s) + p.quantity
  {
    if s != [] {
      assert (s + [p])[1..] == s[1..] + [p];
      TotalQuantityAppend(s[1..], p);
    }
  }

  lemma {:induction false} TotalQuantityUpdate(s: seq<Product>, k: nat, p: Product)
    requires k < |s|
    ensures TotalQuantity(s[k := p]) == TotalQuantity(s) - s[k].quantity + p.quantity
  {
    if k > 0 {
      assert s[k := p][1..] == s[1..][k - 1 := p];
      TotalQuantityUpdate(s[1..], k - 1, p);
    }
  }

  /** Every addToCart puts exactly one more unit in a cart with unique ids,
      whether it appends a line or raises a quantity. */
  lemma AddToCartAddsOneUnit(s: seq<Product>, item: Item)
    requires UniqueIds(s)
    ensures TotalQuantity(AddToCart(s, item)) == TotalQuantity(s) + 1
  {
    if HasId(s, item.id) {
      var k := Find(s, item.id).value;
      AddToCartPresent(s, item, k);
      TotalQuantityUpdate(s, k, s[k].(quantity := s[k].quantity + 1));
    } else {
      assert AddToCart(s, item) == s + [NewProduct(item)];
      TotalQuantityAppend(s, NewProduct(item));
    }
  }

  /** increment puts one more unit in a cart with unique ids when the id is
      present, and none otherwise. */
  lemma IncrementAddsOneUnit(s: seq<Product>, id: string)
    requires UniqueIds(s)
    ensures TotalQuantity(Increment(s, id)) == TotalQuantity(s) + if HasId(s, id) then 1 else 0
  {
    if HasId(s, id) {
      var k := Find(s, id).value;
      IncrementPresent(s, id, k);
      TotalQuantityUpdate(s, k, s[k].(quantity := s[k].quantity + 1));
    }
  }

  /** decrement takes one unit out of a cart with unique ids when the line
      with the id has a quantity above zero, and none otherwise. */
  lemma DecrementRemovesOneUnit(s: seq<Product>, id: string)
    requires UniqueIds(s)
    ensures TotalQuantity(Decrement(s, id)) == TotalQuantity(s) -
      if HasId(s, id) && s[Find(s, id).value].quantity > 0 then 1 else 0
  {
    if HasId(s, id) {
      var k := Find(s, id).value;
      DecrementPresent(s, id, k);
      if s[k].quantity > 0 {
        TotalQuantityUpdate(s, k, s[k].(quantity := s[k].quantity - 1));
      }
    }
  }

  /** From an empty cart, add A twice, then decrement twice; the line for A
      stays in the cart at quantity zero. */
  lemma AddThenDecrementScenario(a: Item)
    ensures AddToCart([], a) == [NewProduct(a)]
    ensures AddToCart(AddToCart([], a), a) == [NewProduct(a).(quantity := 2)]
    ensures Decrement(AddToCart(AddToCart([], a), a), a.id) == [NewProduct(a)]
    ensures Decrement(Decrement(AddToCart(AddToCart([], a), a), a.id), a.id)
      == [NewProduct(a).(quantity := 0)]
  {
    var one := AddToCart([], a);
    assert one == [NewProduct(a)];
    AddToCartPresent(one, a, 0);
    var two := AddToCart(one, a);
    DecrementPresent(two, a.id, 0);
    DecrementPresent(Decrement(two, a.id), a.id, 0);
  }
}

/** The cart provider: the state it holds, replaced on every call through
    the three operations. */
module CartStore {
  import Cart

  class Store {
    var products: seq<Cart.Product>

    ghost predicate Valid()
      reads this
    {
      Cart.Valid(products)
    }

    /** The provider starts with an empty cart. */
    constructor ()
      ensures products == [] && Valid()
    {
      products := [];
    }

    method AddToCart(item: Cart.Item)
      modifies this
      ensures products == Cart.AddToCart(old(products), item)
      ensures old(Valid()) ==> Valid()
    {
      products := Cart.AddToCart(products, item);
    }

    method Increment(id: string)
      modifies this
      ensures products == Cart.Increment(old(products), id)
      ensures old(Valid()) ==> Valid()
    {
      products := Cart.Increment(products, id);
    }

    method Decrement(id: string)
      modifies this
      ensures products == Cart.Decrement(old(products), id)
      ensures old(Valid()) ==> Valid()
    {
      products := Cart.Decrement(products, id);
    }
  }
}

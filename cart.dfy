/** The shopping cart's list operations: adding a product, and raising or
    lowering the quantity of a line. The cart is an ordered sequence of lines;
    each operation maps the old sequence to the new one. */
module Cart {

  import opened Wrappers

  type Id = string

  /** A product as it is offered to the cart, without a quantity. */
  datatype Item = Item(id: Id, title: string, imageUrl: string, price: int)

  /** A line of the cart. */
  datatype Line = Line(id: Id, title: string, imageUrl: string, price: int, quantity: int)

  /** `{ ...item, quantity: q }`. */
  function WithQuantity(item: Item, q: int): (l: Line)
    ensures l.id == item.id && l.title == item.title && l.imageUrl == item.imageUrl
    ensures l.price == item.price && l.quantity == q
  {
    Line(item.id, item.title, item.imageUrl, item.price, q)
  }

  /** Some line of the cart has that id. */
  predicate InCart(cart: seq<Line>, id: Id)
  {
    exists i | 0 <= i < |cart| :: cart[i].id == id
  }

  /** `products.find(p => p.id === id)`: a line with that id, or nothing
      when no line has it. */
  function Find(cart: seq<Line>, id: Id): (r: Option<Line>)
    ensures r.Some? <==> InCart(cart, id)
    ensures r.Some? ==> r.value in cart && r.value.id == id
  {
    if cart == [] then None
    else if cart[0].id == id then Some(cart[0])
    else
      assert InCart(cart, id) ==> InCart(cart[1..], id) by {
        if InCart(cart, id) {
          var i :| 0 <= i < |cart| && cart[i].id == id;
          assert cart[1..][i - 1].id == id;
        }
      }
      Find(cart[1..], id)
  }

  /** `find` returns the first line with the id. */
  lemma {:induction false} FindIsFirst(cart: seq<Line>, id: Id)
    requires InCart(cart, id)
    ensures exists k :: 0 <= k < |cart| && Find(cart, id) == Some(cart[k]) &&
                        forall j :: 0 <= j < k ==> cart[j].id != id
  {
    if cart[0].id != id {
      var i :| 0 <= i < |cart| && cart[i].id == id;
      assert cart[1..][i - 1].id == id;
      FindIsFirst(cart[1..], id);
      var k :| 0 <= k < |cart| - 1 && Find(cart[1..], id) == Some(cart[1..][k]) &&
               forall j :: 0 <= j < k ==> cart[1..][j].id != id;
      assert Find(cart, id) == Some(cart[k + 1]);
      forall j | 0 <= j < k + 1 ensures cart[j].id != id {
        if j > 0 { assert cart[j] == cart[1..][j - 1]; }
      }
    } else {
      assert Find(cart, id) == Some(cart[0]);
    }
  }

  /** `products.map(p => p.id === item.id ? { ...item, quantity: p.quantity + 1 } : p)`. */
  function Merge(cart: seq<Line>, item: Item): (r: seq<Line>)
    ensures |r| == |cart|
    ensures forall i :: 0 <= i < |cart| ==>
      r[i] == if cart[i].id == item.id then WithQuantity(item, cart[i].quantity + 1) else cart[i]
  {
    if cart == [] then []
    else [if cart[0].id == item.id then WithQuantity(item, cart[0].quantity + 1) else cart[0]]
         + Merge(cart[1..], item)
  }

  /** `addToCart`: an id already in the cart has every one of its lines
      rebuilt from the new item with the quantity raised by one; a new id is
      appended at the end with quantity 1. Lines with other ids are kept. */
  function AddToCart(cart: seq<Line>, item: Item): (r: seq<Line>)
    ensures !InCart(cart, item.id) ==>
      |r| == |cart| + 1 && r[..|cart|] == cart && r[|cart|] == WithQuantity(item, 1)
    ensures InCart(cart, item.id) ==>
      |r| == |cart| &&
      forall i :: 0 <= i < |cart| && cart[i].id == item.id ==>
        r[i] == WithQuantity(item, cart[i].quantity + 1)
    ensures forall i :: 0 <= i < |cart| && cart[i].id != item.id ==> r[i] == cart[i]
    ensures forall id :: InCart(r, id) <==> InCart(cart, id) || id == item.id
  {
    if Find(cart, item.id).Some? then Merge(cart, item) else cart + [WithQuantity(item, 1)]
  }

  /** The `filterId` callback of `increment`: bumps a matching line and
      always returns the line, so the filter keeps every line. */
  function IncrementLine(l: Line, id: Id): (r: Line)
    ensures r.(quantity := l.quantity) == l
    ensures r.quantity == if l.id == id then l.quantity + 1 else l.quantity
  {
    if l.id == id then l.(quantity := l.quantity + 1) else l
  }

  /** The `filterId` callback of `decrement`: lowers a matching line only
      while its quantity is above 1, and always returns the line. */
  function DecrementLine(l: Line, id: Id): (r: Line)
    ensures r.(quantity := l.quantity) == l
    ensures r.quantity == if l.id == id && l.quantity > 1 then l.quantity - 1 else l.quantity
    ensures l.quantity >= 1 ==> r.quantity >= 1
  {
    if l.id == id && l.quantity > 1 then l.(quantity := l.quantity - 1) else l
  }

  /** The cart after `increment(id)`, line by line. */
  function Incremented(cart: seq<Line>, id: Id): (r: seq<Line>)
    ensures |r| == |cart|
    ensures forall i :: 0 <= i < |cart| ==> r[i] == IncrementLine(cart[i], id)
  {
    if cart == [] then [] else [IncrementLine(cart[0], id)] + Incremented(cart[1..], id)
  }

  /** The cart after `decrement(id)`, line by line. */
  function Decremented(cart: seq<Line>, id: Id): (r: seq<Line>)
    ensures |r| == |cart|
    ensures forall i :: 0 <= i < |cart| ==> r[i] == DecrementLine(cart[i], id)
  {
    if cart == [] then [] else [DecrementLine(cart[0], id)] + Decremented(cart[1..], id)
  }

  /** `increment`: the filter pass that bumps each matching line. No line is
      removed, lines with another id are unchanged, and an id not in the
      cart leaves the cart as it was. */
  method Increment(cart: seq<Line>, id: Id) returns (r: seq<Line>)
    ensures |r| == |cart|
    ensures forall i :: 0 <= i < |cart| ==>
      r[i] == cart[i].(quantity := if cart[i].id == id then cart[i].quantity + 1 else cart[i].quantity)
    ensures !InCart(cart, id) ==> r == cart
    ensures r == Incremented(cart, id)
  {
    r := [];
    var i := 0;
    while i < |cart|
      invariant 0 <= i <= |cart|
      invariant |r| == i
      invariant forall j :: 0 <= j < i ==> r[j] == IncrementLine(cart[j], id)
    {
      var line := cart[i];
      if line.id == id {
        line := line.(quantity := line.quantity + 1);
      }
      r := r + [line];
      i := i + 1;
    }
  }

  /** `decrement`: the filter pass that lowers each matching line whose
      quantity is above 1. A quantity of 1 stays 1 and no line is removed;
      an id not in the cart leaves the cart as it was. */
  method Decrement(cart: seq<Line>, id: Id) returns (r: seq<Line>)
    ensures |r| == |cart|
    ensures forall i :: 0 <= i < |cart| ==>
      r[i] == cart[i].(quantity := if cart[i].id == id && cart[i].quantity > 1
                                   then cart[i].quantity - 1 else cart[i].quantity)
    ensures forall i :: 0 <= i < |cart| ==> r[i].quantity >= 1 || r[i].quantity == cart[i].quantity
    ensures !InCart(cart, id) ==> r == cart
    ensures r == Decremented(cart, id)
  {
    r := [];
    var i := 0;
    while i < |cart|
      invariant 0 <= i <= |cart|
      invariant |r| == i
      invariant forall j :: 0 <= j < i ==> r[j] == DecrementLine(cart[j], id)
    {
      var line := cart[i];
      if line.id == id {
        if line.quantity > 1 {
          line := line.(quantity := line.quantity - 1);
        }
      }
      r := r + [line];
      i := i + 1;
    }
  }

  /** No id appears on two lines. */
  ghost predicate DistinctIds(cart: seq<Line>)
  {
    forall i, j :: 0 <= i < j < |cart| ==> cart[i].id != cart[j].id
  }

  /** Adding keeps the ids of the cart distinct, so a cart built by adding
      alone has one line per product. */
  lemma AddKeepsDistinct(cart: seq<Line>, item: Item)
    requires DistinctIds(cart)
    ensures DistinctIds(AddToCart(cart, item))
  {
    var r := AddToCart(cart, item);
    if !InCart(cart, item.id) {
      forall i, j | 0 <= i < j < |r| ensures r[i].id != r[j].id {
        if j == |cart| {
          assert r[i] == cart[i];
        }
      }
    } else {
      forall i | 0 <= i < |cart| ensures r[i].id == cart[i].id {
      }
    }
  }
}

/** The two aggregates the floating cart shows: the number of items and the
    (unformatted) total price. */
module FloatingCart {

  import Cart
  import Folds

  /** `products.map(product => product.quantity)`. */
  function Quantities(cart: seq<Cart.Line>): (qs: seq<int>)
    ensures |qs| == |cart|
    ensures forall i :: 0 <= i < |cart| ==> qs[i] == cart[i].quantity
  {
    if cart == [] then [] else [cart[0].quantity] + Quantities(cart[1..])
  }

  /** The sum of the quantities of all lines. */
  function ItemsIn(cart: seq<Cart.Line>): int
  {
    if cart == [] then 0 else cart[0].quantity + ItemsIn(cart[1..])
  }

  /** The sum of price times quantity over all lines. */
  function ValueOf(cart: seq<Cart.Line>): int
  {
    if cart == [] then 0 else cart[0].price * cart[0].quantity + ValueOf(cart[1..])
  }

  lemma {:induction false} QuantitiesSum(cart: seq<Cart.Line>)
    ensures Folds.Sum(Quantities(cart)) == ItemsIn(cart)
  {
    if cart != [] {
      assert Quantities(cart)[1..] == Quantities(cart[1..]);
      QuantitiesSum(cart[1..]);
    }
  }

  /** `totalItensInCart`: 0 for an empty cart; otherwise the seedless reduce
      of the quantities. Either way, the sum of all line quantities. */
  function TotalItemsInCart(cart: seq<Cart.Line>): (n: int)
    ensures cart == [] ==> n == 0
    ensures n == ItemsIn(cart)
  {
    if |cart| > 0 then
      QuantitiesSum(cart);
      Folds.ReduceAddNoSeed(Quantities(cart))
    else 0
  }

  /** `products.reduce((accu, prod) => accu + prod.price * prod.quantity, accu)`. */
  function ReduceTotal(accu: int, cart: seq<Cart.Line>): (r: int)
    ensures r == accu + ValueOf(cart)
    decreases cart
  {
    if cart == [] then accu
    else ReduceTotal(accu + cart[0].price * cart[0].quantity, cart[1..])
  }

  /** The sum `cartTotal` hands to the currency formatter: the value of the
      cart, 0 when it is empty. */
  function CartTotal(cart: seq<Cart.Line>): (sum: int)
    ensures cart == [] ==> sum == 0
    ensures sum == ValueOf(cart)
  {
    ReduceTotal(0, cart)
  }

  /** The number of lines carrying `id`. */
  function Count(cart: seq<Cart.Line>, id: Cart.Id): nat
  {
    if cart == [] then 0 else (if cart[0].id == id then 1 else 0) + Count(cart[1..], id)
  }

  lemma {:induction false} ItemsAppend(cart: seq<Cart.Line>, l: Cart.Line)
    ensures ItemsIn(cart + [l]) == ItemsIn(cart) + l.quantity
  {
    if cart != [] {
      assert (cart + [l])[1..] == cart[1..] + [l];
      ItemsAppend(cart[1..], l);
    }
  }

  lemma {:induction false} ItemsMerge(cart: seq<Cart.Line>, item: Cart.Item)
    ensures ItemsIn(Cart.Merge(cart, item)) == ItemsIn(cart) + Count(cart, item.id)
  {
    if cart != [] {
      assert Cart.Merge(cart, item)[1..] == Cart.Merge(cart[1..], item);
      ItemsMerge(cart[1..], item);
    }
  }

  /** One line per id means an id in the cart is on exactly one line. */
  lemma {:induction false} CountOne(cart: seq<Cart.Line>, id: Cart.Id)
    requires Cart.DistinctIds(cart)
    ensures Count(cart, id) == if Cart.InCart(cart, id) then 1 else 0
  {
    if cart != [] {
      assert Cart.DistinctIds(cart[1..]) by {
        forall i, j | 0 <= i < j < |cart| - 1 ensures cart[1..][i].id != cart[1..][j].id {
          assert cart[1..][i] == cart[i + 1] && cart[1..][j] == cart[j + 1];
        }
      }
      CountOne(cart[1..], id);
      if cart[0].id == id {
        assert !Cart.InCart(cart[1..], id) by {
          forall i | 0 <= i < |cart| - 1 ensures cart[1..][i].id != id {
            assert cart[1..][i] == cart[i + 1];
          }
        }
      } else {
        if Cart.InCart(cart, id) {
          var i :| 0 <= i < |cart| && cart[i].id == id;
          assert cart[1..][i - 1].id == id;
        }
        if Cart.InCart(cart[1..], id) {
          var i :| 0 <= i < |cart| - 1 && cart[1..][i].id == id;
          assert cart[i + 1].id == id;
        }
      }
    }
  }

  /** `addToCart` raises the item count by the number of lines it bumps,
      or by 1 when it appends a new line. */
  lemma AddToCartCount(cart: seq<Cart.Line>, item: Cart.Item)
    ensures TotalItemsInCart(Cart.AddToCart(cart, item))
         == TotalItemsInCart(cart) + if Cart.InCart(cart, item.id) then Count(cart, item.id) else 1
  {
    if Cart.InCart(cart, item.id) {
      ItemsMerge(cart, item);
    } else {
      ItemsAppend(cart, Cart.WithQuantity(item, 1));
    }
  }

  /** On a cart with one line per id, `addToCart` raises the item count by
      exactly one. */
  lemma AddToCartAddsOne(cart: seq<Cart.Line>, item: Cart.Item)
    requires Cart.DistinctIds(cart)
    ensures TotalItemsInCart(Cart.AddToCart(cart, item)) == TotalItemsInCart(cart) + 1
  {
    AddToCartCount(cart, item);
    CountOne(cart, item.id);
  }

  lemma {:induction false} ItemsIncremented(cart: seq<Cart.Line>, id: Cart.Id)
    ensures ItemsIn(Cart.Incremented(cart, id)) == ItemsIn(cart) + Count(cart, id)
  {
    if cart != [] {
      assert Cart.Incremented(cart, id)[1..] == Cart.Incremented(cart[1..], id);
      ItemsIncremented(cart[1..], id);
    }
  }

  lemma {:induction false} ValueIncremented(cart: seq<Cart.Line>, id: Cart.Id)
    ensures ValueOf(Cart.Incremented(cart, id)) == ValueOf(cart) + PriceOf(cart, id)
  {
    if cart != [] {
      var l := cart[0];
      var l' := Cart.IncrementLine(l, id);
      assert l'.price * l'.quantity == l.price * l.quantity + if l.id == id then l.price else 0 by {
        if l.id == id {
          assert l'.price * l'.quantity == l.price * (l.quantity + 1);
        }
      }
      assert Cart.Incremented(cart, id)[1..] == Cart.Incremented(cart[1..], id);
      ValueIncremented(cart[1..], id);
    }
  }

  /** `increment(id)` raises the item count by the number of lines with that
      id and the total by their prices. */
  lemma IncrementCount(cart: seq<Cart.Line>, id: Cart.Id)
    ensures TotalItemsInCart(Cart.Incremented(cart, id)) == TotalItemsInCart(cart) + Count(cart, id)
    ensures CartTotal(Cart.Incremented(cart, id)) == CartTotal(cart) + PriceOf(cart, id)
  {
    ItemsIncremented(cart, id);
    ValueIncremented(cart, id);
  }

  /** The sum of the prices of the lines carrying `id`. */
  function PriceOf(cart: seq<Cart.Line>, id: Cart.Id): int
  {
    if cart == [] then 0 else (if cart[0].id == id then cart[0].price else 0) + PriceOf(cart[1..], id)
  }

  /** The number of lines carrying `id` whose quantity is above 1. */
  function CountAboveOne(cart: seq<Cart.Line>, id: Cart.Id): nat
  {
    if cart == [] then 0
    else (if cart[0].id == id && cart[0].quantity > 1 then 1 else 0) + CountAboveOne(cart[1..], id)
  }

  /** `decrement(id)` lowers the item count by the number of lines with that
      id whose quantity was above 1; lines at 1 do not count. */
  lemma {:induction false} DecrementCount(cart: seq<Cart.Line>, id: Cart.Id)
    ensures TotalItemsInCart(Cart.Decremented(cart, id)) == TotalItemsInCart(cart) - CountAboveOne(cart, id)
  {
    if cart != [] {
      assert Cart.Decremented(cart, id)[1..] == Cart.Decremented(cart[1..], id);
      DecrementCount(cart[1..], id);
    }
  }
}

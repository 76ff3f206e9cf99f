/**
 * The cart and quantity engine of Catalog.jsx, on values: the quantity clamp,
 * the cart-line upsert, filter and in-place update, the two totals and the
 * order summary. The stateful handlers that apply these to the component's
 * state are in module CatalogComponent.
 */
module Cart {
  import opened Wrappers
  import opened Products

  /** A cart line: a copy of the product record plus its quantity (`{...product, quantity}`). */
  datatype Line = Line(item: Product, quantity: int)

  /** `quantities`: product id to the desired quantity. */
  type Quantities = map<int, int>

  /** The product ids that have a line in `cart`. */
  function LineIds(cart: seq<Line>): set<int> {
    set l | l in cart :: l.item.id
  }

  /** `cart.find(item => item.id === id)` finds a line: `id` is among the cart's product ids. */
  predicate HasLine(cart: seq<Line>, id: int)
    ensures HasLine(cart, id) <==> id in LineIds(cart)
  {
    exists i :: 0 <= i < |cart| && cart[i].item.id == id
  }

  /** The cart invariant: at most one line per product id. */
  predicate DistinctIds(cart: seq<Line>) {
    forall i, j :: 0 <= i < j < |cart| ==> cart[i].item.id != cart[j].item.id
  }

  predicate AllPositive(cart: seq<Line>) {
    forall i :: 0 <= i < |cart| ==> cart[i].quantity >= 1
  }

  predicate QuantitiesPositive(quantities: Quantities) {
    forall id :: id in quantities ==> quantities[id] >= 1
  }

  /**
   * `Math.max(1, parseInt(value) || 1)`, with the parse already done: `None`
   * is a `NaN` parse. Non-numeric input, 0 and negatives give 1; any other
   * integer is kept.
   */
  function ClampQuantity(value: Option<int>): (q: int)
    ensures q >= 1
    ensures q == 1 <==> value.None? || value.value <= 1
    ensures value.Some? && value.value >= 1 ==> q == value.value
  {
    var parsed := if value.Some? && value.value != 0 then value.value else 1;
    if parsed > 1 then parsed else 1
  }

  /** `quantities[id] || 1`: the recorded quantity, 1 when absent (or a falsy 0). */
  function RecordedQuantity(quantities: Quantities, id: int): (q: int)
    ensures q != 0
    ensures id in quantities && quantities[id] != 0 ==> q == quantities[id]
    ensures id !in quantities || quantities[id] == 0 ==> q == 1
    ensures QuantitiesPositive(quantities) ==> q >= 1
  {
    if id in quantities && quantities[id] != 0 then quantities[id] else 1
  }

  /** `products.find(p => p.id === id)`. */
  function FindProduct(products: seq<Product>, id: int): (r: Option<Product>)
    ensures r.None? <==> forall i :: 0 <= i < |products| ==> products[i].id != id
    ensures r.Some? ==> r.value.id == id && r.value in products
  {
    if products == [] then None
    else if products[0].id == id then Some(products[0])
    else FindProduct(products[1..], id)
  }

  /**
   * `cart.map(item => item.id === id ? {...item, quantity} : item)`: every
   * line for `id` takes the new quantity; length, order, product records and
   * all other lines are kept.
   */
  function SetLineQuantity(cart: seq<Line>, id: int, quantity: int): (r: seq<Line>)
    ensures |r| == |cart|
    ensures forall i :: 0 <= i < |cart| ==> r[i].item == cart[i].item
    ensures forall i :: 0 <= i < |cart| && cart[i].item.id == id ==> r[i].quantity == quantity
    ensures forall i :: 0 <= i < |cart| && cart[i].item.id != id ==> r[i] == cart[i]
  {
    if cart == [] then []
    else
      var head := if cart[0].item.id == id then cart[0].(quantity := quantity) else cart[0];
      [head] + SetLineQuantity(cart[1..], id, quantity)
  }

  /** `cart.filter(item => item.id !== id)`: exactly the lines for other products remain. */
  function RemoveLines(cart: seq<Line>, id: int): (r: seq<Line>)
    ensures |r| <= |cart|
    ensures forall l :: l in r <==> l in cart && l.item.id != id
    ensures !HasLine(cart, id) ==> r == cart
  {
    if cart == [] then []
    else if cart[0].item.id == id then RemoveLines(cart[1..], id)
    else [cart[0]] + RemoveLines(cart[1..], id)
  }

  /**
   * `addToCartAutomatically` on values: nothing when `id` is not a product;
   * the existing line's quantity updated in place; otherwise one new line
   * appended at the end.
   */
  function Upsert(cart: seq<Line>, products: seq<Product>, id: int, quantity: int): (r: seq<Line>)
    ensures FindProduct(products, id).None? ==> r == cart
    ensures FindProduct(products, id).Some? && HasLine(cart, id) ==> r == SetLineQuantity(cart, id, quantity)
    ensures FindProduct(products, id).Some? && !HasLine(cart, id) ==>
              r == cart + [Line(FindProduct(products, id).value, quantity)]
  {
    match FindProduct(products, id)
    case None => cart
    case Some(p) =>
      if HasLine(cart, id) then SetLineQuantity(cart, id, quantity) else cart + [Line(p, quantity)]
  }

  /** `cartTotal`: `cart.reduce((sum, item) => sum + item.quantity, 0)`, the badge count. */
  function ItemCount(cart: seq<Line>): (n: int)
    ensures AllPositive(cart) ==> n >= |cart|
  {
    if cart == [] then 0 else ItemCount(cart[..|cart| - 1]) + cart[|cart| - 1].quantity
  }

  /** `cart.reduce((sum, item) => sum + item.price_per_product * item.quantity, 0)`. */
  function OrderTotal(cart: seq<Line>): (t: int)
    ensures (forall i :: 0 <= i < |cart| ==> cart[i].item.price >= 0 && cart[i].quantity >= 0) ==> t >= 0
  {
    if cart == [] then 0
    else
      var last := cart[|cart| - 1];
      OrderTotal(cart[..|cart| - 1]) + last.item.price * last.quantity
  }

  /** One line of the order message: name, quantity and price times quantity. */
  datatype OrderLine = OrderLine(name: string, quantity: int, amount: int)

  /** The order hand-off: the fixed recipient, one line per cart item in cart order, and the total. */
  datatype Order = Order(phone: string, lines: seq<OrderLine>, total: int)

  const OrderPhone: string := "919514083145"

  function OrderLineOf(l: Line): OrderLine {
    OrderLine(l.item.name, l.quantity, l.item.price * l.quantity)
  }

  function SumAmounts(lines: seq<OrderLine>): int {
    if lines == [] then 0 else SumAmounts(lines[..|lines| - 1]) + lines[|lines| - 1].amount
  }

  /**
   * `handlePlaceOrder` without the link opening: nothing for an empty cart,
   * otherwise the order for the fixed number with one line per cart line.
   */
  function PlaceOrder(cart: seq<Line>): (r: Option<Order>)
    ensures r.None? <==> cart == []
    ensures r.Some? ==> r.value.phone == OrderPhone && |r.value.lines| == |cart|
    ensures r.Some? ==>
              forall i :: 0 <= i < |cart| ==>
                && r.value.lines[i].name == cart[i].item.name
                && r.value.lines[i].quantity == cart[i].quantity
                && r.value.lines[i].amount == cart[i].item.price * cart[i].quantity
    ensures r.Some? ==> r.value.total == OrderTotal(cart)
  {
    if cart == [] then None
    else Some(Order(OrderPhone, seq(|cart|, i requires 0 <= i < |cart| => OrderLineOf(cart[i])), OrderTotal(cart)))
  }

  // ------------------------------------------------------- lemmas: upsert

  /** Upserting keeps at most one line per id. */
  lemma UpsertKeepsDistinct(cart: seq<Line>, products: seq<Product>, id: int, quantity: int)
    requires DistinctIds(cart)
    ensures DistinctIds(Upsert(cart, products, id, quantity))
  {
    var r := Upsert(cart, products, id, quantity);
    if FindProduct(products, id).Some? && !HasLine(cart, id) {
      forall i, j | 0 <= i < j < |r| ensures r[i].item.id != r[j].item.id {
        if j == |cart| {
          assert r[j].item.id == id;
          assert r[i] == cart[i];
        }
      }
    }
  }

  /**
   * After an upsert of a known product, the cart has a line for `id`, every
   * line for `id` has the requested quantity, and lines for other products
   * are where they were and unchanged.
   */
  lemma UpsertRecordsQuantity(cart: seq<Line>, products: seq<Product>, id: int, quantity: int)
    requires FindProduct(products, id).Some?
    ensures var r := Upsert(cart, products, id, quantity);
      && HasLine(r, id)
      && (forall i :: 0 <= i < |r| && r[i].item.id == id ==> r[i].quantity == quantity)
      && |cart| <= |r| <= |cart| + 1
      && (forall i :: 0 <= i < |cart| && cart[i].item.id != id ==> r[i] == cart[i])
  {
    var r := Upsert(cart, products, id, quantity);
    if HasLine(cart, id) {
      var k :| 0 <= k < |cart| && cart[k].item.id == id;
      assert r[k].item.id == id;
    } else {
      assert r[|cart|].item.id == id;
    }
  }

  /** Upserting the same id and quantity twice is the same as once (adding to the cart is idempotent). */
  lemma UpsertIdempotent(cart: seq<Line>, products: seq<Product>, id: int, quantity: int)
    ensures Upsert(Upsert(cart, products, id, quantity), products, id, quantity) == Upsert(cart, products, id, quantity)
  {
    var r := Upsert(cart, products, id, quantity);
    if FindProduct(products, id).Some? {
      UpsertRecordsQuantity(cart, products, id, quantity);
      var r2 := SetLineQuantity(r, id, quantity);
      assert |r2| == |r|;
      forall i | 0 <= i < |r| ensures r2[i] == r[i] {
        if r[i].item.id == id {
          assert r2[i].quantity == r[i].quantity;
        }
      }
    }
  }

  /** Upserting with a positive quantity keeps every line's quantity positive. */
  lemma UpsertKeepsPositive(cart: seq<Line>, products: seq<Product>, id: int, quantity: int)
    requires AllPositive(cart) && quantity >= 1
    ensures AllPositive(Upsert(cart, products, id, quantity))
  {
    var r := Upsert(cart, products, id, quantity);
    if FindProduct(products, id).Some? && !HasLine(cart, id) {
      assert forall i :: 0 <= i < |cart| ==> r[i] == cart[i];
    }
  }

  // ------------------------------------------------- lemmas: remove, update

  /** Removing keeps at most one line per id and every remaining quantity positive. */
  lemma {:induction false} RemoveKeepsInvariant(cart: seq<Line>, id: int)
    requires DistinctIds(cart) && AllPositive(cart)
    ensures DistinctIds(RemoveLines(cart, id)) && AllPositive(RemoveLines(cart, id))
  {
    if cart != [] {
      RemoveKeepsInvariant(cart[1..], id);
      var rest := RemoveLines(cart[1..], id);
      if cart[0].item.id != id {
        var r := [cart[0]] + rest;
        forall i, j | 0 <= i < j < |r| ensures r[i].item.id != r[j].item.id {
          if i == 0 {
            assert r[j] in rest;
            assert r[j] in cart[1..];
          }
        }
        forall i | 0 <= i < |r| ensures r[i].quantity >= 1 {
          if i > 0 {
            assert r[i] in cart[1..];
          }
        }
      }
    }
  }

  lemma DistinctTail(cart: seq<Line>)
    requires cart != [] && DistinctIds(cart)
    ensures DistinctIds(cart[1..])
  {
    forall i, j | 0 <= i < j < |cart| - 1 ensures cart[1..][i].item.id != cart[1..][j].item.id {
      assert cart[1..][i] == cart[i + 1] && cart[1..][j] == cart[j + 1];
    }
  }

  lemma {:induction false} RemoveAbsent(cart: seq<Line>, id: int)
    requires forall i :: 0 <= i < |cart| ==> cart[i].item.id != id
    ensures RemoveLines(cart, id) == cart
  {
    if cart != [] {
      RemoveAbsent(cart[1..], id);
    }
  }

  /**
   * With one line per id, removing the line at position `k` is exactly
   * deleting that position: the other lines keep their relative order.
   */
  lemma {:induction false} RemoveIsDeletion(cart: seq<Line>, id: int, k: nat)
    requires DistinctIds(cart)
    requires k < |cart| && cart[k].item.id == id
    ensures RemoveLines(cart, id) == cart[..k] + cart[k + 1..]
  {
    if k == 0 {
      RemoveFirst(cart, id);
    } else {
      DistinctTail(cart);
      RemoveIsDeletion(cart[1..], id, k - 1);
      RemoveKeepsHead(cart, id);
      ShiftSlices(cart, k);
      LinesAssoc([cart[0]], cart[1..k], cart[k + 1..]);
    }
  }

  /** With one line per id, removing the id of the first line drops just that line. */
  lemma RemoveFirst(cart: seq<Line>, id: int)
    requires DistinctIds(cart)
    requires cart != [] && cart[0].item.id == id
    ensures RemoveLines(cart, id) == cart[..0] + cart[1..]
  {
    var tail := cart[1..];
    forall i | 0 <= i < |tail| ensures tail[i].item.id != id {
      assert tail[i] == cart[i + 1];
    }
    RemoveAbsent(tail, id);
  }

  lemma RemoveKeepsHead(cart: seq<Line>, id: int)
    requires cart != [] && cart[0].item.id != id
    ensures RemoveLines(cart, id) == [cart[0]] + RemoveLines(cart[1..], id)
  {
  }

  lemma ShiftSlices(cart: seq<Line>, k: nat)
    requires 0 < k < |cart|
    ensures cart[1..][..k - 1] == cart[1..k] && cart[1..][k..] == cart[k + 1..]
    ensures cart[..k] == [cart[0]] + cart[1..k]
  {
  }

  lemma LinesAssoc(p: seq<Line>, q: seq<Line>, r: seq<Line>)
    ensures p + (q + r) == p + q + r
  {
  }

  /** Removing a product's lines takes exactly its id out of the cart's ids. */
  lemma RemoveDropsId(cart: seq<Line>, id: int)
    ensures LineIds(RemoveLines(cart, id)) == LineIds(cart) - {id}
  {
    var r := RemoveLines(cart, id);
    forall x | x in LineIds(cart) - {id} ensures x in LineIds(r) {
      var l :| l in cart && l.item.id == x;
      assert l in r;
    }
  }

  /** Upserting a product of the list puts its id among the cart's ids and adds no other. */
  lemma UpsertAddsId(cart: seq<Line>, products: seq<Product>, id: int, quantity: int)
    requires FindProduct(products, id).Some?
    ensures LineIds(Upsert(cart, products, id, quantity)) == LineIds(cart) + {id}
  {
    var r := Upsert(cart, products, id, quantity);
    if HasLine(cart, id) {
      var s := SetLineQuantity(cart, id, quantity);
      forall x | x in LineIds(cart) ensures x in LineIds(s) {
        var i :| 0 <= i < |cart| && cart[i].item.id == x;
        assert s[i].item.id == x;
      }
      forall x | x in LineIds(s) ensures x in LineIds(cart) {
        var i :| 0 <= i < |s| && s[i].item.id == x;
        assert cart[i].item.id == x;
      }
    } else {
      var line := Line(FindProduct(products, id).value, quantity);
      assert r == cart + [line];
      forall x | x in LineIds(r) ensures x in LineIds(cart) + {id} {
        var l :| l in r && l.item.id == x;
        assert l in cart || l == line;
      }
      assert line in r;
    }
  }

  /** An in-place quantity update keeps at most one line per id (it never adds a line). */
  lemma SetKeepsDistinct(cart: seq<Line>, id: int, quantity: int)
    requires DistinctIds(cart)
    ensures DistinctIds(SetLineQuantity(cart, id, quantity))
  {
    var r := SetLineQuantity(cart, id, quantity);
    forall i, j | 0 <= i < j < |r| ensures r[i].item.id != r[j].item.id {
      assert r[i].item == cart[i].item && r[j].item == cart[j].item;
    }
  }

  /** With one line per id, the in-place update replaces exactly the line at position `k`. */
  lemma SetIsReplacement(cart: seq<Line>, id: int, quantity: int, k: nat)
    requires DistinctIds(cart)
    requires k < |cart| && cart[k].item.id == id
    ensures SetLineQuantity(cart, id, quantity) == cart[..k] + [cart[k].(quantity := quantity)] + cart[k + 1..]
  {
    var r := SetLineQuantity(cart, id, quantity);
    var s := cart[..k] + [cart[k].(quantity := quantity)] + cart[k + 1..];
    assert |r| == |s|;
    forall i | 0 <= i < |r| ensures r[i] == s[i] {
      if i == k {
        assert r[i].item == cart[k].item && r[i].quantity == quantity;
      } else {
        assert cart[i].item.id != id;
      }
    }
  }

  // --------------------------------------------------------- lemmas: totals

  lemma {:induction false} ItemCountConcat(a: seq<Line>, b: seq<Line>)
    ensures ItemCount(a + b) == ItemCount(a) + ItemCount(b)
  {
    if b != [] {
      ItemCountConcat(a, b[..|b| - 1]);
      assert (a + b)[..|a + b| - 1] == a + b[..|b| - 1];
    } else {
      assert a + b == a;
    }
  }

  lemma {:induction false} OrderTotalConcat(a: seq<Line>, b: seq<Line>)
    ensures OrderTotal(a + b) == OrderTotal(a) + OrderTotal(b)
  {
    if b != [] {
      OrderTotalConcat(a, b[..|b| - 1]);
      assert (a + b)[..|a + b| - 1] == a + b[..|b| - 1];
    } else {
      assert a + b == a;
    }
  }

  /** A cart of positive quantities shows the badge (a count above 0) exactly when it is not empty. */
  lemma BadgeShownIffNotEmpty(cart: seq<Line>)
    requires AllPositive(cart)
    ensures ItemCount(cart) > 0 <==> cart != []
  {
  }

  lemma SplitAt(cart: seq<Line>, k: nat)
    requires k < |cart|
    ensures cart == cart[..k] + [cart[k]] + cart[k + 1..]
  {
  }

  /** The badge count of a cart split around one line. */
  lemma ItemCountAround(a: seq<Line>, x: Line, b: seq<Line>)
    ensures ItemCount(a + [x] + b) == ItemCount(a) + x.quantity + ItemCount(b)
  {
    ItemCountConcat(a + [x], b);
    assert (a + [x])[..|a|] == a;
  }

  /** Removing the line for `id` lowers the badge count by that line's quantity. */
  lemma ItemCountAfterRemove(cart: seq<Line>, id: int, k: nat)
    requires DistinctIds(cart)
    requires k < |cart| && cart[k].item.id == id
    ensures ItemCount(RemoveLines(cart, id)) == ItemCount(cart) - cart[k].quantity
  {
    RemoveIsDeletion(cart, id, k);
    SplitAt(cart, k);
    ItemCountAround(cart[..k], cart[k], cart[k + 1..]);
    ItemCountConcat(cart[..k], cart[k + 1..]);
  }

  /** Updating the line for `id` in place changes the badge count by the difference in quantity. */
  lemma ItemCountAfterSet(cart: seq<Line>, id: int, quantity: int, k: nat)
    requires DistinctIds(cart)
    requires k < |cart| && cart[k].item.id == id
    ensures ItemCount(SetLineQuantity(cart, id, quantity)) == ItemCount(cart) - cart[k].quantity + quantity
  {
    SetIsReplacement(cart, id, quantity, k);
    SplitAt(cart, k);
    ItemCountAround(cart[..k], cart[k], cart[k + 1..]);
    ItemCountAround(cart[..k], cart[k].(quantity := quantity), cart[k + 1..]);
  }

  /** Appending a new line for a product adds its quantity to the badge and price times quantity to the total. */
  lemma TotalsAfterAppend(cart: seq<Line>, line: Line)
    ensures ItemCount(cart + [line]) == ItemCount(cart) + line.quantity
    ensures OrderTotal(cart + [line]) == OrderTotal(cart) + line.item.price * line.quantity
  {
    assert (cart + [line])[..|cart|] == cart;
  }

  /** The order total of lines (price 100, quantity 2) and (price 50, quantity 3) is 350. */
  lemma OrderTotalExample(a: Product, b: Product)
    requires a.price == 100 && b.price == 50
    ensures OrderTotal([Line(a, 2), Line(b, 3)]) == 350
  {
    var first := [Line(a, 2)];
    assert first[..0] == [];
    assert OrderTotal(first) == 200;
    assert [Line(a, 2), Line(b, 3)][..1] == first;
  }

  /** The order's total is the sum of its lines' amounts. */
  lemma {:induction false} OrderTotalIsSumOfLines(cart: seq<Line>)
    requires cart != []
    ensures PlaceOrder(cart).value.total == SumAmounts(PlaceOrder(cart).value.lines)
  {
    var lines := PlaceOrder(cart).value.lines;
    assert forall i :: 0 <= i < |cart| ==> lines[i] == OrderLineOf(cart[i]);
    var n := |cart|;
    if n > 1 {
      var prefix := cart[..n - 1];
      OrderTotalIsSumOfLines(prefix);
      var prefixLines := PlaceOrder(prefix).value.lines;
      assert prefixLines == lines[..n - 1];
    } else {
      assert lines[..0] == [] && cart[..0] == [];
      assert SumAmounts(lines) == lines[0].amount;
      assert OrderTotal(cart) == cart[0].item.price * cart[0].quantity;
    }
  }
}

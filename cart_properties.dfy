/**
 * What the cart reducer of components/cart/cart-context.tsx guarantees:
 * line-level round trips, which lines each action touches, how the totals
 * move, and the invariant the reducer keeps.
 */
module CartProperties {
  import opened Wrappers
  import opened Types
  import opened CartContext

  /** No two lines are for the same merchandise. */
  predicate UniqueMerchandise(lines: seq<CartItem>)
  {
    forall i, j :: 0 <= i < j < |lines| ==> lines[i].merchandise.id != lines[j].merchandise.id
  }

  predicate PositiveQuantities(lines: seq<CartItem>)
  {
    forall i :: 0 <= i < |lines| ==> lines[i].quantity > 0
  }

  /** The cart invariant: positive quantities, one line per merchandise, totals that agree. */
  ghost predicate Valid(cart: Cart)
  {
    PositiveQuantities(cart.lines) && UniqueMerchandise(cart.lines) && Consistent(cart)
  }

  /**
   * A cart whose cost is what the reducer would recompute from its lines:
   * consistent totals and, when it has lines, subtotal equal to total in
   * the first line's currency.
   */
  ghost predicate Settled(cart: Cart)
  {
    && Consistent(cart)
    && (cart.lines != [] ==>
          && cart.cost.subtotalAmount == cart.cost.totalAmount
          && cart.cost.totalAmount.currencyCode == cart.lines[0].cost.totalAmount.currencyCode)
  }

  /** The lines that are not for `productId`, in order. */
  function Others(lines: seq<CartItem>, productId: string): seq<CartItem>
  {
    if lines == [] then []
    else (if Matches(lines[0], productId) then [] else [lines[0]]) + Others(lines[1..], productId)
  }

  lemma {:induction false} OthersAppend(a: seq<CartItem>, b: seq<CartItem>, productId: string)
    ensures Others(a + b, productId) == Others(a, productId) + Others(b, productId)
  {
    if a == [] {
      assert a + b == b;
    } else {
      assert (a + b)[1..] == a[1..] + b;
      OthersAppend(a[1..], b, productId);
    }
  }

  // ---------------------------------------------------------------------
  // One line: updateCartItem and the locked unit price
  // ---------------------------------------------------------------------

  /** Plus then minus gives the original line back: the unit price is locked. */
  lemma PlusThenMinusRestoresItem(item: CartItem)
    requires item.quantity > 0
    ensures UpdateCartItem(item, Plus).Some?
    ensures UpdateCartItem(UpdateCartItem(item, Plus).value, Minus) == Some(item)
  {
    var up := UpdateCartItem(item, Plus).value;
    var down := UpdateCartItem(up, Minus).value;
    var q := item.quantity as real;
    var t := item.cost.totalAmount.amount;
    assert up.cost.totalAmount.amount == (t / q) * (q + 1.0);
    assert down.cost.totalAmount.amount == (up.cost.totalAmount.amount / (q + 1.0)) * q;
    assert up.cost.totalAmount.amount / (q + 1.0) == t / q;
  }

  /** Minus then plus gives the original line back when the line survives the minus. */
  lemma MinusThenPlusRestoresItem(item: CartItem)
    requires item.quantity > 1
    ensures UpdateCartItem(item, Minus).Some?
    ensures UpdateCartItem(UpdateCartItem(item, Minus).value, Plus) == Some(item)
  {
    var down := UpdateCartItem(item, Minus).value;
    var q := item.quantity as real;
    var t := item.cost.totalAmount.amount;
    assert down.cost.totalAmount.amount == (t / q) * (q - 1.0);
    assert down.cost.totalAmount.amount / (q - 1.0) == t / q;
    assert (t / q) * q == t;
    assert UpdateCartItem(down, Plus).value.cost.totalAmount.amount == t;
  }

  // ---------------------------------------------------------------------
  // UPDATE_ITEM on the lines
  // ---------------------------------------------------------------------

  /** UPDATE_ITEM keeps every line for another product, in the same order. */
  lemma {:induction false} UpdateLinesKeepsOthers(lines: seq<CartItem>, productId: string, updateType: UpdateType)
    requires Updatable(lines, productId, updateType)
    ensures Others(UpdateLines(lines, productId, updateType), productId) == Others(lines, productId)
  {
    if lines != [] {
      var head := UpdateLine(lines[0], productId, updateType);
      UpdateLinesKeepsOthers(lines[1..], productId, updateType);
      OthersAppend(head.ToSeq(), UpdateLines(lines[1..], productId, updateType), productId);
      assert Others(head.ToSeq(), productId) == if Matches(lines[0], productId) then [] else [lines[0]];
    }
  }

  /** With no line for the product, UPDATE_ITEM leaves the lines as they are. */
  lemma {:induction false} UpdateLinesNoMatch(lines: seq<CartItem>, productId: string, updateType: UpdateType)
    requires forall i :: 0 <= i < |lines| ==> !Matches(lines[i], productId)
    ensures Updatable(lines, productId, updateType)
    ensures UpdateLines(lines, productId, updateType) == lines
  {
    if lines != [] {
      UpdateLinesNoMatch(lines[1..], productId, updateType);
      assert lines == [lines[0]] + lines[1..];
    }
  }

  /** Lines that can each be updated can be updated together. */
  lemma UpdatableAppend(a: seq<CartItem>, b: seq<CartItem>, productId: string, updateType: UpdateType)
    requires Updatable(a, productId, updateType) && Updatable(b, productId, updateType)
    ensures Updatable(a + b, productId, updateType)
  {
    forall i | 0 <= i < |a + b| ensures LineUpdatable((a + b)[i], productId, updateType) {
      if i < |a| {
        assert (a + b)[i] == a[i];
      } else {
        assert (a + b)[i] == b[i - |a|];
      }
    }
  }

  /** The lines after the first of updatable lines are updatable. */
  lemma UpdatableTail(a: seq<CartItem>, productId: string, updateType: UpdateType)
    requires a != [] && Updatable(a, productId, updateType)
    ensures LineUpdatable(a[0], productId, updateType) && Updatable(a[1..], productId, updateType)
  {
    forall i | 0 <= i < |a[1..]| ensures LineUpdatable(a[1..][i], productId, updateType) {
      assert a[1..][i] == a[i + 1];
    }
  }

  /** UPDATE_ITEM works line by line: it distributes over concatenation. */
  lemma {:induction false} UpdateLinesAppend(a: seq<CartItem>, b: seq<CartItem>, productId: string, updateType: UpdateType)
    requires Updatable(a, productId, updateType) && Updatable(b, productId, updateType)
    ensures Updatable(a + b, productId, updateType)
    ensures UpdateLines(a + b, productId, updateType)
         == UpdateLines(a, productId, updateType) + UpdateLines(b, productId, updateType)
  {
    UpdatableAppend(a, b, productId, updateType);
    if a != [] {
      UpdatableTail(a, productId, updateType);
      var head := UpdateLine(a[0], productId, updateType).ToSeq();
      assert (a + b)[0] == a[0] && (a + b)[1..] == a[1..] + b;
      UpdateLinesAppend(a[1..], b, productId, updateType);
      assert UpdateLines(a + b, productId, updateType) == head + UpdateLines(a[1..] + b, productId, updateType);
    } else {
      assert a + b == b;
    }
  }

  /** On a single line, UPDATE_ITEM is the line step. */
  lemma UpdateLinesSingle(line: CartItem, productId: string, updateType: UpdateType)
    requires LineUpdatable(line, productId, updateType)
    ensures Updatable([line], productId, updateType)
    ensures UpdateLines([line], productId, updateType) == UpdateLine(line, productId, updateType).ToSeq()
  {
    assert [line][1..] == [];
  }

  /** With exactly one line for the product, at `k`, only that line is updated or removed. */
  lemma UpdateLinesAt(lines: seq<CartItem>, productId: string, updateType: UpdateType, k: nat)
    requires k < |lines| && Matches(lines[k], productId)
    requires forall j :: 0 <= j < |lines| && j != k ==> !Matches(lines[j], productId)
    requires updateType != Delete ==> lines[k].quantity > 0
    ensures UpdateLines(lines, productId, updateType)
         == lines[..k] + UpdateCartItem(lines[k], updateType).ToSeq() + lines[k + 1..]
  {
    var before, line, after := lines[..k], lines[k], lines[k + 1..];
    assert forall i :: 0 <= i < |before| ==> before[i] == lines[i];
    assert forall i :: 0 <= i < |after| ==> after[i] == lines[k + 1 + i];
    UpdateLinesSplice(before, line, after, productId, updateType);
    assert lines == before + [line] + after;
  }

  /** UPDATE_ITEM on a single matching line between lines for other products. */
  lemma UpdateLinesSplice(before: seq<CartItem>, line: CartItem, after: seq<CartItem>, productId: string, updateType: UpdateType)
    requires forall i :: 0 <= i < |before| ==> !Matches(before[i], productId)
    requires forall i :: 0 <= i < |after| ==> !Matches(after[i], productId)
    requires LineUpdatable(line, productId, updateType)
    ensures Updatable(before + [line] + after, productId, updateType)
    ensures UpdateLines(before + [line] + after, productId, updateType)
         == before + UpdateLine(line, productId, updateType).ToSeq() + after
  {
    UpdateLinesNoMatch(before, productId, updateType);
    UpdateLinesNoMatch(after, productId, updateType);
    UpdateLinesSingle(line, productId, updateType);
    UpdateLinesAppend(before, [line], productId, updateType);
    UpdateLinesAppend(before + [line], after, productId, updateType);
  }

  /** Plus then minus on the same product gives back the same lines. */
  lemma {:induction false} UpdateLinesPlusThenMinus(lines: seq<CartItem>, productId: string)
    requires Updatable(lines, productId, Plus)
    ensures Updatable(UpdateLines(lines, productId, Plus), productId, Minus)
    ensures UpdateLines(UpdateLines(lines, productId, Plus), productId, Minus) == lines
  {
    if lines != [] {
      var up := UpdateLines(lines, productId, Plus);
      var rest := UpdateLines(lines[1..], productId, Plus);
      UpdateLinesPlusThenMinus(lines[1..], productId);
      if Matches(lines[0], productId) {
        PlusThenMinusRestoresItem(lines[0]);
        assert up == [UpdateCartItem(lines[0], Plus).value] + rest;
      } else {
        assert up == [lines[0]] + rest;
      }
      assert up[1..] == rest;
      assert lines == [lines[0]] + lines[1..];
    }
  }

  // ---------------------------------------------------------------------
  // ADD_ITEM on the lines
  // ---------------------------------------------------------------------

  /** `find` returns the first line for the product. */
  lemma {:induction false} FindLineFirst(lines: seq<CartItem>, productId: string, k: nat)
    requires k < |lines| && Matches(lines[k], productId)
    requires forall j :: 0 <= j < k ==> !Matches(lines[j], productId)
    ensures FindLine(lines, productId) == Some(lines[k])
  {
    if k > 0 {
      FindLineFirst(lines[1..], productId, k - 1);
    }
  }

  /** ADD_ITEM's replacement keeps every line for another product, in order. */
  lemma {:induction false} ReplaceLinesKeepsOthers(lines: seq<CartItem>, productId: string, item: CartItem)
    requires Matches(item, productId)
    ensures Others(ReplaceLines(lines, productId, item), productId) == Others(lines, productId)
  {
    if lines != [] {
      var r := ReplaceLines(lines, productId, item);
      assert ReplaceLines(lines[1..], productId, item) == r[1..];
      ReplaceLinesKeepsOthers(lines[1..], productId, item);
      assert r == [r[0]] + r[1..];
      OthersAppend([r[0]], r[1..], productId);
    }
  }

  /** With one line for the product, at `k`, ADD_ITEM's replacement is a point update. */
  lemma ReplaceLinesAt(lines: seq<CartItem>, productId: string, item: CartItem, k: nat)
    requires k < |lines| && Matches(lines[k], productId)
    requires forall j :: 0 <= j < |lines| && j != k ==> !Matches(lines[j], productId)
    ensures ReplaceLines(lines, productId, item) == lines[k := item]
    ensures ReplaceLines(lines, productId, item) == lines[..k] + [item] + lines[k + 1..]
  {
    assert lines[k := item] == lines[..k] + [item] + lines[k + 1..];
  }

  /** In a cart with one line per merchandise, a line for the product at `k` is the only one. */
  lemma UniqueMatch(lines: seq<CartItem>, productId: string, k: nat)
    requires UniqueMerchandise(lines)
    requires k < |lines| && Matches(lines[k], productId)
    ensures forall j :: 0 <= j < |lines| && j != k ==> !Matches(lines[j], productId)
  {
    forall j | 0 <= j < |lines| && j != k
      ensures !Matches(lines[j], productId)
    {
      if j < k {
        assert lines[j].merchandise.id != lines[k].merchandise.id;
      } else {
        assert lines[k].merchandise.id != lines[j].merchandise.id;
      }
    }
  }

  // ---------------------------------------------------------------------
  // The reducer
  // ---------------------------------------------------------------------

  /** Every cart the reducer returns is settled: its totals are re-summed from its lines. */
  lemma ReduceIsSettled(state: Option<Cart>, action: CartAction)
    requires CanReduce(state, action)
    ensures Settled(Reduce(state, action))
  {
  }

  /** A cart that keeps the invariant can take any action. */
  lemma ValidCanReduce(cart: Cart, action: CartAction)
    requires Valid(cart)
    ensures CanReduce(Some(cart), action)
  {
  }

  /** An action on an absent cart acts on `createEmptyCart()`; UPDATE_ITEM gives that empty cart back. */
  lemma UpdateOnAbsentCart(product: Product, updateType: UpdateType)
    ensures Reduce(None, UpdateItem(product, updateType)) == CreateEmptyCart()
  {
  }

  /** ADD_ITEM on an absent cart: one line of quantity 1 at the product's price. */
  lemma AddOnAbsentCart(product: Product)
    ensures var r := Reduce(None, AddItem(product));
      && |r.lines| == 1
      && r.lines[0].quantity == 1
      && r.lines[0].id == Some(product.id)
      && r.lines[0].cost.totalAmount == product.price
      && r.lines[0].merchandise.id == product.id
      && r.totalQuantity == 1
      && r.cost.subtotalAmount == r.cost.totalAmount == product.price
      && r.currency == DefaultCurrency
  {
    var r := Reduce(None, AddItem(product));
    var item := CreateOrUpdateCartItem(None, product);
    assert r.lines == [item];
    assert [item][1..] == [];
    assert item.cost.totalAmount.amount == product.price.amount * 1.0;
  }

  /**
   * Adding a product to an absent cart and then taking one away does not
   * give `createEmptyCart()` back: the subtotal stays at the product's price
   * and the total stays in the product's currency.
   */
  lemma AddThenMinusFromAbsentCart(product: Product)
    ensures var added := Reduce(None, AddItem(product));
      && CanReduce(Some(added), UpdateItem(product, Minus))
      && Reduce(Some(added), UpdateItem(product, Minus))
         == CreateEmptyCart().(cost := CartCost(product.price, Money(0.0, product.price.currencyCode)))
    ensures var added := Reduce(None, AddItem(product));
      (Reduce(Some(added), UpdateItem(product, Minus)) == CreateEmptyCart())
      <==> product.price == Money(0.0, DefaultCurrency)
  {
    var added := Reduce(None, AddItem(product));
    AddOnAbsentCart(product);
    UpdateLinesAt(added.lines, product.id, Minus, 0);
  }

  /** UPDATE_ITEM leaves every line for another product unchanged and in order. */
  lemma UpdateItemKeepsOtherLines(state: Option<Cart>, product: Product, updateType: UpdateType)
    requires CanReduce(state, UpdateItem(product, updateType))
    ensures Others(Reduce(state, UpdateItem(product, updateType)).lines, product.id)
         == Others(Current(state).lines, product.id)
  {
    UpdateLinesKeepsOthers(Current(state).lines, product.id, updateType);
  }

  /** ADD_ITEM leaves every line for another product unchanged and in order. */
  lemma AddItemKeepsOtherLines(state: Option<Cart>, product: Product)
    ensures Others(Reduce(state, AddItem(product)).lines, product.id)
         == Others(Current(state).lines, product.id)
  {
    var lines := Current(state).lines;
    var existingItem := FindLine(lines, product.id);
    var item := CreateOrUpdateCartItem(existingItem, product);
    if existingItem.Some? {
      ReplaceLinesKeepsOthers(lines, product.id, item);
    } else {
      OthersAppend(lines, [item], product.id);
    }
  }

  /** ADD_ITEM for a product with no line appends one new last line. */
  lemma AddItemAppends(state: Option<Cart>, product: Product)
    requires forall i :: 0 <= i < |Current(state).lines| ==> !Matches(Current(state).lines[i], product.id)
    ensures var r := Reduce(state, AddItem(product));
      && r.lines[..|r.lines| - 1] == Current(state).lines
      && var last := r.lines[|r.lines| - 1];
      && last.quantity == 1
      && last.id == Some(product.id)
      && last.cost.totalAmount == product.price
      && last.merchandise.id == product.id
  {
    var lines := Current(state).lines;
    var r := Reduce(state, AddItem(product));
    assert r.lines == lines + [CreateOrUpdateCartItem(None, product)];
    assert r.lines[..|r.lines| - 1] == lines;
  }

  /** The lines ADD_ITEM builds, one step of `Reduce` unfolded. */
  lemma AddItemLines(state: Option<Cart>, product: Product)
    ensures var lines := Current(state).lines;
      var existingItem := FindLine(lines, product.id);
      var item := CreateOrUpdateCartItem(existingItem, product);
      Reduce(state, AddItem(product)).lines
        == if existingItem.Some? then ReplaceLines(lines, product.id, item) else lines + [item]
  {
  }

  /** The lines UPDATE_ITEM builds, one step of `Reduce` unfolded. */
  lemma UpdateItemLines(state: Option<Cart>, product: Product, updateType: UpdateType)
    requires CanReduce(state, UpdateItem(product, updateType))
    ensures Reduce(state, UpdateItem(product, updateType)).lines
         == UpdateLines(Current(state).lines, product.id, updateType)
  {
  }

  /**
   * The line ADD_ITEM builds from an existing line: quantity one more, the
   * existing id (or the product id if it had none), re-priced at the
   * product's current price.
   */
  ghost predicate BumpedLine(line: CartItem, existing: CartItem, product: Product)
  {
    && line.quantity == existing.quantity + 1
    && line.id == (if existing.id.Some? then existing.id else Some(product.id))
    && line.cost.totalAmount
       == Money(product.price.amount * (existing.quantity + 1) as real, product.price.currencyCode)
    && line.merchandise.id == product.id
  }

  /** ADD_ITEM's replacement puts the bumped line wherever the product has a line. */
  lemma ReplaceLinesBumps(lines: seq<CartItem>, product: Product, k: nat)
    requires k < |lines|
    ensures var item := CreateOrUpdateCartItem(Some(lines[k]), product);
      var r := ReplaceLines(lines, product.id, item);
      && (forall i :: 0 <= i < |lines| && !Matches(lines[i], product.id) ==> r[i] == lines[i])
      && (forall i :: 0 <= i < |lines| && Matches(lines[i], product.id) ==> BumpedLine(r[i], lines[k], product))
  {
    var item := CreateOrUpdateCartItem(Some(lines[k]), product);
    assert BumpedLine(item, lines[k], product);
  }

  /**
   * ADD_ITEM for a product whose first line is at `k`: every line for the
   * product becomes one line with quantity one more than line `k`, the id
   * of line `k` (or the product id if it had none), and a total re-priced
   * at the product's current price; all other lines stay where they were.
   */
  lemma AddItemBumps(state: Option<Cart>, product: Product, k: nat)
    requires k < |Current(state).lines| && Matches(Current(state).lines[k], product.id)
    requires forall j :: 0 <= j < k ==> !Matches(Current(state).lines[j], product.id)
    ensures var lines := Current(state).lines;
      var r := Reduce(state, AddItem(product)).lines;
      && |r| == |lines|
      && (forall i :: 0 <= i < |lines| && !Matches(lines[i], product.id) ==> r[i] == lines[i])
      && (forall i :: 0 <= i < |lines| && Matches(lines[i], product.id) ==> BumpedLine(r[i], lines[k], product))
  {
    var lines := Current(state).lines;
    FindLineFirst(lines, product.id, k);
    AddItemLines(state, product);
    ReplaceLinesBumps(lines, product, k);
  }

  /** On a valid cart, ADD_ITEM for a product with no line adds one unit at the product's price. */
  lemma AddItemTotalsNew(cart: Cart, product: Product)
    requires Valid(cart)
    requires forall i :: 0 <= i < |cart.lines| ==> !Matches(cart.lines[i], product.id)
    ensures var r := Reduce(Some(cart), AddItem(product));
      && r.totalQuantity == cart.totalQuantity + 1
      && r.cost.totalAmount.amount == cart.cost.totalAmount.amount + product.price.amount
  {
    var lines := cart.lines;
    var r := Reduce(Some(cart), AddItem(product));
    var item := CreateOrUpdateCartItem(None, product);
    assert r.lines == lines + [item];
    ReduceIsSettled(Some(cart), AddItem(product));
    SumQuantityAppend(lines, [item]);
    SumAmountAppend(lines, [item]);
    assert [item][1..] == [];
    assert SumAmount([item]) == item.cost.totalAmount.amount == product.price.amount * 1.0;
  }

  /**
   * On a valid cart whose line for the product is at `k`, ADD_ITEM adds one
   * to the total quantity and re-prices that line at the product's current
   * price.
   */
  lemma AddItemTotalsExisting(cart: Cart, product: Product, k: nat)
    requires Valid(cart)
    requires k < |cart.lines| && Matches(cart.lines[k], product.id)
    ensures var r := Reduce(Some(cart), AddItem(product));
      && r.totalQuantity == cart.totalQuantity + 1
      && r.cost.totalAmount.amount
         == cart.cost.totalAmount.amount - cart.lines[k].cost.totalAmount.amount
            + product.price.amount * (cart.lines[k].quantity + 1) as real
  {
    var lines := cart.lines;
    UniqueMatch(lines, product.id, k);
    var item := CreateOrUpdateCartItem(Some(lines[k]), product);
    var r := Reduce(Some(cart), AddItem(product));
    AddItemExistingLines(cart, product, k);
    ReduceIsSettled(Some(cart), AddItem(product));
    SpliceSums(lines, k, [item]);
    SingleLineSums(item);
  }

  /** A single line sums to itself. */
  lemma SingleLineSums(line: CartItem)
    ensures SumQuantity([line]) == line.quantity
    ensures SumAmount([line]) == line.cost.totalAmount.amount
  {
    assert [line][1..] == [];
  }

  /** The lines of ADD_ITEM when line `k` is the product's only line. */
  lemma AddItemExistingLines(cart: Cart, product: Product, k: nat)
    requires k < |cart.lines| && Matches(cart.lines[k], product.id)
    requires forall j :: 0 <= j < |cart.lines| && j != k ==> !Matches(cart.lines[j], product.id)
    ensures Reduce(Some(cart), AddItem(product)).lines
         == cart.lines[..k] + [CreateOrUpdateCartItem(Some(cart.lines[k]), product)] + cart.lines[k + 1..]
  {
    FindLineFirst(cart.lines, product.id, k);
    AddItemLines(Some(cart), product);
    ReplaceLinesAt(cart.lines, product.id, CreateOrUpdateCartItem(Some(cart.lines[k]), product), k);
  }

  /** Replacing line `k` by `x` changes the sums by the difference. */
  lemma SpliceSums(lines: seq<CartItem>, k: nat, x: seq<CartItem>)
    requires k < |lines|
    ensures SumQuantity(lines[..k] + x + lines[k + 1..])
         == SumQuantity(lines) - lines[k].quantity + SumQuantity(x)
    ensures SumAmount(lines[..k] + x + lines[k + 1..])
         == SumAmount(lines) - lines[k].cost.totalAmount.amount + SumAmount(x)
  {
    assert lines == lines[..k] + [lines[k]] + lines[k + 1..];
    SumQuantityAppend(lines[..k] + [lines[k]], lines[k + 1..]);
    SumQuantityAppend(lines[..k], [lines[k]]);
    SumQuantityAppend(lines[..k] + x, lines[k + 1..]);
    SumQuantityAppend(lines[..k], x);
    SumAmountAppend(lines[..k] + [lines[k]], lines[k + 1..]);
    SumAmountAppend(lines[..k], [lines[k]]);
    SumAmountAppend(lines[..k] + x, lines[k + 1..]);
    SumAmountAppend(lines[..k], x);
  }

  /**
   * On a valid cart with the product's line at `k`, UPDATE_ITEM moves the
   * totals by one unit at the locked price (plus, minus) or by the whole
   * line (delete).
   */
  lemma UpdateItemTotals(cart: Cart, product: Product, updateType: UpdateType, k: nat)
    requires Valid(cart)
    requires k < |cart.lines| && Matches(cart.lines[k], product.id)
    ensures var line := cart.lines[k];
      var r := Reduce(Some(cart), UpdateItem(product, updateType));
      && r.lines == cart.lines[..k] + UpdateCartItem(line, updateType).ToSeq() + cart.lines[k + 1..]
      && r.totalQuantity == (match updateType
           case Plus => cart.totalQuantity + 1
           case Minus => cart.totalQuantity - 1
           case Delete => cart.totalQuantity - line.quantity)
      && r.cost.totalAmount.amount == (match updateType
           case Plus => cart.cost.totalAmount.amount + UnitPrice(line)
           case Minus => cart.cost.totalAmount.amount - UnitPrice(line)
           case Delete => cart.cost.totalAmount.amount - line.cost.totalAmount.amount)
  {
    var lines := cart.lines;
    var line := lines[k];
    UniqueMatch(lines, product.id, k);
    UpdateLinesAt(lines, product.id, updateType, k);
    UpdateItemLines(Some(cart), product, updateType);
    var opt := UpdateCartItem(line, updateType);
    ReduceIsSettled(Some(cart), UpdateItem(product, updateType));
    SpliceSums(lines, k, opt.ToSeq());
    UpdatedLineSums(line, updateType);
  }

  /** The sums of the (zero or one) line that updateCartItem leaves. */
  lemma UpdatedLineSums(line: CartItem, updateType: UpdateType)
    requires line.quantity > 0
    ensures var x := UpdateCartItem(line, updateType).ToSeq();
      && SumQuantity(x) == (match updateType
           case Plus => line.quantity + 1
           case Minus => line.quantity - 1
           case Delete => 0)
      && SumAmount(x) == (match updateType
           case Plus => line.cost.totalAmount.amount + UnitPrice(line)
           case Minus => line.cost.totalAmount.amount - UnitPrice(line)
           case Delete => 0.0)
  {
    var opt := UpdateCartItem(line, updateType);
    var q := line.quantity as real;
    var t := line.cost.totalAmount.amount;
    if opt.Some? {
      assert opt.ToSeq() == [opt.value];
      assert [opt.value][1..] == [];
      if updateType == Plus {
        assert opt.value.cost.totalAmount.amount == (t / q) * (q + 1.0);
      } else {
        assert opt.value.cost.totalAmount.amount == (t / q) * (q - 1.0);
      }
      assert (t / q) * q == t;
    } else if updateType == Minus {
      assert t / 1.0 == t;
    }
  }

  /** With no line for the product, UPDATE_ITEM only re-sums the totals. */
  lemma UpdateItemNoMatch(cart: Cart, product: Product, updateType: UpdateType)
    requires Settled(cart)
    requires forall i :: 0 <= i < |cart.lines| ==> !Matches(cart.lines[i], product.id)
    ensures Reduce(Some(cart), UpdateItem(product, updateType)) == cart
  {
    UpdateLinesNoMatch(cart.lines, product.id, updateType);
  }

  /** Replacing line `k` by at most one line for the same merchandise keeps the line invariants. */
  lemma SpliceKeepsLineInvariants(lines: seq<CartItem>, k: nat, x: seq<CartItem>)
    requires PositiveQuantities(lines) && UniqueMerchandise(lines)
    requires k < |lines| && |x| <= 1
    requires x != [] ==> x[0].quantity > 0 && x[0].merchandise.id == lines[k].merchandise.id
    ensures PositiveQuantities(lines[..k] + x + lines[k + 1..])
    ensures UniqueMerchandise(lines[..k] + x + lines[k + 1..])
  {
    var r := lines[..k] + x + lines[k + 1..];
    if x == [] {
      assert forall i :: 0 <= i < |r| ==> r[i] == lines[if i < k then i else i + 1];
    } else {
      assert r == lines[k := x[0]];
    }
  }

  /** UPDATE_ITEM keeps the cart invariant. */
  lemma UpdateItemPreservesValid(cart: Cart, product: Product, updateType: UpdateType)
    requires Valid(cart)
    ensures CanReduce(Some(cart), UpdateItem(product, updateType))
    ensures Valid(Reduce(Some(cart), UpdateItem(product, updateType)))
  {
    var lines := cart.lines;
    UpdateItemLines(Some(cart), product, updateType);
    ReduceIsSettled(Some(cart), UpdateItem(product, updateType));
    if k :| 0 <= k < |lines| && Matches(lines[k], product.id) {
      UniqueMatch(lines, product.id, k);
      UpdateLinesAt(lines, product.id, updateType, k);
      SpliceKeepsLineInvariants(lines, k, UpdateCartItem(lines[k], updateType).ToSeq());
    } else {
      UpdateLinesNoMatch(lines, product.id, updateType);
    }
  }

  /** ADD_ITEM keeps the cart invariant. */
  lemma AddItemPreservesValid(cart: Cart, product: Product)
    requires Valid(cart)
    ensures Valid(Reduce(Some(cart), AddItem(product)))
  {
    var lines := cart.lines;
    AddItemLines(Some(cart), product);
    ReduceIsSettled(Some(cart), AddItem(product));
    if k :| 0 <= k < |lines| && Matches(lines[k], product.id) {
      UniqueMatch(lines, product.id, k);
      FindLineFirst(lines, product.id, k);
      var item := CreateOrUpdateCartItem(Some(lines[k]), product);
      ReplaceLinesAt(lines, product.id, item, k);
      SpliceKeepsLineInvariants(lines, k, [item]);
    } else {
      var item := CreateOrUpdateCartItem(None, product);
      var r := lines + [item];
      assert forall i :: 0 <= i < |lines| ==> r[i] == lines[i];
    }
  }

  /** The reducer keeps the cart invariant. */
  lemma ReducePreservesValid(cart: Cart, action: CartAction)
    requires Valid(cart)
    ensures CanReduce(Some(cart), action)
    ensures Valid(Reduce(Some(cart), action))
  {
    match action
    case UpdateItem(product, updateType) => UpdateItemPreservesValid(cart, product, updateType);
    case AddItem(product) => AddItemPreservesValid(cart, product);
  }

  /**
   * UPDATE_ITEM plus then minus on the same product gives the lines back;
   * on a settled cart (every cart the reducer returns is one) it gives the
   * whole cart back.
   */
  lemma PlusThenMinusRestoresCart(state: Option<Cart>, product: Product)
    requires CanReduce(state, UpdateItem(product, Plus))
    ensures var up := Reduce(state, UpdateItem(product, Plus));
      && CanReduce(Some(up), UpdateItem(product, Minus))
      && Reduce(Some(up), UpdateItem(product, Minus)).lines == Current(state).lines
      && (Settled(Current(state)) ==> Reduce(Some(up), UpdateItem(product, Minus)) == Current(state))
  {
    var lines := Current(state).lines;
    var up := Reduce(state, UpdateItem(product, Plus));
    UpdateLinesPlusThenMinus(lines, product.id);
    assert up.lines == UpdateLines(lines, product.id, Plus);
  }

  /** A line of 2 units totalling 20, incremented, becomes 3 units totalling 30. */
  lemma IncrementExample(image: Image)
    ensures
      var line := CartItem(
        Some("line-1"), 2, ItemCost(Money(20.0, "USD")),
        Merchandise("X", "Tee", [], CartProduct("X", "tee", "Tee", image)));
      var cart := Cart(CartCost(Money(20.0, "USD"), Money(20.0, "USD")), 2, [line], "USD");
      var product := Product("X", "tee", true, "Tee", "", "", [], Money(10.0, "USD"), image, [], "", []);
      var r := Reduce(Some(cart), UpdateItem(product, Plus));
      && |r.lines| == 1
      && r.lines[0].quantity == 3
      && r.lines[0].cost.totalAmount.amount == 30.0
      && r.totalQuantity == 3
      && r.cost.totalAmount == Money(30.0, "USD")
  {
    var line := CartItem(
      Some("line-1"), 2, ItemCost(Money(20.0, "USD")),
      Merchandise("X", "Tee", [], CartProduct("X", "tee", "Tee", image)));
    var cart := Cart(CartCost(Money(20.0, "USD"), Money(20.0, "USD")), 2, [line], "USD");
    var product := Product("X", "tee", true, "Tee", "", "", [], Money(10.0, "USD"), image, [], "", []);
    UpdateLinesAt(cart.lines, "X", Plus, 0);
    var up := UpdateCartItem(line, Plus).value;
    assert cart.lines[1..] == [];
    assert Reduce(Some(cart), UpdateItem(product, Plus)).lines == [up];
    assert [up][1..] == [];
    assert up.quantity == 3;
    assert up.cost.totalAmount.amount == (20.0 / 2.0) * 3.0 == 30.0;
    assert SumQuantity([up]) == 3;
    assert SumAmount([up]) == 30.0;
  }
}

/**
 * The optimistic cart reducer of components/cart/cart-context.tsx: a pure
 * state machine from `Cart | undefined` and an action to the next `Cart`.
 * Nothing here is incremental: cart totals are re-summed over the lines on
 * every transition.
 */
module CartContext {
  import opened Wrappers
  import opened Types

  datatype UpdateType = Plus | Minus | Delete

  datatype CartAction =
    | UpdateItem(product: Product, updateType: UpdateType)
    | AddItem(product: Product)

  /** The totals part of a cart (`Pick<Cart, 'totalQuantity' | 'cost'>`). */
  datatype CartTotals = CartTotals(totalQuantity: nat, cost: CartCost)

  const DefaultCurrency: string := "USD"

  /** `calculateItemCost`: the cost of `quantity` units at `price` each. */
  function CalculateItemCost(quantity: nat, price: real): real
  {
    price * quantity as real
  }

  /** No units cost nothing; otherwise the unit price can be read back from the cost. */
  lemma CalculateItemCostRecoversPrice(quantity: nat, price: real)
    ensures quantity == 0 ==> CalculateItemCost(quantity, price) == 0.0
    ensures quantity > 0 ==> CalculateItemCost(quantity, price) / quantity as real == price
  {
  }

  /** The per-unit price a line is locked at: its total over its quantity. */
  function UnitPrice(item: CartItem): real
    requires item.quantity > 0
  {
    item.cost.totalAmount.amount / item.quantity as real
  }

  predicate Matches(item: CartItem, productId: string)
  {
    item.merchandise.id == productId
  }

  /**
   * `updateCartItem`: one step of a line's quantity. `None` is the source's
   * `null`, i.e. the line is removed. Only the quantity and the amount of
   * the line total change; the unit price stays locked.
   */
  function UpdateCartItem(item: CartItem, updateType: UpdateType): (r: Option<CartItem>)
    requires updateType != Delete ==> item.quantity > 0
    ensures r.None? <==> updateType == Delete || (updateType == Minus && item.quantity == 1)
    ensures r.Some? ==> r.value.quantity == if updateType == Plus then item.quantity + 1 else item.quantity - 1
    ensures r.Some? ==> r.value.quantity > 0 && UnitPrice(r.value) == UnitPrice(item)
    ensures r.Some? ==> r.value.id == item.id && r.value.merchandise == item.merchandise
    ensures r.Some? ==> r.value.cost.totalAmount.currencyCode == item.cost.totalAmount.currencyCode
  {
    if updateType == Delete then None
    else
      var newQuantity: nat := if updateType == Plus then item.quantity + 1 else item.quantity - 1;
      if newQuantity == 0 then
        assert updateType == Minus && item.quantity == 1;
        None
      else
        var singleItemAmount := item.cost.totalAmount.amount / item.quantity as real;
        var newTotalAmount := CalculateItemCost(newQuantity, singleItemAmount);
        Some(item.(
          quantity := newQuantity,
          cost := item.cost.(totalAmount := item.cost.totalAmount.(amount := newTotalAmount))))
  }

  /**
   * `createOrUpdateCartItem`: the line an ADD_ITEM puts in the cart. Its
   * unit price is the product's current price, whatever the existing line
   * was locked at.
   */
  function CreateOrUpdateCartItem(existingItem: Option<CartItem>, product: Product): (r: CartItem)
    ensures r.quantity == if existingItem.Some? then existingItem.value.quantity + 1 else 1
    ensures r.quantity > 0 && UnitPrice(r) == product.price.amount
    ensures r.cost.totalAmount.currencyCode == product.price.currencyCode
    ensures r.id == if existingItem.Some? && existingItem.value.id.Some? then existingItem.value.id else Some(product.id)
    ensures Matches(r, product.id) && r.merchandise.selectedOptions == []
    ensures r.merchandise == Merchandise(product.id, product.title, [],
      CartProduct(product.id, product.handle, product.title, product.featuredImage))
  {
    var quantity: nat := if existingItem.Some? then existingItem.value.quantity + 1 else 1;
    var totalAmount := CalculateItemCost(quantity, product.price.amount);
    CartItem(
      Some(if existingItem.Some? then existingItem.value.id.GetOr(product.id) else product.id),
      quantity,
      ItemCost(Money(totalAmount, product.price.currencyCode)),
      Merchandise(
        product.id,
        product.title,
        [],
        CartProduct(product.id, product.handle, product.title, product.featuredImage)))
  }

  /** `lines.reduce((sum, item) => sum + item.quantity, 0)`, a left fold. */
  function FoldQuantity(lines: seq<CartItem>, acc: nat): nat
  {
    if lines == [] then acc else FoldQuantity(lines[1..], acc + lines[0].quantity)
  }

  /** `lines.reduce((sum, item) => sum + Number(amount), 0)`, a left fold. */
  function FoldAmount(lines: seq<CartItem>, acc: real): real
  {
    if lines == [] then acc else FoldAmount(lines[1..], acc + lines[0].cost.totalAmount.amount)
  }

  lemma {:induction false} FoldQuantityIsSum(lines: seq<CartItem>, acc: nat)
    ensures FoldQuantity(lines, acc) == acc + SumQuantity(lines)
  {
    if lines != [] {
      FoldQuantityIsSum(lines[1..], acc + lines[0].quantity);
    }
  }

  lemma {:induction false} FoldAmountIsSum(lines: seq<CartItem>, acc: real)
    ensures FoldAmount(lines, acc) == acc + SumAmount(lines)
  {
    if lines != [] {
      FoldAmountIsSum(lines[1..], acc + lines[0].cost.totalAmount.amount);
    }
  }

  /**
   * `updateCartTotals`: totals re-summed over the lines, in the currency of
   * the first line (the default currency when there is none).
   */
  function UpdateCartTotals(lines: seq<CartItem>): (r: CartTotals)
    ensures r.totalQuantity == SumQuantity(lines)
    ensures r.cost.totalAmount.amount == SumAmount(lines)
    ensures r.cost.subtotalAmount == r.cost.totalAmount
    ensures r.cost.totalAmount.currencyCode ==
      if lines == [] then DefaultCurrency else lines[0].cost.totalAmount.currencyCode
  {
    var totalQuantity := FoldQuantity(lines, 0);
    var totalAmount := FoldAmount(lines, 0.0);
    var currencyCode := if lines == [] then DefaultCurrency else lines[0].cost.totalAmount.currencyCode;
    FoldQuantityIsSum(lines, 0);
    FoldAmountIsSum(lines, 0.0);
    CartTotals(totalQuantity, CartCost(Money(totalAmount, currencyCode), Money(totalAmount, currencyCode)))
  }

  /** `createEmptyCart`. */
  function CreateEmptyCart(): (r: Cart)
    ensures r.lines == [] && Consistent(r)
    ensures r.currency == DefaultCurrency
    ensures r.cost.subtotalAmount == r.cost.totalAmount == Money(0.0, DefaultCurrency)
  {
    Cart(
      CartCost(Money(0.0, DefaultCurrency), Money(0.0, DefaultCurrency)),
      0,
      [],
      DefaultCurrency)
  }

  /** `Array.prototype.find` on the lines: the first line for `productId`. */
  function FindLine(lines: seq<CartItem>, productId: string): (r: Option<CartItem>)
    ensures r.None? <==> forall i :: 0 <= i < |lines| ==> !Matches(lines[i], productId)
    ensures r.Some? ==> r.value in lines && Matches(r.value, productId)
  {
    if lines == [] then None
    else if Matches(lines[0], productId) then Some(lines[0])
    else FindLine(lines[1..], productId)
  }

  /** A plus/minus divides a matching line's total by its quantity, which must not be zero. */
  predicate LineUpdatable(item: CartItem, productId: string, updateType: UpdateType)
  {
    updateType != Delete && Matches(item, productId) ==> item.quantity > 0
  }

  /** Every line a plus/minus can divide by has a non-zero quantity. */
  predicate Updatable(lines: seq<CartItem>, productId: string, updateType: UpdateType)
  {
    forall i :: 0 <= i < |lines| ==> LineUpdatable(lines[i], productId, updateType)
  }

  /** The callback UPDATE_ITEM maps over the lines: only lines for `productId` change. */
  function UpdateLine(item: CartItem, productId: string, updateType: UpdateType): (r: Option<CartItem>)
    requires LineUpdatable(item, productId, updateType)
    ensures !Matches(item, productId) ==> r == Some(item)
  {
    if Matches(item, productId) then UpdateCartItem(item, updateType) else Some(item)
  }

  /**
   * The `map(updateCartItem).filter(Boolean)` of UPDATE_ITEM, in one pass:
   * lines for `productId` are updated or dropped, the others are kept.
   */
  function UpdateLines(lines: seq<CartItem>, productId: string, updateType: UpdateType): (r: seq<CartItem>)
    requires Updatable(lines, productId, updateType)
    ensures |r| <= |lines|
  {
    if lines == [] then []
    else UpdateLine(lines[0], productId, updateType).ToSeq() + UpdateLines(lines[1..], productId, updateType)
  }

  /** The `map` of ADD_ITEM over existing lines: every line for `productId` becomes `item`. */
  function ReplaceLines(lines: seq<CartItem>, productId: string, item: CartItem): (r: seq<CartItem>)
    ensures |r| == |lines|
  {
    seq(|lines|, i requires 0 <= i < |lines| => if Matches(lines[i], productId) then item else lines[i])
  }

  /** `state || createEmptyCart()`. */
  function Current(state: Option<Cart>): Cart
  {
    if state.Some? then state.value else CreateEmptyCart()
  }

  /** What `cartReducer` needs of its state: plus/minus never divide by zero. */
  predicate CanReduce(state: Option<Cart>, action: CartAction)
  {
    action.UpdateItem? ==> Updatable(Current(state).lines, action.product.id, action.updateType)
  }

  /**
   * `cartReducer`. The `Cart.currency` field is never touched; whenever
   * lines remain, subtotal and total are the same re-summed amount in the
   * first line's currency; an UPDATE_ITEM that empties the cart zeroes the
   * quantity and the total amount and keeps the rest of the cost.
   */
  function Reduce(state: Option<Cart>, action: CartAction): (r: Cart)
    requires CanReduce(state, action)
    ensures r.currency == Current(state).currency
    ensures r.lines != [] ==>
      && r.cost.subtotalAmount == r.cost.totalAmount
      && r.cost.totalAmount.currencyCode == r.lines[0].cost.totalAmount.currencyCode
    ensures action.AddItem? ==> r.lines != []
    ensures action.UpdateItem? && r.lines == [] ==>
      && r.totalQuantity == 0
      && r.cost.totalAmount == Current(state).cost.totalAmount.(amount := 0.0)
      && r.cost.subtotalAmount == Current(state).cost.subtotalAmount
  {
    var currentCart := Current(state);
    match action
    case UpdateItem(product, updateType) =>
      var updatedLines := UpdateLines(currentCart.lines, product.id, updateType);
      if |updatedLines| == 0 then
        currentCart.(
          lines := [],
          totalQuantity := 0,
          cost := currentCart.cost.(totalAmount := currentCart.cost.totalAmount.(amount := 0.0)))
      else
        var totals := UpdateCartTotals(updatedLines);
        currentCart.(totalQuantity := totals.totalQuantity, cost := totals.cost, lines := updatedLines)
    case AddItem(product) =>
      var existingItem := FindLine(currentCart.lines, product.id);
      var updatedItem := CreateOrUpdateCartItem(existingItem, product);
      var updatedLines :=
        if existingItem.Some? then ReplaceLines(currentCart.lines, product.id, updatedItem)
        else currentCart.lines + [updatedItem];
      var totals := UpdateCartTotals(updatedLines);
      currentCart.(totalQuantity := totals.totalQuantity, cost := totals.cost, lines := updatedLines)
  }
}

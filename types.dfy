/**
 * The storefront's internal data model (lib/types.ts) and the legacy cart
 * wire schema it is normalized from.
 *
 * Monetary amounts are exact `real`s: the source stores them as decimal
 * strings and converts with `Number(...)` / `.toString()`, which this model
 * reads as the identity. Quantities are natural numbers.
 */
module Types {
  import opened Wrappers

  datatype Money = Money(amount: real, currencyCode: string)

  /** Width and height 0 mean "unknown dimensions". */
  datatype Image = Image(url: string, altText: string, width: int, height: int)

  datatype ProductOption = ProductOption(id: string, name: string, values: seq<string>)

  datatype Product = Product(
    id: string,
    handle: string,
    availableForSale: bool,
    title: string,
    description: string,
    descriptionHtml: string,
    options: seq<ProductOption>,
    price: Money,
    featuredImage: Image,
    tags: seq<string>,
    updatedAt: string,
    images: seq<Image>)

  /** The projection of a product that a cart line carries. */
  datatype CartProduct = CartProduct(id: string, handle: string, title: string, featuredImage: Image)

  datatype SelectedOption = SelectedOption(name: string, value: Option<string>)

  datatype Merchandise = Merchandise(
    id: string,
    title: string,
    selectedOptions: seq<SelectedOption>,
    product: CartProduct)

  datatype ItemCost = ItemCost(totalAmount: Money)

  datatype CartItem = CartItem(
    id: Option<string>,
    quantity: nat,
    cost: ItemCost,
    merchandise: Merchandise)

  datatype CartCost = CartCost(subtotalAmount: Money, totalAmount: Money)

  datatype Cart = Cart(
    cost: CartCost,
    totalQuantity: nat,
    lines: seq<CartItem>,
    currency: string)

  /** The legacy commerce cart as it comes over the wire (amounts in minor units). */
  datatype WooCommerceCart = WooCommerceCart(items: seq<WooCartItem>, totals: WooCartTotals)

  datatype WooCartItem = WooCartItem(
    key: string,
    productId: int,
    quantity: nat,
    name: string,
    sku: string,
    images: seq<WooImage>,
    totals: WooLineTotals)

  datatype WooImage = WooImage(id: int, src: string, thumbnail: string, alt: string)

  datatype WooLineTotals = WooLineTotals(lineTotal: int, currencyCode: string, currencyMinorUnit: nat)

  datatype WooCartTotals = WooCartTotals(
    totalItems: int,
    totalPrice: int,
    currencyCode: string,
    currencyMinorUnit: nat)

  /** Sum of the line quantities: the value `totalQuantity` should hold. */
  function SumQuantity(lines: seq<CartItem>): nat
  {
    if lines == [] then 0 else lines[0].quantity + SumQuantity(lines[1..])
  }

  /** Sum of the line totals: the value `cost.totalAmount.amount` should hold. */
  function SumAmount(lines: seq<CartItem>): real
  {
    if lines == [] then 0.0 else lines[0].cost.totalAmount.amount + SumAmount(lines[1..])
  }

  lemma {:induction false} SumQuantityAppend(a: seq<CartItem>, b: seq<CartItem>)
    ensures SumQuantity(a + b) == SumQuantity(a) + SumQuantity(b)
  {
    if a != [] {
      assert (a + b)[1..] == a[1..] + b;
      SumQuantityAppend(a[1..], b);
    } else {
      assert a + b == b;
    }
  }

  lemma {:induction false} SumAmountAppend(a: seq<CartItem>, b: seq<CartItem>)
    ensures SumAmount(a + b) == SumAmount(a) + SumAmount(b)
  {
    if a != [] {
      assert (a + b)[1..] == a[1..] + b;
      SumAmountAppend(a[1..], b);
    } else {
      assert a + b == b;
    }
  }

  /** The cart-level totals agree with the lines. */
  ghost predicate Consistent(cart: Cart)
  {
    && cart.totalQuantity == SumQuantity(cart.lines)
    && cart.cost.totalAmount.amount == SumAmount(cart.lines)
  }
}

/**
 * The normalization layer of lib/fourthwall/reshape.ts: deterministic
 * mappers from the catalog product schema and the legacy (minor-unit) cart
 * schema into the internal model of lib/types.ts.
 *
 * The catalog schema's own type declarations are not part of this model;
 * the records below carry exactly the fields the mappers read. JavaScript
 * falsiness is written out: a missing record is `None`, and `s || d` on a
 * string is `d` when `s` is empty.
 */
module Reshape {
  import opened Wrappers
  import opened Types
  import opened Numbers

  // ---------------------------------------------------------------------
  // Catalog wire schema
  // ---------------------------------------------------------------------

  datatype CatalogImage = CatalogImage(src: string, alt: string)

  /** Catalog prices are already in major units. */
  datatype CatalogPrices = CatalogPrices(price: real)

  datatype CatalogAttribute = CatalogAttribute(slug: string, name: string, options: seq<string>)

  datatype CatalogTag = CatalogTag(name: Option<string>)

  datatype CatalogProduct = CatalogProduct(
    id: int,
    slug: string,
    name: string,
    description: string,
    shortDescription: string,
    images: seq<CatalogImage>,
    prices: CatalogPrices,
    attributes: seq<CatalogAttribute>,
    isInStock: bool,
    tags: seq<CatalogTag>)

  // ---------------------------------------------------------------------
  // Cart item wire schema read by the (unused) reshapeCartItem
  // ---------------------------------------------------------------------

  datatype WireMoney = WireMoney(value: real, currency: string)

  datatype VariantProduct = VariantProduct(id: string, slug: string, name: string)

  datatype VariantImage = VariantImage(url: string, width: int, height: int)

  datatype Variant = Variant(
    id: string,
    name: string,
    unitPrice: WireMoney,
    product: Option<VariantProduct>,
    images: seq<VariantImage>)

  datatype WireCartItem = WireCartItem(variant: Variant, quantity: nat)

  // ---------------------------------------------------------------------
  // Mappers
  // ---------------------------------------------------------------------

  /** The placeholder image: no url, no alt text, unknown dimensions. */
  const DefaultImage: Image := Image("", "", 0, 0)

  const StoreCurrency: string := "USD"

  /** `s || fallback` for a string. */
  function OrElse(s: string, fallback: string): string
  {
    if s == "" then fallback else s
  }

  /** `reshapeMoney`. */
  function ReshapeMoney(money: WireMoney): (r: Money)
    ensures WireMoney(r.amount, r.currencyCode) == money
  {
    Money(money.value, money.currency)
  }

  /** One catalog image, its alt text falling back to the product name. */
  function ReshapeImage(image: CatalogImage, productName: string): Image
  {
    Image(image.src, OrElse(image.alt, productName), 0, 0)
  }

  function ReshapeOption(attribute: CatalogAttribute): ProductOption
  {
    ProductOption(attribute.slug, attribute.name, attribute.options)
  }

  function ReshapeTag(tag: CatalogTag): string
  {
    tag.name.GetOr("")
  }

  /**
   * `reshapeProduct`: `None` for a missing record, otherwise the product.
   * `updatedAt` stands for the clock reading the source takes.
   */
  function ReshapeProduct(product: Option<CatalogProduct>, updatedAt: string): (r: Option<Product>)
    ensures r.Some? <==> product.Some?
    ensures r.Some? ==>
      var p := product.value;
      var q := r.value;
      && q.id == IntToString(p.id)
      && q.handle == p.slug
      && q.title == p.name
      && q.price == Money(p.prices.price, StoreCurrency)
      && q.availableForSale == p.isInStock
      && q.description == p.shortDescription && q.descriptionHtml == p.description
      && q.updatedAt == updatedAt
      && |q.images| == |p.images| && |q.options| == |p.attributes| && |q.tags| == |p.tags|
      && q.featuredImage == if q.images == [] then DefaultImage else q.images[0]
  {
    match product
    case None => None
    case Some(p) =>
      Some(Product(
        IntToString(p.id),
        p.slug,
        p.isInStock,
        p.name,
        p.shortDescription,
        p.description,
        seq(|p.attributes|, i requires 0 <= i < |p.attributes| => ReshapeOption(p.attributes[i])),
        Money(p.prices.price, StoreCurrency),
        if |p.images| > 0 then ReshapeImage(p.images[0], p.name) else DefaultImage,
        seq(|p.tags|, i requires 0 <= i < |p.tags| => ReshapeTag(p.tags[i])),
        updatedAt,
        seq(|p.images|, i requires 0 <= i < |p.images| => ReshapeImage(p.images[i], p.name))))
  }

  /** What `reshapeProducts` returns: the reshaped present records, in order. */
  function ReshapedList(products: seq<Option<CatalogProduct>>, updatedAt: string): seq<Product>
  {
    if products == [] then []
    else
      ReshapedList(products[..|products| - 1], updatedAt)
        + ReshapeProduct(products[|products| - 1], updatedAt).ToSeq()
  }

  /** `reshapeProducts`: a loop that pushes each present record's reshaped product. */
  method ReshapeProducts(products: seq<Option<CatalogProduct>>, updatedAt: string)
    returns (reshapedProducts: seq<Product>)
    ensures reshapedProducts == ReshapedList(products, updatedAt)
  {
    reshapedProducts := [];
    for i := 0 to |products|
      invariant reshapedProducts == ReshapedList(products[..i], updatedAt)
    {
      assert products[..i + 1][..i] == products[..i];
      var product := products[i];
      if product.Some? {
        var reshapedProduct := ReshapeProduct(product, updatedAt);
        if reshapedProduct.Some? {
          reshapedProducts := reshapedProducts + [reshapedProduct.value];
        }
      }
    }
    assert products[..|products|] == products;
  }

  /**
   * `reshapeCartItem`: a line priced at the variant's unit price, with
   * placeholder values for every missing piece of product information.
   */
  function ReshapeCartItem(item: WireCartItem): (r: CartItem)
    ensures r.quantity == item.quantity
    ensures r.id == Some(item.variant.id) && r.merchandise.id == item.variant.id
    ensures r.merchandise.title == item.variant.name && r.merchandise.selectedOptions == []
    ensures r.cost.totalAmount.currencyCode == item.variant.unitPrice.currency
    ensures item.quantity > 0 ==>
      r.cost.totalAmount.amount / item.quantity as real == item.variant.unitPrice.value
    ensures var product := r.merchandise.product;
      && product.id != "" && product.handle != "" && product.title != ""
      && product.featuredImage.url != ""
      && product.featuredImage.width != 0 && product.featuredImage.height != 0
      && product.featuredImage.altText == product.title
    ensures var variant, product := item.variant, r.merchandise.product;
      && product.id == (if variant.product.Some? && variant.product.value.id != "" then variant.product.value.id else "TT")
      && product.handle == (if variant.product.Some? && variant.product.value.slug != "" then variant.product.value.slug else "TT")
      && product.title == (if variant.product.Some? && variant.product.value.name != "" then variant.product.value.name else "TT")
    ensures var variant, image := item.variant, r.merchandise.product.featuredImage;
      && image.url == (if variant.images != [] && variant.images[0].url != "" then variant.images[0].url else "TT")
      && image.width == (if variant.images != [] && variant.images[0].width != 0 then variant.images[0].width else 100)
      && image.height == (if variant.images != [] && variant.images[0].height != 0 then variant.images[0].height else 100)
  {
    var variant := item.variant;
    var productId := if variant.product.Some? then OrElse(variant.product.value.id, "TT") else "TT";
    var productSlug := if variant.product.Some? then OrElse(variant.product.value.slug, "TT") else "TT";
    var productName := if variant.product.Some? then OrElse(variant.product.value.name, "TT") else "TT";
    var imageUrl := if |variant.images| > 0 then OrElse(variant.images[0].url, "TT") else "TT";
    var width := if |variant.images| > 0 && variant.images[0].width != 0 then variant.images[0].width else 100;
    var height := if |variant.images| > 0 && variant.images[0].height != 0 then variant.images[0].height else 100;
    CartItem(
      Some(variant.id),
      item.quantity,
      ItemCost(ReshapeMoney(WireMoney(variant.unitPrice.value * item.quantity as real, variant.unitPrice.currency))),
      Merchandise(
        variant.id,
        variant.name,
        [],
        CartProduct(productId, productSlug, productName, Image(imageUrl, productName, width, height))))
  }

  /**
   * The `items.map` callback of `reshapeCart`: one legacy cart item as a
   * cart line, its total scaled down by the item's own minor unit and its
   * image falling back to the placeholder.
   */
  function ReshapeCartLine(item: WooCartItem): (line: CartItem)
    ensures line.id == Some(item.key)
    ensures line.quantity == item.quantity
    ensures line.merchandise.id == line.merchandise.product.id == IntToString(item.productId)
    ensures line.merchandise.title == line.merchandise.product.title == item.name
    ensures line.merchandise.product.handle == item.sku
    ensures line.merchandise.selectedOptions == []
    ensures line.cost.totalAmount.currencyCode == item.totals.currencyCode
    ensures line.cost.totalAmount.amount * Pow10(item.totals.currencyMinorUnit) as real
         == item.totals.lineTotal as real
    ensures line.merchandise.product.featuredImage
         == if item.images == [] then DefaultImage
            else Image(item.images[0].src, OrElse(item.images[0].alt, item.name), 0, 0)
  {
    CartItem(
      Some(item.key),
      item.quantity,
      ItemCost(Money(FromMinorUnits(item.totals.lineTotal, item.totals.currencyMinorUnit), item.totals.currencyCode)),
      Merchandise(
        IntToString(item.productId),
        item.name,
        [],
        CartProduct(
          IntToString(item.productId),
          item.sku,
          item.name,
          if |item.images| > 0 then Image(item.images[0].src, OrElse(item.images[0].alt, item.name), 0, 0)
          else DefaultImage)))
  }

  /** `items.map(...)` building the cart lines. */
  function ReshapeCartLines(items: seq<WooCartItem>): (lines: seq<CartItem>)
    ensures |lines| == |items|
  {
    seq(|items|, i requires 0 <= i < |items| => ReshapeCartLine(items[i]))
  }

  /** `items.reduce((sum, item) => sum + item.quantity, 0)`, a left fold. */
  function FoldItemQuantity(items: seq<WooCartItem>, acc: nat): nat
  {
    if items == [] then acc else FoldItemQuantity(items[1..], acc + items[0].quantity)
  }

  /**
   * `reshapeCart`: amounts divided by ten to the currency's minor unit,
   * one line per item in order, and the total quantity summed over the
   * items rather than read from the backend.
   */
  function ReshapeCart(cart: WooCommerceCart): (r: Cart)
    ensures |r.lines| == |cart.items|
    ensures forall i :: 0 <= i < |cart.items| ==> r.lines[i] == ReshapeCartLine(cart.items[i])
    ensures r.totalQuantity == SumQuantity(r.lines)
    ensures r.currency == cart.totals.currencyCode
  {
    var lines := ReshapeCartLines(cart.items);
    FoldItemQuantityIsLineSum(cart.items, 0);
    Cart(
      CartCost(
        Money(FromMinorUnits(cart.totals.totalItems, cart.totals.currencyMinorUnit), cart.totals.currencyCode),
        Money(FromMinorUnits(cart.totals.totalPrice, cart.totals.currencyMinorUnit), cart.totals.currencyCode)),
      FoldItemQuantity(cart.items, 0),
      lines,
      cart.totals.currencyCode)
  }

  /** The fold over the wire items is the sum of the reshaped lines' quantities. */
  lemma {:induction false} FoldItemQuantityIsLineSum(items: seq<WooCartItem>, acc: nat)
    ensures FoldItemQuantity(items, acc) == acc + SumQuantity(ReshapeCartLines(items))
  {
    if items != [] {
      assert ReshapeCartLines(items)[1..] == ReshapeCartLines(items[1..]);
      FoldItemQuantityIsLineSum(items[1..], acc + items[0].quantity);
    }
  }
}

/**
 * What the normalization layer of lib/fourthwall/reshape.ts guarantees:
 * 1:1 mappings with their fallbacks, the silent drop of missing catalog
 * records, exact minor-unit scaling, and carts the reducer can work on.
 */
module ReshapeProperties {
  import opened Wrappers
  import opened Types
  import opened Numbers
  import opened CartContext
  import opened CartProperties
  import opened Reshape

  // ---------------------------------------------------------------------
  // Products
  // ---------------------------------------------------------------------

  /**
   * Images, options and tags map one to one and in order; an image's alt
   * text falls back to the product name, a missing tag name becomes "",
   * and image dimensions are unknown (0).
   */
  lemma ReshapeProductCollections(p: CatalogProduct, updatedAt: string)
    ensures var q := ReshapeProduct(Some(p), updatedAt).value;
      && |q.images| == |p.images|
      && (forall i :: 0 <= i < |p.images| ==>
            && q.images[i].url == p.images[i].src
            && q.images[i].altText == (if p.images[i].alt == "" then p.name else p.images[i].alt)
            && q.images[i].width == 0 && q.images[i].height == 0)
      && |q.options| == |p.attributes|
      && (forall i :: 0 <= i < |p.attributes| ==>
            q.options[i] == ProductOption(p.attributes[i].slug, p.attributes[i].name, p.attributes[i].options))
      && |q.tags| == |p.tags|
      && (forall i :: 0 <= i < |p.tags| ==>
            q.tags[i] == if p.tags[i].name.Some? then p.tags[i].name.value else "")
  {
  }

  /** The featured image is the first image (alt falling back to the name), or the placeholder. */
  lemma ReshapeProductFeaturedImage(p: CatalogProduct, updatedAt: string)
    ensures var q := ReshapeProduct(Some(p), updatedAt).value;
      q.featuredImage == if p.images == [] then Image("", "", 0, 0)
                         else Image(p.images[0].src, OrElse(p.images[0].alt, p.name), 0, 0)
  {
    ReshapeProductCollections(p, updatedAt);
  }

  /** Catalog records with different ids become products with different ids. */
  lemma ReshapeProductIdsDistinct(p1: CatalogProduct, p2: CatalogProduct, updatedAt: string)
    requires p1.id != p2.id
    ensures ReshapeProduct(Some(p1), updatedAt).value.id != ReshapeProduct(Some(p2), updatedAt).value.id
  {
    if IntToString(p1.id) == IntToString(p2.id) {
      IntToStringInjective(p1.id, p2.id);
    }
  }

  /** One more record at the end adds its reshaped product, if any, at the end. */
  lemma ReshapedListSnoc(a: seq<Option<CatalogProduct>>, x: Option<CatalogProduct>, updatedAt: string)
    ensures ReshapedList(a + [x], updatedAt) == ReshapedList(a, updatedAt) + ReshapeProduct(x, updatedAt).ToSeq()
  {
    assert (a + [x])[..|a + [x]| - 1] == a;
  }

  /** `reshapeProducts` distributes over concatenation: the order of the input is kept. */
  lemma {:induction false} ReshapedListAppend(a: seq<Option<CatalogProduct>>, b: seq<Option<CatalogProduct>>, updatedAt: string)
    ensures ReshapedList(a + b, updatedAt) == ReshapedList(a, updatedAt) + ReshapedList(b, updatedAt)
    decreases |b|
  {
    if b == [] {
      assert a + b == a;
    } else {
      var b', x := b[..|b| - 1], b[|b| - 1];
      assert b == b' + [x];
      assert a + b == (a + b') + [x];
      ReshapedListSnoc(b', x, updatedAt);
      ReshapedListSnoc(a + b', x, updatedAt);
      ReshapedListAppend(a, b', updatedAt);
    }
  }

  /** A missing record in the input is dropped silently, wherever it is. */
  lemma DropsMissingRecord(a: seq<Option<CatalogProduct>>, b: seq<Option<CatalogProduct>>, updatedAt: string)
    ensures ReshapedList(a + [None] + b, updatedAt) == ReshapedList(a + b, updatedAt)
  {
    ReshapedListSnoc(a, None, updatedAt);
    ReshapedListAppend(a + [None], b, updatedAt);
    ReshapedListAppend(a, b, updatedAt);
  }

  /** A present record in the input is reshaped in place. */
  lemma KeepsPresentRecord(a: seq<Option<CatalogProduct>>, p: CatalogProduct, b: seq<Option<CatalogProduct>>, updatedAt: string)
    ensures ReshapedList(a + [Some(p)] + b, updatedAt)
         == ReshapedList(a, updatedAt) + [ReshapeProduct(Some(p), updatedAt).value] + ReshapedList(b, updatedAt)
  {
    ReshapedListSnoc(a, Some(p), updatedAt);
    ReshapedListAppend(a + [Some(p)], b, updatedAt);
  }

  /** A single record gives one product when present and none when missing. */
  lemma ReshapedOneLength(x: Option<CatalogProduct>, updatedAt: string)
    ensures |ReshapeProduct(x, updatedAt).ToSeq()| == if x.Some? then 1 else 0
  {
  }

  /** Never more products than records; exactly as many when no record is missing. */
  lemma {:induction false} ReshapedListLength(products: seq<Option<CatalogProduct>>, updatedAt: string)
    ensures |ReshapedList(products, updatedAt)| <= |products|
    ensures |ReshapedList(products, updatedAt)| == |products|
        <==> forall i :: 0 <= i < |products| ==> products[i].Some?
  {
    if products != [] {
      var init, last := products[..|products| - 1], products[|products| - 1];
      assert products == init + [last];
      ReshapedListSnoc(init, last, updatedAt);
      ReshapedOneLength(last, updatedAt);
      ReshapedListLength(init, updatedAt);
      if |ReshapedList(products, updatedAt)| == |products| {
        forall i | 0 <= i < |products| ensures products[i].Some? {
          if i < |init| {
            assert products[i] == init[i];
          }
        }
      }
    }
  }

  /** One missing record between two present ones: two products, in their order. */
  lemma ReshapeProductsExample(p1: CatalogProduct, p2: CatalogProduct, updatedAt: string)
    ensures ReshapedList([Some(p1), None, Some(p2)], updatedAt)
         == [ReshapeProduct(Some(p1), updatedAt).value, ReshapeProduct(Some(p2), updatedAt).value]
  {
    var e: seq<Option<CatalogProduct>> := [];
    var r1, r2 := ReshapeProduct(Some(p1), updatedAt), ReshapeProduct(Some(p2), updatedAt);
    ReshapedListSnoc(e, Some(p1), updatedAt);
    assert e + [Some(p1)] == [Some(p1)];
    ReshapedListSnoc([Some(p1)], None, updatedAt);
    ReshapedListSnoc([Some(p1), None], Some(p2), updatedAt);
    assert [Some(p1)] + [None] == [Some(p1), None];
    assert [Some(p1), None] + [Some(p2)] == [Some(p1), None, Some(p2)];
  }

  // ---------------------------------------------------------------------
  // Legacy cart
  // ---------------------------------------------------------------------

  /**
   * Cart amounts are the wire's minor-unit totals divided by ten to the
   * minor unit, in the wire's currency; `currency` is that currency too.
   */
  lemma ReshapeCartAmounts(cart: WooCommerceCart)
    ensures var r := ReshapeCart(cart);
      var scale := Pow10(cart.totals.currencyMinorUnit) as real;
      && r.cost.totalAmount.amount * scale == cart.totals.totalPrice as real
      && r.cost.subtotalAmount.amount * scale == cart.totals.totalItems as real
      && r.cost.totalAmount.currencyCode == r.cost.subtotalAmount.currencyCode == r.currency
         == cart.totals.currencyCode
  {
    FromMinorUnitsRoundTrip(cart.totals.totalPrice, cart.totals.currencyMinorUnit);
    FromMinorUnitsRoundTrip(cart.totals.totalItems, cart.totals.currencyMinorUnit);
  }

  /**
   * A wire cart with positive quantities and distinct product ids reshapes
   * into lines the reducer can work on; the reshaped cart keeps the
   * reducer's invariant exactly when its total is the sum of its lines.
   */
  lemma ReshapedCartFeedsReducer(cart: WooCommerceCart)
    requires forall i :: 0 <= i < |cart.items| ==> cart.items[i].quantity > 0
    requires forall i, j :: 0 <= i < j < |cart.items| ==> cart.items[i].productId != cart.items[j].productId
    ensures var r := ReshapeCart(cart);
      && PositiveQuantities(r.lines)
      && UniqueMerchandise(r.lines)
      && (Valid(r) <==> r.cost.totalAmount.amount == SumAmount(r.lines))
  {
    var r := ReshapeCart(cart);
    forall i, j | 0 <= i < j < |r.lines|
      ensures r.lines[i].merchandise.id != r.lines[j].merchandise.id
    {
      if r.lines[i].merchandise.id == r.lines[j].merchandise.id {
        IntToStringInjective(cart.items[i].productId, cart.items[j].productId);
      }
    }
  }

  /** The cart fixture: one tee at 2500 cents reshapes to one unit and 25 dollars. */
  lemma ReshapeCartFixture()
    ensures
      var image := WooImage(
        101,
        "http://localhost:10004/wp-content/uploads/2025/02/long-sleeve-tee-2.jpg",
        "http://localhost:10004/wp-content/uploads/2025/02/long-sleeve-tee-2.jpg",
        "");
      var item := WooCartItem(
        "47794ed33f1f285251ee8de8530420b4", 277, 1, "Long Sleeve Tee", "woo-long-sleeve-tee",
        [image], WooLineTotals(2500, "USD", 2));
      var r := ReshapeCart(WooCommerceCart([item], WooCartTotals(2500, 2500, "USD", 2)));
      && r.totalQuantity == 1
      && r.cost.totalAmount == Money(25.0, "USD")
      && r.cost.subtotalAmount == Money(25.0, "USD")
      && r.currency == "USD"
      && |r.lines| == 1
      && r.lines[0].id == Some("47794ed33f1f285251ee8de8530420b4")
      && r.lines[0].merchandise.id == "277"
      && r.lines[0].cost.totalAmount == Money(25.0, "USD")
      && r.lines[0].merchandise.product.featuredImage.altText == "Long Sleeve Tee"
  {
    MinorUnitsExample();
    IntToStringExample();
    var image := WooImage(
      101,
      "http://localhost:10004/wp-content/uploads/2025/02/long-sleeve-tee-2.jpg",
      "http://localhost:10004/wp-content/uploads/2025/02/long-sleeve-tee-2.jpg",
      "");
    var item := WooCartItem(
      "47794ed33f1f285251ee8de8530420b4", 277, 1, "Long Sleeve Tee", "woo-long-sleeve-tee",
      [image], WooLineTotals(2500, "USD", 2));
    var r := ReshapeCart(WooCommerceCart([item], WooCartTotals(2500, 2500, "USD", 2)));
    assert r.lines == [ReshapeCartLine(item)];
    assert [ReshapeCartLine(item)][1..] == [];
  }
}

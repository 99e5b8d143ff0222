# Optimistic cart and catalog normalization, modelled in Dafny

This project models two pieces of a Next.js storefront.

- **The optimistic cart reducer** of `components/cart/cart-context.tsx`.
  `cartReducer` takes a `Cart | undefined` and an `UPDATE_ITEM`
  (plus / minus / delete) or `ADD_ITEM` action, and returns the next cart.
  Its helpers are `updateCartItem`, `createOrUpdateCartItem`,
  `updateCartTotals`, `createEmptyCart` and `calculateItemCost`. All of
  them are pure, so they are Dafny functions.
- **The normalization layer** of `lib/fourthwall/reshape.ts`. It maps
  backend records into the storefront's types (`lib/types.ts`):
  `reshapeProduct`, `reshapeProducts`, `reshapeCart`, `reshapeCartItem`,
  `reshapeMoney` and `DEFAULT_IMAGE`. `reshapeProducts` is a loop that
  pushes onto an array, so it is a method with a `for` loop. It is proved
  against a recursive specification function.

Files:

| file | contents |
|---|---|
| `wrappers.dfy` | `Option`, the reading of `T \| undefined` |
| `types.dfy` | the data model of `lib/types.ts`, line sums, the `Consistent` cart predicate |
| `cart_context.dfy` | `cartReducer` and its helpers |
| `cart_properties.dfy` | what the reducer guarantees: round trips, which lines an action touches, how the totals move, the invariant it keeps |
| `numbers.dfy` | `Math.pow(10, n)` scaling of minor units; integer `toString()` as decimal digits |
| `reshape.dfy` | the normalization mappers |
| `reshape_properties.dfy` | what the mappers guarantee, and a fixture cart reshaped |

Modelling choices:

- Money amounts are exact `real`s. The source keeps them as strings and
  converts them with `Number(...)` and `toString()`.
- Quantities are `nat`.
- JavaScript falsiness is written out:
  - a missing record is `None`;
  - `s || d` on a string is `d` when `s` is empty;
  - `n || d` on a number is `d` when `n` is 0.
- The cart's `currency` field is never written by the reducer. Its
  `cost` currency follows the first line.
- Adding a product to an absent cart and then decrementing it does not
  give `createEmptyCart()` back. The empty-lines branch of `UPDATE_ITEM`
  only zeroes the total amount: the subtotal keeps the product's price and
  the total keeps the product's currency
  (`CartProperties.AddThenMinusFromAbsentCart`).
- `DEFAULT_IMAGE` (`lib/fourthwall/reshape.ts:7-12`) is the constant
  `Reshape.DefaultImage`, `Image("", "", 0, 0)`; the contracts of
  `Reshape.ReshapeProduct`, `Reshape.ReshapeCartLine` and
  `ReshapeProperties.ReshapeProductFeaturedImage` state where it is used.

## Model

| member | source | states |
|---|---|---|
| `CartContext.CalculateItemCostRecoversPrice` | components/cart/cart-context.tsx:20-22 | The cost of no units is 0; otherwise the cost divided by the quantity gives back the unit price. |
| `CartContext.UpdateCartItem` | components/cart/cart-context.tsx:24-44 | `None` (the source's `null`) exactly for delete, or for minus on a quantity of 1. Otherwise the quantity moves by one and the line keeps its unit price, id, merchandise and currency. |
| `CartContext.CreateOrUpdateCartItem` | components/cart/cart-context.tsx:46-74 | Quantity is the existing quantity plus one, or 1. The line is priced at the product's current price and currency. Its id is the existing id, falling back to the product id. The merchandise is the product's id and title with no selected options, and its product is the product's id, handle, title and featured image. |
| `CartContext.FoldQuantityIsSum` | components/cart/cart-context.tsx:77 | The left `reduce` over quantities equals the line quantity sum. |
| `CartContext.FoldAmountIsSum` | components/cart/cart-context.tsx:78 | The left `reduce` over amounts equals the line amount sum. |
| `CartContext.UpdateCartTotals` | components/cart/cart-context.tsx:76-88 | The totals are the sums over the lines. Subtotal equals total, in the first line's currency, or USD when there are no lines. |
| `CartContext.CreateEmptyCart` | components/cart/cart-context.tsx:90-100 | No lines, consistent totals, USD currency, both amounts 0 USD. |
| `CartContext.FindLine` | components/cart/cart-context.tsx:132 | `None` exactly when no line is for the product. Otherwise it returns a line of the cart that is for the product. |
| `CartContext.UpdateLine` | components/cart/cart-context.tsx:111-113 | Lines for other products pass through the map unchanged. |
| `CartContext.UpdateLines` | components/cart/cart-context.tsx:110-114 | The mapped-and-filtered lines are never more than the input lines. |
| `CartContext.ReplaceLines` | components/cart/cart-context.tsx:135-136 | The ADD_ITEM map keeps the number of lines. |
| `CartContext.Reduce` | components/cart/cart-context.tsx:102-144 | `currency` is untouched. When lines remain, subtotal equals total in the first line's currency. ADD_ITEM never leaves the cart empty. An UPDATE_ITEM that empties the cart zeroes the quantity and the total amount and keeps the subtotal. |
| `CartProperties.PlusThenMinusRestoresItem` | components/cart/cart-context.tsx:24-44 | Plus then minus on a line gives the same line back: the unit price is locked. |
| `CartProperties.MinusThenPlusRestoresItem` | components/cart/cart-context.tsx:24-44 | Minus then plus on a line of quantity > 1 gives the same line back. |
| `CartProperties.UpdateLinesKeepsOthers` | components/cart/cart-context.tsx:110-114 | UPDATE_ITEM keeps every line for another product, in order. |
| `CartProperties.UpdateLinesNoMatch` | components/cart/cart-context.tsx:110-114 | With no line for the product, UPDATE_ITEM's lines are the input lines. |
| `CartProperties.UpdateLinesAppend` | components/cart/cart-context.tsx:110-114 | The map-and-filter works line by line: it distributes over concatenation. |
| `CartProperties.UpdateLinesAt` | components/cart/cart-context.tsx:110-114 | With one line for the product, at `k`, only line `k` is replaced by `updateCartItem`'s result (or removed). |
| `CartProperties.UpdateLinesPlusThenMinus` | components/cart/cart-context.tsx:108-114 | Plus then minus on the same product gives back exactly the same lines. |
| `CartProperties.FindLineFirst` | components/cart/cart-context.tsx:132 | `find` returns the first line for the product. |
| `CartProperties.ReplaceLinesKeepsOthers` | components/cart/cart-context.tsx:135-136 | ADD_ITEM's map keeps every line for another product, in order. |
| `CartProperties.ReplaceLinesAt` | components/cart/cart-context.tsx:135-136 | With one line for the product, the map is a point update of that line. |
| `CartProperties.UniqueMatch` | lib/types.ts:45-60 | In a cart with one line per merchandise, a line for the product is the only one. |
| `CartProperties.ReduceIsSettled` | components/cart/cart-context.tsx:102-144 | Every cart the reducer returns has totals re-summed from its lines. When it has lines, subtotal equals total in the first line's currency. |
| `CartProperties.ValidCanReduce` | components/cart/cart-context.tsx:102-144 | A cart that keeps the invariant can take any action without a division by zero. |
| `CartProperties.UpdateOnAbsentCart` | components/cart/cart-context.tsx:103-126 | UPDATE_ITEM on an absent cart returns `createEmptyCart()`. |
| `CartProperties.AddOnAbsentCart` | components/cart/cart-context.tsx:130-139 | ADD_ITEM on an absent cart gives one line of quantity 1 at the product's price, a total quantity of 1, subtotal = total = price, and currency USD. |
| `CartProperties.AddThenMinusFromAbsentCart` | components/cart/cart-context.tsx:116-126 | Adding then decrementing from an absent cart gives the empty cart with subtotal = price and total = 0 in the product's currency. That equals `createEmptyCart()` iff the price is 0 USD. |
| `CartProperties.UpdateItemKeepsOtherLines` | components/cart/cart-context.tsx:108-129 | UPDATE_ITEM leaves the lines for other products unchanged and in order. |
| `CartProperties.AddItemKeepsOtherLines` | components/cart/cart-context.tsx:130-140 | ADD_ITEM leaves the lines for other products unchanged and in order. |
| `CartProperties.AddItemAppends` | components/cart/cart-context.tsx:135-137 | ADD_ITEM for a product with no line keeps the old lines as a prefix. It appends one line: quantity 1, the product's id, the product's price. |
| `CartProperties.ReplaceLinesBumps` | components/cart/cart-context.tsx:135-136 | Every line for the product becomes the bumped line. All other lines stay where they are. |
| `CartProperties.AddItemBumps` | components/cart/cart-context.tsx:130-140 | ADD_ITEM with the product's first line at `k` replaces every line for the product by one line. That line has line `k`'s quantity + 1 and line `k`'s id, and is re-priced at the product's current price. |
| `CartProperties.AddItemTotalsNew` | components/cart/cart-context.tsx:130-140 | On a valid cart, a new product adds one unit and its price to the totals. |
| `CartProperties.AddItemTotalsExisting` | components/cart/cart-context.tsx:130-140 | On a valid cart, adding an existing product adds one unit. The total moves by the re-pricing of that line at the current price. |
| `CartProperties.AddItemExistingLines` | components/cart/cart-context.tsx:132-137 | With one line for the product, ADD_ITEM splices the bumped line in at its place. |
| `CartProperties.UpdateItemTotals` | components/cart/cart-context.tsx:108-129 | On a valid cart, plus / minus move the totals by one unit at the locked unit price. Delete removes the whole line's quantity and amount. |
| `CartProperties.UpdatedLineSums` | components/cart/cart-context.tsx:24-44 | The line `updateCartItem` leaves sums to the old line plus or minus one unit, or to nothing for delete. |
| `CartProperties.UpdateItemNoMatch` | components/cart/cart-context.tsx:108-129 | On a settled cart with no line for the product, UPDATE_ITEM returns the cart unchanged. |
| `CartProperties.SpliceKeepsLineInvariants` | components/cart/cart-context.tsx:110-114 | Replacing a line by at most one line for the same merchandise keeps quantities positive and merchandise unique. |
| `CartProperties.UpdateItemPreservesValid` | components/cart/cart-context.tsx:108-129 | UPDATE_ITEM keeps the cart invariant: positive quantities, one line per merchandise, consistent totals. |
| `CartProperties.AddItemPreservesValid` | components/cart/cart-context.tsx:130-140 | ADD_ITEM keeps the cart invariant. |
| `CartProperties.ReducePreservesValid` | components/cart/cart-context.tsx:102-144 | The reducer keeps the cart invariant for every action. |
| `CartProperties.PlusThenMinusRestoresCart` | components/cart/cart-context.tsx:108-129 | Plus then minus gives the lines back. On a settled cart it gives the whole cart back. |
| `CartProperties.IncrementExample` | components/cart/cart-context.tsx:24-44 | A line of 2 units totalling 20, incremented, becomes 3 units totalling 30. The cart totals become 3 and 30 USD. |
| `Numbers.Pow10` | lib/fourthwall/reshape.ts:144 | `Math.pow(10, n)` is positive, so the division by it is defined. |
| `Numbers.FromMinorUnitsRoundTrip` | lib/fourthwall/reshape.ts:144 | Scaling a minor-unit amount down and back up gives the wire value. |
| `Numbers.MinorUnitsExample` | lib/fourthwall/index.ts:305-312 | 2500 at a minor unit of 2 is 25. |
| `Numbers.NatToString` | lib/fourthwall/reshape.ts:47 | Decimal digits only, with no leading zero for a positive number. A single digit exactly below 10. The last digit is `n % 10`. |
| `Numbers.IntToString` | lib/fourthwall/reshape.ts:162 | A leading minus sign exactly for negative ids. |
| `Numbers.NatToStringInjective` | lib/fourthwall/reshape.ts:47 | Different naturals have different decimal strings. |
| `Numbers.IntToStringInjective` | lib/fourthwall/reshape.ts:162 | Different integer ids have different `toString()` results. |
| `Numbers.IntToStringExample` | lib/fourthwall/index.ts:263 | Product id 277 becomes "277". |
| `Reshape.ReshapeMoney` | lib/fourthwall/reshape.ts:15-20 | Lossless: the wire value and currency can be read back from the money. |
| `Reshape.ReshapeProduct` | lib/fourthwall/reshape.ts:41-77 | Defined exactly for a present record. Its fields: id as the id's decimal string, handle from the slug, title from the name, price in USD, stock flag, `description` from the short description and `descriptionHtml` from the description, `updatedAt` from the clock reading. Images, options and tags keep their number. The featured image is the first image or the placeholder. |
| `Reshape.ReshapeProducts` | lib/fourthwall/reshape.ts:25-39 | The loop returns the reshaped present records, in input order. |
| `Reshape.ReshapeCartLine` | lib/fourthwall/reshape.ts:152-177 | A line's fields: id from the key, merchandise and product id from the product id, title and handle from the name and sku, no selected options. Its total, times ten to the item's own minor unit, is the wire line total, in the item's currency. The featured image is the first image (alt falling back to the name) or the placeholder. |
| `Reshape.ReshapeCartItem` | lib/fourthwall/reshape.ts:109-138 | Quantity, variant id and variant name are carried over, with no selected options. The line total divided by the quantity is the variant's unit price, in its currency. The product id, handle and title are the variant product's id, slug and name when present and non-empty, "TT" otherwise; the image url is the first variant image's url when non-empty, "TT" otherwise; width and height are the first image's when non-zero, 100 otherwise; the alt text is the product title. So every product field shown is non-empty. |
| `Reshape.ReshapeCartLines` | lib/fourthwall/reshape.ts:152-177 | One line per wire item. |
| `Reshape.ReshapeCart` | lib/fourthwall/reshape.ts:140-181 | One line per item, line `i` being item `i` reshaped. The total quantity is the sum of the line quantities. `currency` is the wire currency. |
| `Reshape.FoldItemQuantityIsLineSum` | lib/fourthwall/reshape.ts:179 | The `reduce` over wire item quantities equals the sum over the reshaped lines. |
| `ReshapeProperties.ReshapeProductCollections` | lib/fourthwall/reshape.ts:52-74 | Images, options and tags map one to one, in order. Alt text falls back to the name, a missing tag name becomes "", and image dimensions are 0. |
| `ReshapeProperties.ReshapeProductFeaturedImage` | lib/fourthwall/reshape.ts:62-67 | The featured image is the first catalog image (alt falling back to the name), or the placeholder. |
| `ReshapeProperties.ReshapeProductIdsDistinct` | lib/fourthwall/reshape.ts:47 | Records with different ids become products with different ids. |
| `ReshapeProperties.ReshapedListAppend` | lib/fourthwall/reshape.ts:25-39 | `reshapeProducts` distributes over concatenation: input order is kept. |
| `ReshapeProperties.DropsMissingRecord` | lib/fourthwall/reshape.ts:29 | A missing record is dropped silently, wherever it is. |
| `ReshapeProperties.KeepsPresentRecord` | lib/fourthwall/reshape.ts:29-34 | A present record is reshaped in place. |
| `ReshapeProperties.ReshapedListLength` | lib/fourthwall/reshape.ts:25-39 | Never more products than records. Exactly as many iff no record is missing. |
| `ReshapeProperties.ReshapeProductsExample` | lib/fourthwall/reshape.ts:25-39 | Present, missing, present gives the two products, in order. |
| `ReshapeProperties.ReshapeCartAmounts` | lib/fourthwall/reshape.ts:142-151 | Total and subtotal, times ten to the minor unit, are the wire total price and total items. All three currency fields are the wire currency. |
| `ReshapeProperties.ReshapedCartFeedsReducer` | lib/fourthwall/reshape.ts:152-179 | Positive quantities and distinct product ids give a cart with the reducer's line invariants. It is valid exactly when its total is the sum of its lines. |
| `ReshapeProperties.ReshapeCartFixture` | lib/fourthwall/index.ts:262-337 | The stubbed cart reshapes to one line of one unit at 25 USD, id "277", alt text falling back to the name. |

## Left out

- `CartProvider`, `useCart` and the React context (`components/cart/cart-context.tsx:146-190`) are UI plumbing around the reducer. They are not modelled.
- The `console.warn` in `cartReducer` is output only.
- The `default:` branch of `cartReducer` cannot be reached for the two action types, so it is not modelled.
- Floating point is not modelled. Amounts are exact reals, so JavaScript rounding in `Number(...) * quantity`, in the division by the quantity and in the division by `Math.pow(10, n)` is not captured. Neither is the string formatting of `toString()` on amounts.
- `CartContext.Reduce`: requires that every line for the product of a plus or minus has a positive quantity. The source would divide by zero there and store `NaN`/`Infinity`. Carts that keep the reducer's invariant always satisfy this (`CartProperties.ValidCanReduce`).
- `CartContext.UpdateCartItem`: requires a positive quantity for plus and minus, for the same reason.
- Quantities and minor units are naturals. Negative or fractional wire values are not modelled.
- `updatedAt` is the parameter `updatedAt`, because `new Date()` reads the clock. `Reshape.ReshapeProducts` passes one reading to every product, where the source reads the clock once per product.
- `reshapeVariants` (`lib/fourthwall/reshape.ts:89-104`) is never called and returns a `ProductVariant`, a type the file does not import. It is not modelled, and neither is `reshapeImages` (`lib/fourthwall/reshape.ts:79-87`), which only `reshapeVariants` calls.
- `lib/fourthwall/types.ts` is not part of this model. The backend record types carry exactly the fields the mappers read.
- The network gateway (`lib/fourthwall/index.ts`) and the server actions (`components/cart/actions.ts`) are I/O and are not modelled. The gateway's stubbed cart is used as a fixture only.
- `CartContext.UpdateLines`: the one-pass function has the same result as the source's `map` followed by `filter(Boolean)`, because every non-null value here is a cart line, which is truthy. Its own contract states only a length bound; the line-level behaviour is in the `CartProperties.UpdateLines*` lemmas.

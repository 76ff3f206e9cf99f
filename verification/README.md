# Catalog storefront: cart, image paths and gallery viewer

A Dafny model of the state logic inside the product catalog storefront's two
React components, with the rendering stripped away.

- **Catalog** (`src/components/Catalog.jsx`): a quantity map (product id to
  desired quantity, 1 by default) and a cart (an ordered list of product
  records, each with a quantity, at most one line per id), changed by
  `updateQuantity`, `addToCartAutomatically`, `handleAddToCart`,
  `removeFromCart` and `updateCartQuantity`. The cart has two totals: the
  badge item count and the order total. Image asset paths are built from a
  fixed id-to-folder table and two string sanitisers. A per-product, two-slot
  image load map gates whether the gallery may be opened.
- **ImageModal** (`src/components/ImageModal.jsx`): a current index over the
  gallery's images, with wrap-around previous and next and direct jumps from
  the thumbnails. A per-slide failure flag set only ever grows. The derived
  "all slides failed" view hides the controls. A backdrop click closes the
  viewer only when the click is on the backdrop itself.

Modules, one per concern:

| file | module | models |
|---|---|---|
| `wrappers.dfy` | `Wrappers` | `Option`, for `undefined`/`null` and failed parses |
| `names.dfy` | `Names` | `normalizeName`, `safeNumberForFilename`, `String(n)` for integers |
| `products.dfy` | `Products` | the product record |
| `image_paths.dfy` | `ImagePaths` | `idToTanglishFolder`, `getImageFolder`, `getSingleImage`, `getSlotImage` |
| `load_status.dfy` | `LoadStatus` | the `imagesLoadStatus` map and `areAllImagesFailed` |
| `cart.dfy` | `Cart` | the cart and quantity operations and the totals, as functions on values |
| `catalog.dfy` | `CatalogComponent` | class `Catalog`: the component state and its handlers |
| `gallery.dfy` | `Gallery` | class `ImageModal`: the viewer state and its handlers |

The handlers that change component state are methods of a class. Each handler
is proved against the value-level function that specifies it. Each keeps the
class invariant `Valid()`: at most one cart line per id, every line quantity
and every recorded quantity at least 1, and an open gallery holds two images
with a start index among them. The properties of those functions are proved
as lemmas.

Modelling choices:

- A parsed quantity input is an `Option<int>`. `None` stands for a `NaN`
  result of `parseInt`.
- `quantities[id] || 1` is modelled with JavaScript's falsiness: a recorded 0
  reads as 1.
- Prices are integers. `String(price)` is the decimal rendering, with a minus
  sign for negatives.
- `\s` and `String.prototype.trim` use one fixed set of white-space
  characters (`Names.IsSpace`).
- An image slot that was never reported reads as `Unknown`, which is what
  `undefined` means in the source.
- Each handler is one sequential step on the current state.
- The order hand-off is an `Order` value. It holds the fixed recipient, one
  line per cart line in cart order (name, quantity, price times quantity) and
  the total.

## Model

| member | source | states |
|---|---|---|
| `Names.TrimStart` | src/components/Catalog.jsx:97 | the result is the longest suffix that does not start with white space, and everything dropped is white space |
| `Names.TrimEnd` | src/components/Catalog.jsx:97 | the result is the longest prefix that does not end with white space, and everything dropped is white space |
| `Names.Trim` | src/components/Catalog.jsx:97 | the trimmed name is a slice of the input with only white space before and after it, and it neither starts nor ends with white space |
| `Names.CollapseSpaces` | src/components/Catalog.jsx:98 | after replacing white-space runs with `_`, no white space is left |
| `Names.CollapseAppend` | src/components/Catalog.jsx:98 | the replacement works piecewise across any boundary that is not inside a white-space run: at either end, after a non-space character, or where a run ends before a non-space character |
| `Names.CollapseRun` | src/components/Catalog.jsx:98 | each maximal white-space run between two other parts becomes exactly one `_`, and the parts around it are collapsed on their own |
| `Names.Keep` | src/components/Catalog.jsx:99 | the regex deletion keeps exactly the characters of the input that are allowed, and every kept character is allowed |
| `Names.KeepChar` | src/components/Catalog.jsx:99 | one character survives the deletion exactly when it is allowed |
| `Names.KeepConcat` | src/components/Catalog.jsx:99 | the deletion filters a joined string piecewise, so the kept characters keep their order and repeats |
| `Names.NormalizeName` | src/components/Catalog.jsx:92-100 | an absent name gives `''`; every result character is in `[A-Za-z0-9_-]` |
| `Names.NormalizeFixesFolderNames` | src/components/Catalog.jsx:92-100 | a name already made of folder characters normalises to itself |
| `Names.NormalizeNameIdempotent` | src/components/Catalog.jsx:92-100 | normalising twice gives the same result as normalising once |
| `Names.SafeNumberForFilename` | src/components/Catalog.jsx:111-114 | null/undefined gives `"0"`; otherwise only digits and `.` remain |
| `Names.SafeNumberIdempotent` | src/components/Catalog.jsx:111-114 | sanitising twice gives the same result as sanitising once |
| `Names.DecimalString` | src/components/Catalog.jsx:113 | `String(n)` of an integer is exactly the digits of its magnitude without leading zeros, after a minus sign when negative, and they read back as the number |
| `Names.Digits` | src/components/Catalog.jsx:113 | `String(n)` of a natural number is a non-empty digit string without a leading zero |
| `Names.ValueOfDigits` | src/components/Catalog.jsx:113 | reading the rendered digits back gives the number |
| `Names.PriceText` | src/components/Catalog.jsx:111-114 | an integer price passes the sanitiser as the digits of its magnitude (a minus sign is dropped) |
| `Names.DigitsInjective` | src/components/Catalog.jsx:111-119 | different non-negative integer prices give different file-name segments |
| `ImagePaths.FolderTableDomain` | src/components/Catalog.jsx:20-55 | the folder table maps exactly the ids 1 to 34 |
| `ImagePaths.FolderTableIsNormal` | src/components/Catalog.jsx:20-55 | every folder name in the table is already made of `[A-Za-z0-9_-]` characters |
| `ImagePaths.GetImageFolder` | src/components/Catalog.jsx:103-109 | a mapped id gives its table name unchanged; an unmapped id gives the empty folder; the folder only uses `[A-Za-z0-9_-]` |
| `ImagePaths.ImageDirectory` | src/components/Catalog.jsx:102-128 | the image directory is `/assets/` followed by the product's folder, which uses only `[A-Za-z0-9_-]` and so is one directory level |
| `ImagePaths.SingleFile` | src/components/Catalog.jsx:119 | the single image's file name starts with `/Si`, which tells it apart from the slot file |
| `ImagePaths.SlotFile` | src/components/Catalog.jsx:126 | the slot image's file name starts with `/Sl`, which tells it apart from the single file |
| `ImagePaths.SingleImage` | src/components/Catalog.jsx:116-121 | the single image path is the product's image directory followed by the single file name for its price |
| `ImagePaths.SlotImage` | src/components/Catalog.jsx:123-128 | the slot image path is the same directory followed by the slot file name for its slot bundle price |
| `ImagePaths.ImagesInProductDirectory` | src/components/Catalog.jsx:116-128 | both paths lie directly in the product's directory, and the single and slot paths of a product always differ |
| `ImagePaths.SingleImageShape` | src/components/Catalog.jsx:116-121 | for a mapped id and a non-negative price the path is `/assets/` + table folder + `/Single(Rs_` + price digits + `).jpg` |
| `ImagePaths.SlotImageShape` | src/components/Catalog.jsx:123-128 | the same for the slot path with the slot bundle price |
| `ImagePaths.UnmappedIdHasEmptyFolder` | src/components/Catalog.jsx:102-128 | an id missing from the table gives an empty folder segment in both paths |
| `ImagePaths.PathsIgnoreLanguage` | src/components/Catalog.jsx:102-128 | both paths depend only on the id and the prices, not on the language-specific fields |
| `ImagePaths.PaathamExample` | src/components/Catalog.jsx:116-128 | product 1 priced 150 with slot price 500 gives `/assets/Paatham/Single(Rs_150).jpg` and `/assets/Paatham/Slot(Rs_500).jpg` |
| `LoadStatus.Mark` | src/components/Catalog.jsx:130-148 | the given slot of the given product gets the new status; the other slot, every other product's entry and every other product's status are unchanged |
| `LoadStatus.AreAllImagesFailed` | src/components/Catalog.jsx:150-153 | a product counts as having no imagery exactly when it has an entry and both of its slots are failed; a product never reported does not |
| `LoadStatus.BothErrorsFailProduct` | src/components/Catalog.jsx:130-153 | an error on each of a product's two images, in either order, makes the product count as having no imagery |
| `LoadStatus.ErrorKeepsAllFailed` | src/components/Catalog.jsx:130-153 | no error report can undo "all images failed" |
| `LoadStatus.LoadClearsAllFailed` | src/components/Catalog.jsx:140-153 | after a successful load of either image the product does not count as having no imagery |
| `LoadStatus.OtherProductsUnaffected` | src/components/Catalog.jsx:130-153 | reports about one product never change whether another product has imagery |
| `Cart.ClampQuantity` | src/components/Catalog.jsx:173-174 | the recorded quantity is at least 1; it is exactly 1 iff the input is non-numeric or at most 1; any integer ≥ 1 is kept |
| `Cart.RecordedQuantity` | src/components/Catalog.jsx:202 | a recorded non-zero quantity is returned as it is; an absent id (or a falsy 0) reads as 1; the value is never 0 and is at least 1 when all recorded quantities are |
| `Cart.HasLine` | src/components/Catalog.jsx:188 | the cart has a line for the id exactly when the id is among the product ids of its lines |
| `Cart.FindProduct` | src/components/Catalog.jsx:185-186 | none exactly when no product has the id; otherwise a product from the list with that id |
| `Cart.SetLineQuantity` | src/components/Catalog.jsx:219-221 | the length, the order and the product records are kept; lines for the id take the new quantity; every other line is unchanged |
| `Cart.RemoveLines` | src/components/Catalog.jsx:207 | exactly the lines of other products remain, and the cart is unchanged if it has no line for the id |
| `Cart.Upsert` | src/components/Catalog.jsx:184-199 | an id that is not a product leaves the cart unchanged; an existing line is updated in place; otherwise exactly one line is appended at the end |
| `Cart.ItemCount` | src/components/Catalog.jsx:225 | with every quantity positive, the badge count is at least the number of lines |
| `Cart.OrderTotal` | src/components/Catalog.jsx:235 | with non-negative prices and quantities, the order total is non-negative |
| `Cart.PlaceOrder` | src/components/Catalog.jsx:227-240 | nothing for an empty cart; otherwise an order to the fixed number with one line per cart line, in cart order (name, quantity, price × quantity), and the order total |
| `Cart.UpsertKeepsDistinct` | src/components/Catalog.jsx:184-199 | upserting keeps at most one line per id |
| `Cart.UpsertRecordsQuantity` | src/components/Catalog.jsx:184-199 | after upserting a known product, the cart has a line for the id, every such line has the new quantity, the length grows by at most one, and other lines keep their place |
| `Cart.UpsertIdempotent` | src/components/Catalog.jsx:188-204 | upserting the same id and quantity twice equals upserting once, so adding twice leaves one line with that quantity |
| `Cart.UpsertKeepsPositive` | src/components/Catalog.jsx:173-204 | upserting a quantity of at least 1 keeps every line quantity at least 1 |
| `Cart.RemoveKeepsInvariant` | src/components/Catalog.jsx:206-213 | removing keeps at most one line per id and all quantities positive |
| `Cart.RemoveIsDeletion` | src/components/Catalog.jsx:207 | with one line per id, removal deletes exactly that line's position, so the other lines keep their relative order |
| `Cart.RemoveDropsId` | src/components/Catalog.jsx:207 | after removal the cart's product ids are exactly the old ones without the removed id |
| `Cart.UpsertAddsId` | src/components/Catalog.jsx:184-199 | upserting a product of the list makes its id one of the cart's product ids and adds no other id |
| `Cart.SetKeepsDistinct` | src/components/Catalog.jsx:215-223 | the in-place update keeps at most one line per id |
| `Cart.SetIsReplacement` | src/components/Catalog.jsx:219-221 | with one line per id, the update replaces exactly that line's quantity |
| `Cart.ItemCountConcat` | src/components/Catalog.jsx:225 | the badge count of two carts joined is the sum of their counts |
| `Cart.OrderTotalConcat` | src/components/Catalog.jsx:235 | the order total of two carts joined is the sum of their totals |
| `Cart.BadgeShownIffNotEmpty` | src/components/Catalog.jsx:288-296 | with positive quantities the badge count is above 0 exactly when the cart is not empty |
| `Cart.ItemCountAfterRemove` | src/components/Catalog.jsx:206-225 | removing a line lowers the badge count by that line's quantity |
| `Cart.ItemCountAfterSet` | src/components/Catalog.jsx:215-225 | updating a line changes the badge count by the difference between the new and the old quantity |
| `Cart.TotalsAfterAppend` | src/components/Catalog.jsx:197-235 | appending a line adds its quantity to the badge count and price × quantity to the order total |
| `Cart.OrderTotalExample` | src/components/Catalog.jsx:235 | lines (price 100, quantity 2) and (price 50, quantity 3) total 350 |
| `Cart.OrderTotalIsSumOfLines` | src/components/Catalog.jsx:231-236 | the order's total equals the sum of its lines' amounts |
| `CatalogComponent.Catalog.constructor` | src/components/Catalog.jsx:10-17 | the initial state: empty maps, an empty cart and no gallery open |
| `CatalogComponent.Catalog.AddToCartAutomatically` | src/components/Catalog.jsx:184-199 | the new cart is the upsert of the old one, and the invariant holds |
| `CatalogComponent.Catalog.UpdateQuantity` | src/components/Catalog.jsx:173-182 | the clamped quantity is recorded for the id and the cart line is upserted at that quantity |
| `CatalogComponent.Catalog.HandleAddToCart` | src/components/Catalog.jsx:201-204 | the line is upserted at the recorded quantity, 1 if none is recorded |
| `CatalogComponent.Catalog.RemoveFromCart` | src/components/Catalog.jsx:206-213 | no line for the id remains and the recorded quantity is reset to 1 |
| `CatalogComponent.Catalog.UpdateCartQuantity` | src/components/Catalog.jsx:215-223 | a quantity ≤ 0 acts exactly like `removeFromCart`; a positive one updates the line in place, adds no line and leaves the quantity map alone |
| `CatalogComponent.Catalog.HandleImageError` | src/components/Catalog.jsx:130-138 | the status map is marked failed at the given product and slot only, and the invariant holds |
| `CatalogComponent.Catalog.HandleImageLoad` | src/components/Catalog.jsx:140-148 | the status map is marked loaded at the given product and slot only, and the invariant holds |
| `CatalogComponent.Catalog.OpenImageModal` | src/components/Catalog.jsx:155-167 | when both images failed, the selection is unchanged; otherwise the gallery opens on [single, slot] at the given start index |
| `CatalogComponent.Catalog.CloseImageModal` | src/components/Catalog.jsx:169-171 | the gallery is closed |
| `CatalogComponent.ShowGallery` | src/components/Catalog.jsx:522-528 | an open selection always yields a valid viewer on those images at the start index, with no slide failed |
| `Gallery.Previous` | src/components/ImageModal.jsx:8-10 | on a slide index, previous stays in [0, n) and equals (i − 1) mod n |
| `Gallery.Next` | src/components/ImageModal.jsx:12-14 | on a slide index, next stays in [0, n) and equals (i + 1) mod n |
| `Gallery.AllFailed` | src/components/ImageModal.jsx:34 | "every slide failed" holds iff every index in [0, n) is flagged |
| `Gallery.ImageModal.constructor` | src/components/ImageModal.jsx:4-6 | the viewer opens at the initial index with no slide flagged |
| `Gallery.ImageModal.AllImagesFailed` | src/components/ImageModal.jsx:34 | holds exactly when every slide's index is flagged as failed |
| `Gallery.ImageModal.GoToPrevious` | src/components/ImageModal.jsx:8-10 | the index becomes the previous one, stays a slide, and the flags are unchanged |
| `Gallery.ImageModal.GoToNext` | src/components/ImageModal.jsx:12-14 | the index becomes the next one, stays a slide, and the flags are unchanged |
| `Gallery.ImageModal.GoToSlide` | src/components/ImageModal.jsx:16-18 | the index becomes exactly the chosen thumbnail's index; the flags are unchanged |
| `Gallery.ImageModal.HandleImageError` | src/components/ImageModal.jsx:26-31 | only slide k is flagged, the index is unchanged, and "all failed" once true stays true |
| `Gallery.ImageModal.HandleBackdropClick` | src/components/ImageModal.jsx:20-24 | close is requested exactly when the click target is the backdrop element itself |
| `Gallery.ImageModal.CurrentView` | src/components/ImageModal.jsx:34-91 | the full placeholder is shown iff every slide failed, whatever the index; otherwise the current slide is shown, as a placeholder iff its own flag is set |
| `Gallery.NavigationRoundTrip` | src/components/ImageModal.jsx:8-14 | next after previous, and previous after next, return the original index |
| `Gallery.TwoSlidesToggle` | src/components/ImageModal.jsx:8-14 | with two slides both arrows toggle 0 ↔ 1 |
| `Gallery.AllFailedMonotone` | src/components/ImageModal.jsx:26-34 | adding flags never makes "every slide failed" false |

## Left out

- The language switch and its effect (`useEffect` loading one of three JSON lists): the product list is a constructor parameter of `Catalog`.
- The three JSON product files are not part of this model. Products are abstract records with an id, a price and a slot bundle price, plus the display fields.
- `window.open`, the `wa.me` and `tel:` links, `encodeURIComponent` and the message text with its emoji and currency literals: these are foreign side effects and text formatting. `PlaceOrder` returns the order's content (recipient, one line per cart item in order, total) instead of the encoded message.
- `handleShareProduct` builds a share message and opens a link. It is I/O only, with no state.
- `parseInt` is not modelled. The quantity input arrives already parsed, as an `Option<int>`.
- The regular expressions are not modelled. `\s` and `trim` use one fixed set of white-space characters.
- Floating-point prices and `String` of non-integers are left out: prices are integers.
- `Names.DecimalString`, `Names.DigitsInjective`: prices are assumed below 10^21, and prices, quantities and totals below 2^53. JavaScript writes a Number of 10^21 or more in exponent form: `String(1e21)` is `"1e+21"`, which the sanitiser turns into `"121"`, the segment of price 121. Above 2^53 Numbers are not exact. Neither the exponent rendering nor float rounding is modelled, so the distinct-segment property holds only within these bounds.
- React's asynchronous `setState` batching and stale reads of `cart` inside a handler are left out. Each handler is one sequential step.
- The `showCart` toggle, `console.log`, the trivial field getters (`getProductName` and similar) and all markup are UI plumbing.
- `src/components/Footer.jsx` and `src/App.jsx` are not part of this model: they hold only markup and a link opener.
- `CatalogComponent.Catalog.AddToCartAutomatically` requires a quantity of at least 1. Its two callers guarantee this: one clamps the input, the other reads a map whose values are all at least 1.
- `CatalogComponent.Catalog.OpenImageModal` requires a start index of 0 or 1. These are the only values its two call sites pass.
- `Gallery.ImageModal.GoToSlide` requires an index in range, because only the thumbnails call it.
- `Cart.FindProduct`: states that the result is a product of the list with the requested id, not that it is the first such product (ids are unique within one list).

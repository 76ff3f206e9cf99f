/**
 * The state of the Catalog component and its handlers: the quantity map, the
 * cart, the per-product image load status and the gallery selection, each
 * handler one sequential step on the current state.
 */
module CatalogComponent {
  import opened Wrappers
  import opened Products
  import opened ImagePaths
  import opened LoadStatus
  import opened Cart
  import opened Gallery

  class Catalog {
    /** The product list of the selected language. */
    const products: seq<Product>
    var quantities: Quantities
    var cart: seq<Line>
    var imagesLoadStatus: StatusMap
    /** The images of the open gallery, `None` while it is closed (`selectedImages === null`). */
    var selectedImages: Option<seq<GalleryImage>>
    var imageStartIndex: int

    /**
     * At most one cart line per product, every line and every recorded
     * quantity at least 1, and an open gallery holds two images with a start
     * index among them.
     */
    ghost predicate Valid()
      reads this
    {
      && DistinctIds(cart)
      && AllPositive(cart)
      && QuantitiesPositive(quantities)
      && (selectedImages.Some? ==> |selectedImages.value| == 2 && 0 <= imageStartIndex < 2)
    }

    /** The initial state: empty maps, an empty cart and no gallery open. */
    constructor (products: seq<Product>)
      ensures Valid()
      ensures this.products == products
      ensures quantities == map[] && cart == [] && imagesLoadStatus == map[]
      ensures selectedImages == None && imageStartIndex == 0
    {
      this.products := products;
      quantities := map[];
      cart := [];
      imagesLoadStatus := map[];
      selectedImages := None;
      imageStartIndex := 0;
    }

    // ------------------------------------------------------ cart and quantities

    /**
     * `addToCartAutomatically`: nothing when `id` is not a product of the
     * list; otherwise the line for `id` takes `quantity`, or a new line is
     * appended. Both callers pass a quantity of at least 1.
     */
    method AddToCartAutomatically(id: int, quantity: int)
      requires Valid() && quantity >= 1
      modifies this`cart
      ensures Valid()
      ensures cart == Upsert(old(cart), products, id, quantity)
    {
      UpsertKeepsDistinct(cart, products, id, quantity);
      UpsertKeepsPositive(cart, products, id, quantity);
      var product := FindProduct(products, id);
      if product.None? {
        return;
      }
      if HasLine(cart, id) {
        cart := SetLineQuantity(cart, id, quantity);
      } else {
        cart := cart + [Line(product.value, quantity)];
      }
    }

    /**
     * `updateQuantity`: records the clamped quantity for `id` and upserts the
     * cart line at that quantity. `value` is the parsed input, `None` when it
     * does not parse.
     */
    method UpdateQuantity(id: int, value: Option<int>)
      requires Valid()
      modifies this`quantities, this`cart
      ensures Valid()
      ensures quantities == old(quantities)[id := ClampQuantity(value)]
      ensures cart == Upsert(old(cart), products, id, ClampQuantity(value))
    {
      var qty := ClampQuantity(value);
      quantities := quantities[id := qty];
      AddToCartAutomatically(id, qty);
    }

    /** `handleAddToCart`: upserts the line for `product` at its recorded quantity (1 if none). */
    method HandleAddToCart(product: Product)
      requires Valid()
      modifies this`cart
      ensures Valid()
      ensures cart == Upsert(old(cart), products, product.id, RecordedQuantity(quantities, product.id))
    {
      var quantity := RecordedQuantity(quantities, product.id);
      AddToCartAutomatically(product.id, quantity);
    }

    /** `removeFromCart`: drops the line for `id` and resets its recorded quantity to 1. */
    method RemoveFromCart(id: int)
      requires Valid()
      modifies this`cart, this`quantities
      ensures Valid()
      ensures cart == RemoveLines(old(cart), id) && !HasLine(cart, id)
      ensures quantities == old(quantities)[id := 1]
    {
      RemoveKeepsInvariant(cart, id);
      cart := RemoveLines(cart, id);
      quantities := quantities[id := 1];
    }

    /**
     * `updateCartQuantity`: a quantity of 0 or less removes the line exactly as
     * `removeFromCart` does; a positive one updates the line for `id` in place
     * and never adds a line.
     */
    method UpdateCartQuantity(id: int, quantity: int)
      requires Valid()
      modifies this`cart, this`quantities
      ensures Valid()
      ensures quantity <= 0 ==> cart == RemoveLines(old(cart), id) && quantities == old(quantities)[id := 1]
      ensures quantity > 0 ==> cart == SetLineQuantity(old(cart), id, quantity) && quantities == old(quantities)
    {
      if quantity <= 0 {
        RemoveFromCart(id);
      } else {
        SetKeepsDistinct(cart, id, quantity);
        cart := SetLineQuantity(cart, id, quantity);
      }
    }

    // ------------------------------------------------------------ image status

    /** `handleImageError`: the given image of the given product is marked failed. */
    method HandleImageError(id: int, kind: ImageKind)
      requires Valid()
      modifies this`imagesLoadStatus
      ensures Valid()
      ensures imagesLoadStatus == Mark(old(imagesLoadStatus), id, kind, Failed)
    {
      imagesLoadStatus := Mark(imagesLoadStatus, id, kind, Failed);
    }

    /** `handleImageLoad`: the given image of the given product is marked loaded. */
    method HandleImageLoad(id: int, kind: ImageKind)
      requires Valid()
      modifies this`imagesLoadStatus
      ensures Valid()
      ensures imagesLoadStatus == Mark(old(imagesLoadStatus), id, kind, Loaded)
    {
      imagesLoadStatus := Mark(imagesLoadStatus, id, kind, Loaded);
    }

    /**
     * `openImageModal`: nothing when both images of the product have failed;
     * otherwise the gallery opens on its single and slot images at
     * `startIndex` (0 from the single image, 1 from the slot image).
     */
    method OpenImageModal(product: Product, startIndex: int)
      requires Valid() && 0 <= startIndex < 2
      modifies this`selectedImages, this`imageStartIndex
      ensures Valid()
      ensures AreAllImagesFailed(imagesLoadStatus, product.id) ==>
                selectedImages == old(selectedImages) && imageStartIndex == old(imageStartIndex)
      ensures !AreAllImagesFailed(imagesLoadStatus, product.id) ==>
                && selectedImages == Some([GalleryImage(SingleImage(product), "Single", false),
                                           GalleryImage(SlotImage(product), "Slot", false)])
                && imageStartIndex == startIndex
    {
      if AreAllImagesFailed(imagesLoadStatus, product.id) {
        return;
      }
      var singleImg := SingleImage(product);
      var slotImg := SlotImage(product);
      selectedImages := Some([GalleryImage(singleImg, "Single", false), GalleryImage(slotImg, "Slot", false)]);
      imageStartIndex := startIndex;
    }

    /** `closeImageModal`. */
    method CloseImageModal()
      requires Valid()
      modifies this`selectedImages
      ensures Valid()
      ensures selectedImages == None
    {
      selectedImages := None;
    }
  }

  /** An open gallery can always be shown: its start index is one of its slides. */
  method ShowGallery(c: Catalog) returns (modal: ImageModal?)
    requires c.Valid()
    ensures (modal == null) == c.selectedImages.None?
    ensures modal != null ==> modal.Valid() && modal.images == c.selectedImages.value
                              && modal.currentIndex == c.imageStartIndex && modal.imageLoadError == {}
  {
    if c.selectedImages.None? {
      return null;
    }
    modal := new ImageModal(c.selectedImages.value, c.imageStartIndex);
  }
}

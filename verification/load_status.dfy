/**
 * The per-product image load state of the catalog (`imagesLoadStatus` in
 * Catalog.jsx): each product id has two slots, `single` and `slot`, each
 * unknown (never reported), loaded or failed.
 */
module LoadStatus {

  datatype Status = Unknown | Loaded | Failed

  /** Which of a product's two images a callback is about. */
  datatype ImageKind = Single | Slot

  /** One product's entry; a slot never written reads as Unknown (`undefined`). */
  datatype SlotStatus = SlotStatus(single: Status, slot: Status)

  type StatusMap = map<int, SlotStatus>

  /** The status of one slot; a product with no entry reads as Unknown (`prev[productId]` is `undefined`). */
  function StatusOf(m: StatusMap, id: int, kind: ImageKind): Status {
    if id !in m then Unknown
    else match kind
      case Single => m[id].single
      case Slot => m[id].slot
  }

  /**
   * `{...prev, [productId]: {...prev[productId], [imageType]: status}}`:
   * the given slot of the given product gets `status`; nothing else changes.
   */
  function Mark(m: StatusMap, id: int, kind: ImageKind, status: Status): (r: StatusMap)
    ensures r.Keys == m.Keys + {id}
    ensures StatusOf(r, id, kind) == status
    ensures forall k :: k != kind ==> StatusOf(r, id, k) == StatusOf(m, id, k)
    ensures forall other :: other in m && other != id ==> r[other] == m[other]
    ensures forall other, k :: other != id ==> StatusOf(r, other, k) == StatusOf(m, other, k)
  {
    var prev := if id in m then m[id] else SlotStatus(Unknown, Unknown);
    var entry := match kind
      case Single => prev.(single := status)
      case Slot => prev.(slot := status);
    m[id := entry]
  }

  /** `areAllImagesFailed`: both the single and the slot image of `id` have failed. */
  predicate AreAllImagesFailed(m: StatusMap, id: int)
    ensures AreAllImagesFailed(m, id) <==> id in m && m[id] == SlotStatus(Failed, Failed)
  {
    StatusOf(m, id, Single) == Failed && StatusOf(m, id, Slot) == Failed
  }

  // ---------------------------------------------------------------- lemmas

  /** Whatever came before, an error on each of a product's two images leaves it with no imagery. */
  lemma BothErrorsFailProduct(m: StatusMap, id: int, first: ImageKind, second: ImageKind)
    requires first != second
    ensures AreAllImagesFailed(Mark(Mark(m, id, first, Failed), id, second, Failed), id)
  {
    var m1 := Mark(m, id, first, Failed);
    var m2 := Mark(m1, id, second, Failed);
    assert StatusOf(m2, id, first) == Failed;
    assert StatusOf(m2, id, second) == Failed;
    assert first == Single || second == Single;
  }

  /** An error report never brings back imagery: "no imagery" is stable under errors. */
  lemma ErrorKeepsAllFailed(m: StatusMap, x: int, id: int, kind: ImageKind)
    requires AreAllImagesFailed(m, x)
    ensures AreAllImagesFailed(Mark(m, id, kind, Failed), x)
  {
    var r := Mark(m, id, kind, Failed);
    if x == id {
      assert StatusOf(r, x, Single) == Failed && StatusOf(r, x, Slot) == Failed by {
        match kind
        case Single =>
        case Slot =>
      }
    }
  }

  /** A successful load of either image means the product has imagery again. */
  lemma LoadClearsAllFailed(m: StatusMap, id: int, kind: ImageKind)
    ensures !AreAllImagesFailed(Mark(m, id, kind, Loaded), id)
  {
    assert StatusOf(Mark(m, id, kind, Loaded), id, kind) == Loaded;
  }

  /** Reports about one product never change whether another product has imagery. */
  lemma OtherProductsUnaffected(m: StatusMap, x: int, id: int, kind: ImageKind, status: Status)
    requires x != id
    ensures AreAllImagesFailed(Mark(m, id, kind, status), x) == AreAllImagesFailed(m, x)
  {
    var r := Mark(m, id, kind, status);
    assert StatusOf(r, x, Single) == StatusOf(m, x, Single);
    assert StatusOf(r, x, Slot) == StatusOf(m, x, Slot);
  }
}

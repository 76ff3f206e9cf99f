/**
 * Image resolution: `getImageFolder` and `getSingleImage`/`getSlotImage`
 * (Catalog.jsx). The folder always comes from the Tanglish table keyed by
 * product id, so it is the same in every display language.
 */
module ImagePaths {
  import opened Wrappers
  import opened Names
  import opened Products

  /** The folder names of `idToTanglishFolder`, for ids 1 to 34 in order. */
  const FolderNames: seq<string> := [
    "Paatham", "Munthiri", "Pistha", "Thiratchai", "Thiratchai",
    "Kirambu", "Kirambu", "Pattai", "Pattai", "Milagu",
    "Milagu", "Seeragam", "Seeragam", "Soambu", "Soambu",
    "Kasakasa", "Sukku", "Sundakka_Vathal", "Sundakka_Vathal",
    "Moor_Milagai", "Moor_Milagai", "Sukkuttikkai", "Kalpaasi",
    "Anisi_Poo", "Biryani_Ilai", "Soda_Uppu", "Cherry",
    "Javarisi_Vathal", "Color_Koddal", "Bat_Fryums", "Elakkay",
    "Mixed", "Mixed", "Heart_Fryums"]

  /** `idToTanglishFolder`: product id to its language-invariant folder name. */
  const FolderTable: map<int, string> := map id | 1 <= id <= |FolderNames| :: FolderNames[id - 1]

  /** The table maps exactly the ids 1 to 34. */
  lemma FolderTableDomain(id: int)
    ensures id in FolderTable <==> 1 <= id <= 34
  {
  }

  /** Every name in the folder table is already made of folder characters. */
  lemma FolderTableIsNormal(id: int)
    requires id in FolderTable
    ensures All(FolderTable[id], IsFolderChar)
  {
    assert FolderTable[id] == FolderNames[id - 1];
    FolderNamesNormal(id - 1);
  }

  lemma FolderNamesNormal(i: int)
    requires 0 <= i < |FolderNames|
    ensures All(FolderNames[i], IsFolderChar)
  {
    // a quarter of the table at a time keeps each proof small
    if i < 9 {
      FolderNamesNormalFirst(i);
    } else if i < 18 {
      FolderNamesNormalSecond(i);
    } else if i < 27 {
      FolderNamesNormalThird(i);
    } else {
      FolderNamesNormalFourth(i);
    }
  }

  lemma FolderNamesNormalFirst(i: int)
    requires 0 <= i < 9
    ensures All(FolderNames[i], IsFolderChar)
  {
  }

  lemma FolderNamesNormalSecond(i: int)
    requires 9 <= i < 18
    ensures All(FolderNames[i], IsFolderChar)
  {
  }

  lemma FolderNamesNormalThird(i: int)
    requires 18 <= i < 27
    ensures All(FolderNames[i], IsFolderChar)
  {
  }

  lemma FolderNamesNormalFourth(i: int)
    requires 27 <= i < 34
    ensures All(FolderNames[i], IsFolderChar)
  {
  }

  /**
   * `getImageFolder`: the normalised table entry for `id`; an id missing from
   * the table normalises `undefined` and so gives the empty folder.
   */
  function GetImageFolder(id: int): (folder: string)
    ensures id in FolderTable ==> folder == FolderTable[id]
    ensures id !in FolderTable ==> folder == ""
    ensures All(folder, IsFolderChar)
  {
    if id in FolderTable then
      FolderTableIsNormal(id);
      NormalizeFixesFolderNames(FolderTable[id]);
      NormalizeName(Some(FolderTable[id]))
    else
      NormalizeName(None)
  }

  /** The price segment of a file name: `safeNumberForFilename(price)`. */
  function PriceSegment(price: int): string {
    SafeNumberForFilename(Some(DecimalString(price)))
  }

  /**
   * The directory of a product's images: its folder under `/assets/`, a
   * single directory level since the folder has no `/`.
   */
  function ImageDirectory(id: int): (dir: string)
    ensures |dir| >= 8 && dir[..8] == "/assets/" && dir[8..] == GetImageFolder(id)
    ensures All(dir[8..], IsFolderChar)
  {
    var prefix := "/assets/";
    assert |prefix| == 8;
    prefix + GetImageFolder(id)
  }

  /** The single image's file name, `/Single(Rs_{price}).jpg`. */
  function SingleFile(price: int): (file: string)
    ensures |file| >= 3 && file[..3] == "/Si"
  {
    "/Single(Rs_" + PriceSegment(price) + ").jpg"
  }

  /** The slot image's file name, `/Slot(Rs_{price}).jpg`. */
  function SlotFile(price: int): (file: string)
    ensures |file| >= 3 && file[..3] == "/Sl"
  {
    "/Slot(Rs_" + PriceSegment(price) + ").jpg"
  }

  /** `getSingleImage`: the single image's file in the product's directory. */
  function SingleImage(p: Product): (path: string)
    ensures path == ImageDirectory(p.id) + SingleFile(p.price)
  {
    "/assets/" + GetImageFolder(p.id) + "/Single(Rs_" + PriceSegment(p.price) + ").jpg"
  }

  /** `getSlotImage`: the slot image's file in the same directory. */
  function SlotImage(p: Product): (path: string)
    ensures path == ImageDirectory(p.id) + SlotFile(p.slotPrice)
  {
    "/assets/" + GetImageFolder(p.id) + "/Slot(Rs_" + PriceSegment(p.slotPrice) + ").jpg"
  }

  /**
   * Both images of a product lie directly in its directory, and the gallery's
   * two slides never share a path.
   */
  lemma ImagesInProductDirectory(p: Product)
    ensures var dir := ImageDirectory(p.id);
            && SingleImage(p)[..|dir|] == dir && SingleImage(p)[|dir|..] == SingleFile(p.price)
            && SlotImage(p)[..|dir|] == dir && SlotImage(p)[|dir|..] == SlotFile(p.slotPrice)
    ensures SingleImage(p) != SlotImage(p)
  {
    var dir := ImageDirectory(p.id);
    FileInDirectory(dir, SingleFile(p.price));
    FileInDirectory(dir, SlotFile(p.slotPrice));
    assert SingleImage(p)[|dir| + 2] == 'i' && SlotImage(p)[|dir| + 2] == 'l';
  }

  lemma FileInDirectory(dir: string, file: string)
    requires |file| > 0
    ensures var path := dir + file; |path| > |dir| && path[..|dir|] == dir && path[|dir|..] == file
  {
  }


  // ---------------------------------------------------------------- lemmas

  /**
   * For a mapped id and a non-negative price, the single-item path names the
   * table folder itself and the decimal digits of the price.
   */
  lemma SingleImageShape(p: Product)
    requires p.id in FolderTable && p.price >= 0
    ensures SingleImage(p) == "/assets/" + FolderTable[p.id] + "/Single(Rs_" + Digits(p.price) + ").jpg"
  {
    PriceText(p.price);
  }

  /** The slot-bundle counterpart of SingleImageShape. */
  lemma SlotImageShape(p: Product)
    requires p.id in FolderTable && p.slotPrice >= 0
    ensures SlotImage(p) == "/assets/" + FolderTable[p.id] + "/Slot(Rs_" + Digits(p.slotPrice) + ").jpg"
  {
    PriceText(p.slotPrice);
  }

  /** An id missing from the table yields an empty folder segment in both paths. */
  lemma UnmappedIdHasEmptyFolder(p: Product)
    requires p.id !in FolderTable
    ensures SingleImage(p) == "/assets//Single(Rs_" + PriceSegment(p.price) + ").jpg"
    ensures SlotImage(p) == "/assets//Slot(Rs_" + PriceSegment(p.slotPrice) + ").jpg"
  {
    EmptyFolderPaths(GetImageFolder(p.id), PriceSegment(p.price), PriceSegment(p.slotPrice));
  }

  lemma EmptyFolderPaths(folder: string, price: string, slotPrice: string)
    requires folder == ""
    ensures "/assets/" + folder + "/Single(Rs_" + price + ").jpg" == "/assets//Single(Rs_" + price + ").jpg"
    ensures "/assets/" + folder + "/Slot(Rs_" + slotPrice + ").jpg" == "/assets//Slot(Rs_" + slotPrice + ").jpg"
  {
    assert "/assets/" + folder + "/Single(Rs_" == "/assets//Single(Rs_";
    assert "/assets/" + folder + "/Slot(Rs_" == "/assets//Slot(Rs_";
  }

  /**
   * The paths depend only on the id and the prices: the same product in two
   * language lists (different names, types and variants) has the same images.
   */
  lemma PathsIgnoreLanguage(p: Product, q: Product)
    requires p.id == q.id && p.price == q.price && p.slotPrice == q.slotPrice
    ensures SingleImage(p) == SingleImage(q) && SlotImage(p) == SlotImage(q)
  {
  }

  lemma PaathamFolder()
    ensures GetImageFolder(1) == "Paatham"
  {
    FolderTableDomain(1);
    FolderTableIsNormal(1);
  }

  lemma ExamplePrices()
    ensures PriceSegment(150) == "150" && PriceSegment(500) == "500"
  {
    PriceText(150);
    PriceText(500);
    ExampleDigits();
  }

  lemma ExampleDigits()
    ensures Digits(150) == "150" && Digits(500) == "500"
  {
    assert Digits(15) == "15";
    assert Digits(50) == "50";
  }

  /**
   * Product 1 priced 150 with a 500 slot bundle resolves to
   * `/assets/Paatham/Single(Rs_150).jpg` and `/assets/Paatham/Slot(Rs_500).jpg`.
   */
  lemma PaathamExample(p: Product)
    requires p.id == 1 && p.price == 150 && p.slotPrice == 500
    ensures SingleImage(p) == "/assets/Paatham/Single(Rs_150).jpg"
    ensures SlotImage(p) == "/assets/Paatham/Slot(Rs_500).jpg"
  {
    PaathamFolder();
    ExamplePrices();
    assert SingleImage(p) == "/assets/" + "Paatham" + "/Single(Rs_" + "150" + ").jpg";
    assert SlotImage(p) == "/assets/" + "Paatham" + "/Slot(Rs_" + "500" + ").jpg";
    ExamplePaths();
  }

  lemma ExamplePaths()
    ensures "/assets/" + "Paatham" + "/Single(Rs_" + "150" + ").jpg" == "/assets/Paatham/Single(Rs_150).jpg"
    ensures "/assets/" + "Paatham" + "/Slot(Rs_" + "500" + ").jpg" == "/assets/Paatham/Slot(Rs_500).jpg"
  {
  }
}

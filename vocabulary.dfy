/** The fixed label vocabularies of the `encoders` table (server.py) and the
    first-occurrence lookup `list.index` that turns a label into its code.
    The vocabularies `Outlet_Location_Type` and `Outlet_Type` are never read by
    the service and are not modelled. */
module Vocabulary {
  import opened Exceptions

  /** `encoders["Item_Type"]`: a category label is encoded as its position here. */
  const ItemType: seq<string> := [
    "Baking Goods", "Breads", "Breakfast", "Canned", "Dairy", "Frozen Foods",
    "Fruits and Vegetables", "Hard Drinks", "Health and Hygiene", "Household",
    "Meat", "Others", "Seafood", "Snack Foods", "Soft Drinks", "Starchy Foods"
  ]

  /** `encoders["Outlet_Identifier"]`: class `k` of the classifier is the outlet at position `k`. */
  const OutletIdentifier: seq<string> := [
    "OUT010", "OUT013", "OUT017", "OUT018", "OUT019", "OUT027", "OUT035",
    "OUT045", "OUT046", "OUT049"
  ]

  /** The `encoders` table: the vocabularies the service reads. */
  datatype Encoders = Encoders(itemType: seq<string>, outletIdentifier: seq<string>)

  /** The table the deployed service uses. */
  const ServerEncoders: Encoders := Encoders(ItemType, OutletIdentifier)

  /** No label occurs twice. */
  predicate Distinct(vocab: seq<string>) {
    forall i, j :: 0 <= i < j < |vocab| ==> vocab[i] != vocab[j]
  }

  /** `k` is where `item` first occurs in `vocab`. */
  predicate IsFirstIndex(vocab: seq<string>, item: string, k: nat) {
    k < |vocab| && vocab[k] == item && forall j :: 0 <= j < k ==> vocab[j] != item
  }

  /** Python's `vocab.index(item)`: the position of the FIRST occurrence of
      `item`, or None where Python raises ValueError. */
  function IndexOf(vocab: seq<string>, item: string): (r: Option<nat>)
    ensures r.Some? ==> IsFirstIndex(vocab, item, r.value)
    ensures r.None? <==> item !in vocab
  {
    if |vocab| == 0 then None
    else if vocab[0] == item then Some(0)
    else
      match IndexOf(vocab[1..], item)
      case None => None
      case Some(k) => Some(k + 1)
  }

  /** Encoding the label
      at a position of a vocabulary without duplicates gives that position
      back: `index` and subscript are inverse on a duplicate-free vocabulary. */
  lemma IndexOfRoundTrip(vocab: seq<string>, k: nat)
    requires Distinct(vocab) && k < |vocab|
    ensures IndexOf(vocab, vocab[k]) == Some(k)
  {
  }

  /** The deployed table has 16 distinct item types and 10 distinct outlets. */
  lemma ServerEncodersDistinct()
    ensures |ServerEncoders.itemType| == 16 && Distinct(ServerEncoders.itemType)
    ensures |ServerEncoders.outletIdentifier| == 10 && Distinct(ServerEncoders.outletIdentifier)
  {
    ItemTypeDistinct();
    OutletIdentifierDistinct();
  }

  lemma ItemTypeDistinct()
    ensures |ItemType| == 16 && Distinct(ItemType)
  {
  }

  lemma OutletIdentifierDistinct()
    ensures |OutletIdentifier| == 10 && Distinct(OutletIdentifier)
  {
  }

  /** Every item type is encoded as its own position in `Item_Type`. */
  lemma ItemTypeCodes(k: nat)
    requires k < |ItemType|
    ensures IndexOf(ItemType, ItemType[k]) == Some(k)
  {
    ItemTypeDistinct();
    IndexOfRoundTrip(ItemType, k);
  }

  /** "Dairy" is encoded as 4. */
  lemma DairyIsFour()
    ensures IndexOf(ItemType, "Dairy") == Some(4)
  {
    assert ItemType[4] == "Dairy";
    ItemTypeCodes(4);
  }
}

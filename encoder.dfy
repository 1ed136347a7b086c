/** The encoder of `predict()` (server.py): one 4-field feature row per
    requested category label, built from four per-feature lists and then
    assembled row by row. The visibility value is an exact rational here;
    floating-point rounding is not modelled. */
module Encoder {
  import opened Exceptions
  import opened Vocabulary

  /** One row of the classifier's input matrix, in the source's field order. */
  datatype Row = Row(visibility: real, itemType: nat, location: int, bin: int)

  /** The batch size from which the bin feature switches on. */
  const BinThreshold: nat := 10

  /** Every requested label is in the `Item_Type` vocabulary, so `list.index`
      raises for none of them. */
  predicate AllKnown(itemType: seq<string>, category: seq<string>) {
    forall i :: 0 <= i < |category| ==> category[i] in itemType
  }

  /** Labels before position `i` are all in `itemType` and `category[i]` is not. */
  predicate FirstUnknownAt(itemType: seq<string>, category: seq<string>, i: nat) {
    i < |category| && category[i] !in itemType
    && forall j :: 0 <= j < i ==> category[j] in itemType
  }

  /** The ValueError that `list.index` raises for a label it does not find. */
  function NotInList(item: string): (e: Exception)
    ensures e.ValueError? && Str(e) == "'" + item + "' is not in list"
  {
    ValueError("'" + item + "' is not in list")
  }

  /** Feature 1: the same placeholder visibility `0.1 / n` for each of the `n` items. */
  function VisibilityFeature(n: nat): (f: seq<real>)
    requires n > 0
    ensures |f| == n
    ensures forall i :: 0 <= i < n ==> f[i] * n as real == 0.1
  {
    seq(n, _ => 0.1 / n as real)
  }

  /** Feature 2: each label's position in the `Item_Type` vocabulary, computed left to right;
      the first label that is not in the vocabulary raises its ValueError. */
  function CategoryFeature(itemType: seq<string>, category: seq<string>): (r: Result<seq<nat>>)
    ensures r.Ok? <==> AllKnown(itemType, category)
    ensures r.Ok? ==> |r.value| == |category|
    ensures r.Ok? ==> forall i :: 0 <= i < |category| ==> IsFirstIndex(itemType, category[i], r.value[i])
    ensures r.Raise? ==> exists i: nat :: FirstUnknownAt(itemType, category, i) && r.error == NotInList(category[i])
  {
    if |category| == 0 then Ok([])
    else
      match IndexOf(itemType, category[0])
      case None =>
        assert FirstUnknownAt(itemType, category, 0);
        Raise(NotInList(category[0]))
      case Some(k) =>
        match CategoryFeature(itemType, category[1..])
        case Raise(e) =>
          var i: nat :| FirstUnknownAt(itemType, category[1..], i) && e == NotInList(category[1..][i]);
          assert FirstUnknownAt(itemType, category, i + 1);
          Raise(e)
        case Ok(codes) =>
          assert forall i :: 1 <= i < |category| ==> category[i] == category[1..][i - 1];
          Ok([k] + codes)
  }

  /** Feature 3: the request's location, repeated for each of the `n` items. */
  function LocationFeature(n: nat, location: int): (f: seq<int>)
    ensures |f| == n
    ensures forall x <- f :: x == location
  {
    seq(n, _ => location)
  }

  /** Feature 4: the batch-size bin, 0 for fewer than ten items and
      `location + 1` for ten or more. */
  function BinFeature(n: nat, location: int): (f: seq<int>)
    ensures |f| == n
    ensures n < BinThreshold ==> forall b <- f :: b == 0
    ensures n >= BinThreshold ==> forall b <- f :: b == location + 1
  {
    if n < BinThreshold then seq(n, _ => 0) else seq(n, _ => location + 1)
  }

  /** Row `i` combines the `i`-th entry of each feature list. */
  function Rows(visibility: seq<real>, codes: seq<nat>, locations: seq<int>, bins: seq<int>): (r: seq<Row>)
    requires |codes| == |locations| == |bins| == |visibility|
    ensures |r| == |visibility|
    ensures forall i {:trigger r[i]} :: 0 <= i < |r| ==>
      && r[i].visibility == visibility[i] && r[i].itemType == codes[i]
      && r[i].location == locations[i] && r[i].bin == bins[i]
  {
    seq(|visibility|, i requires 0 <= i < |visibility| =>
      Row(visibility[i], codes[i], locations[i], bins[i]))
  }

  /** The feature matrix of a request whose `category` is non-empty (the
      handler has already rejected an empty one), or the ValueError of the
      first unknown label. */
  function Encode(itemType: seq<string>, category: seq<string>, location: int): (r: Result<seq<Row>>)
    requires |category| > 0
    ensures r.Ok? <==> AllKnown(itemType, category)
    ensures r.Raise? ==> exists i: nat :: FirstUnknownAt(itemType, category, i) && r.error == NotInList(category[i])
    ensures r.Ok? ==> |r.value| == |category|
    ensures r.Ok? ==> forall i :: 0 <= i < |category| ==>
      && IsFirstIndex(itemType, category[i], r.value[i].itemType)
      && r.value[i].location == location
      && r.value[i].visibility == 0.1 / |category| as real
    ensures r.Ok? ==> forall i :: 0 <= i < |category| ==>
      r.value[i].bin == (if |category| < 10 then 0 else location + 1)
  {
    var n := |category|;
    var visibility := VisibilityFeature(n);
    match CategoryFeature(itemType, category)
    case Raise(e) => Raise(e)
    case Ok(codes) => Ok(Rows(visibility, codes, LocationFeature(n, location), BinFeature(n, location)))
  }

  /** The steps of `predict()` that build `input_data`: the four feature
      lists, then a loop that appends one row per item. */
  method BuildInputData(itemType: seq<string>, category: seq<string>, location: int) returns (r: Result<seq<Row>>)
    requires |category| > 0
    ensures r == Encode(itemType, category, location)
  {
    var n := |category|;
    var visibility := VisibilityFeature(n);
    var categoryFeature := CategoryFeature(itemType, category);
    if categoryFeature.Raise? {
      return Raise(categoryFeature.error);
    }
    var codes := categoryFeature.value;
    var locations := LocationFeature(n, location);
    var bins := BinFeature(n, location);
    var inputData: seq<Row> := [];
    for i := 0 to n
      invariant |inputData| == i
      invariant forall k :: 0 <= k < i ==>
        inputData[k] == Row(visibility[k], codes[k], locations[k], bins[k])
    {
      inputData := inputData + [Row(visibility[i], codes[i], locations[i], bins[i])];
    }
    assert inputData == Rows(visibility, codes, locations, bins);
    return Ok(inputData);
  }

  /** A one-label request is encoded as the single row `[0.1, k, location, 0]`
      where `k` is the label's code. */
  lemma SingleLabel(itemType: seq<string>, item: string, k: nat, location: int)
    requires IndexOf(itemType, item) == Some(k)
    ensures Encode(itemType, [item], location) == Ok([Row(0.1, k, location, 0)])
  {
    assert [item][0] == item && [item][1..] == [];
    assert [k] + [] == [k];
    assert CategoryFeature(itemType, [item]) == Ok([k]);
    var rows := Rows(VisibilityFeature(1), [k], LocationFeature(1, location), BinFeature(1, location));
    assert rows[0] == Row(0.1, k, location, 0);
    assert rows == [Row(0.1, k, location, 0)];
  }

  /** The request `["Dairy"]` at location 1 is encoded as `[0.1, 4, 1, 0]`. */
  lemma DairyExample()
    ensures Encode(ItemType, ["Dairy"], 1) == Ok([Row(0.1, 4, 1, 0)])
  {
    DairyIsFour();
    SingleLabel(ItemType, "Dairy", 4, 1);
  }

  /** Bin boundary: nine copies of a known label give bin 0 in every row,
      ten give `location + 1` in every row. */
  lemma BinBoundary(itemType: seq<string>, item: string, location: int)
    requires item in itemType
    ensures Encode(itemType, seq(9, _ => item), location).Ok?
    ensures forall row <- Encode(itemType, seq(9, _ => item), location).value :: row.bin == 0
    ensures Encode(itemType, seq(10, _ => item), location).Ok?
    ensures forall row <- Encode(itemType, seq(10, _ => item), location).value :: row.bin == location + 1
  {
  }
}

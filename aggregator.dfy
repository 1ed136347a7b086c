/** The aggregation step of `predict()` (server.py): the classifier's
    per-sample class probabilities are averaged over the samples, and each
    class position is relabelled with the outlet at that position of the
    `Outlet_Identifier` vocabulary. Probabilities are exact reals here:
    floating-point error and the rounding to two decimals are not modelled. */
module Aggregator {
  import opened Exceptions
  import opened Vocabulary

  /** What `predict_proba` returns: one row per sample, `classes` entries per row. */
  datatype Probabilities = Probabilities(classes: nat, rows: seq<seq<real>>)

  /** A NumPy matrix is rectangular, and the classifier scores at least one
      sample because the handler never sends it an empty batch. */
  predicate WellShaped(p: Probabilities) {
    |p.rows| > 0 && forall i :: 0 <= i < |p.rows| ==> |p.rows[i]| == p.classes
  }

  type ProbabilityMatrix = p: Probabilities | WellShaped(p) witness Probabilities(0, [[]])

  /** What a list subscript past the end raises. */
  const IndexOutOfRange: Exception := IndexError("list index out of range")

  /** One entry of `summary_prediction`: an outlet and its percentage. */
  datatype Entry = Entry(outlet: string, percent: real)

  function Sum(s: seq<real>): real {
    if s == [] then 0.0 else Sum(s[..|s| - 1]) + s[|s| - 1]
  }

  /** A probability distribution: non-negative entries that add up to one. */
  predicate IsDistribution(v: seq<real>) {
    (forall k :: 0 <= k < |v| ==> 0.0 <= v[k]) && Sum(v) == 1.0
  }

  /** Column `k` of a matrix: the probability of class `k` for each sample. */
  function Column(rows: seq<seq<real>>, k: nat): seq<real>
    requires forall i :: 0 <= i < |rows| ==> k < |rows[i]|
  {
    seq(|rows|, i requires 0 <= i < |rows| => rows[i][k])
  }

  /** `np.mean(probabilities, axis=0)`: the average of each column. */
  function Mean(p: ProbabilityMatrix): (m: seq<real>)
    ensures |m| == p.classes
    ensures forall k :: 0 <= k < p.classes ==> m[k] * |p.rows| as real == Sum(Column(p.rows, k))
  {
    seq(p.classes, k requires 0 <= k < p.classes => Sum(Column(p.rows, k)) / |p.rows| as real)
  }

  /** The dict comprehension of `summary_prediction`: class `idx` becomes the
      entry for `outlets[idx]` with `100 * mean[idx]`; a class past the end of
      the vocabulary makes the subscript raise IndexError. */
  function Summary(outlets: seq<string>, mean: seq<real>): (r: Result<seq<Entry>>)
    ensures r.Ok? <==> |mean| <= |outlets|
    ensures r.Raise? ==> r.error == IndexOutOfRange
    ensures r.Ok? ==> |r.value| == |mean|
    ensures r.Ok? ==> Outlets(r.value) == outlets[..|mean|]
    ensures r.Ok? ==> forall idx :: 0 <= idx < |mean| ==> r.value[idx].percent == mean[idx] * 100.0
  {
    if |mean| > |outlets| then Raise(IndexOutOfRange)
    else
      var entries := seq(|mean|, idx requires 0 <= idx < |mean| => Entry(outlets[idx], mean[idx] * 100.0));
      assert Outlets(entries) == outlets[..|mean|];
      Ok(entries)
  }

  /** The keys of a summary, in insertion order. */
  function Outlets(entries: seq<Entry>): seq<string> {
    seq(|entries|, i requires 0 <= i < |entries| => entries[i].outlet)
  }

  function Percents(entries: seq<Entry>): seq<real> {
    seq(|entries|, i requires 0 <= i < |entries| => entries[i].percent)
  }

  /** The summary read as a Python dict: a later entry for the same key wins. */
  function AsDict(entries: seq<Entry>): map<string, real> {
    if entries == [] then map[]
    else AsDict(entries[..|entries| - 1])[entries[|entries| - 1].outlet := entries[|entries| - 1].percent]
  }

  /** Averaging a single row gives that row back. */
  lemma MeanOfSingleRow(p: ProbabilityMatrix)
    requires |p.rows| == 1
    ensures Mean(p) == p.rows[0]
  {
    forall k | 0 <= k < p.classes ensures Mean(p)[k] == p.rows[0][k] {
      var column := Column(p.rows, k);
      assert column == [p.rows[0][k]];
      assert column[..|column| - 1] == [];
      assert Sum(column) == p.rows[0][k];
      assert Mean(p)[k] == Sum(column) / 1.0;
    }
  }

  /** If every sample's row is a probability distribution, so is the mean:
      the summary's percentages are non-negative and add up to 100. */
  lemma MeanIsDistribution(p: ProbabilityMatrix)
    requires forall i :: 0 <= i < |p.rows| ==> IsDistribution(p.rows[i])
    ensures IsDistribution(Mean(p))
  {
    MeanNonNegative(p);
    MeanTotal(p);
  }

  lemma MeanNonNegative(p: ProbabilityMatrix)
    requires forall i :: 0 <= i < |p.rows| ==> IsDistribution(p.rows[i])
    ensures forall k :: 0 <= k < |Mean(p)| ==> 0.0 <= Mean(p)[k]
  {
    forall k | 0 <= k < p.classes ensures 0.0 <= Mean(p)[k] {
      var column := Column(p.rows, k);
      forall i | 0 <= i < |column| ensures 0.0 <= column[i] {
        assert IsDistribution(p.rows[i]);
      }
      SumNonNegative(column);
    }
  }

  lemma MeanTotal(p: ProbabilityMatrix)
    requires forall i :: 0 <= i < |p.rows| ==> Sum(p.rows[i]) == 1.0
    ensures Sum(Mean(p)) == 1.0
  {
    var n := |p.rows| as real;
    var sums := ColumnSums(p.rows, p.classes);
    var totals := RowSums(p.rows);
    forall i | 0 <= i < |totals| ensures totals[i] == 1.0 {
      assert totals[i] == Sum(p.rows[i]);
    }
    SumOfOnes(totals);
    SumOfColumnSums(p.rows, p.classes);
    NormalizedTotal(sums, n);
    MeanIsScaledColumnSums(p);
  }

  /** The percentages of a summary built from a distribution add up to 100
      and none is negative. */
  lemma SummaryTotal(outlets: seq<string>, mean: seq<real>)
    requires IsDistribution(mean) && |mean| <= |outlets|
    ensures Summary(outlets, mean).Ok?
    ensures forall e <- Summary(outlets, mean).value :: 0.0 <= e.percent
    ensures Sum(Percents(Summary(outlets, mean).value)) == 100.0
  {
    var entries := Summary(outlets, mean).value;
    assert Percents(entries) == Scaled(mean, 0.01);
    SumScaled(mean, 0.01);
  }

  /** Read as a dict, a summary over a duplicate-free vocabulary has exactly
      one key per class, namely the first `|mean|` outlets, each mapped to its
      class's percentage. */
  lemma SummaryAsDict(outlets: seq<string>, mean: seq<real>)
    requires Distinct(outlets) && |mean| <= |outlets|
    ensures Summary(outlets, mean).Ok?
    ensures AsDict(Summary(outlets, mean).value).Keys == set o | o in outlets[..|mean|]
    ensures |AsDict(Summary(outlets, mean).value).Keys| == |mean|
    ensures forall idx :: 0 <= idx < |mean| ==>
      AsDict(Summary(outlets, mean).value)[outlets[idx]] == mean[idx] * 100.0
  {
    var entries := Summary(outlets, mean).value;
    var keys := Outlets(entries);
    assert keys == outlets[..|mean|];
    assert Distinct(keys);
    DictKeys(entries);
    DictValues(entries);
    DistinctCardinality(keys);
  }

  /** With the deployed table and a ten-class classifier the summary's keys
      are exactly the ten outlet identifiers. */
  lemma ServerSummaryKeys(mean: seq<real>)
    requires |mean| == 10
    ensures Summary(OutletIdentifier, mean).Ok?
    ensures AsDict(Summary(OutletIdentifier, mean).value).Keys == set o | o in OutletIdentifier
  {
    OutletIdentifierDistinct();
    SummaryAsDict(OutletIdentifier, mean);
    assert OutletIdentifier[..|mean|] == OutletIdentifier;
  }

  // Sums over sequences

  /** The mean is the column totals divided by the number of samples. */
  lemma MeanIsScaledColumnSums(p: ProbabilityMatrix)
    ensures Mean(p) == Scaled(ColumnSums(p.rows, p.classes), |p.rows| as real)
  {
  }

  function Scaled(a: seq<real>, d: real): seq<real>
    requires d != 0.0
  {
    seq(|a|, k requires 0 <= k < |a| => a[k] / d)
  }

  function Added(a: seq<real>, b: seq<real>): seq<real>
    requires |a| == |b|
  {
    seq(|a|, k requires 0 <= k < |a| => a[k] + b[k])
  }

  /** The total of each column. */
  function ColumnSums(rows: seq<seq<real>>, classes: nat): seq<real>
    requires forall i :: 0 <= i < |rows| ==> |rows[i]| == classes
  {
    seq(classes, k requires 0 <= k < classes => Sum(Column(rows, k)))
  }

  /** The total of each row. */
  function RowSums(rows: seq<seq<real>>): seq<real> {
    seq(|rows|, i requires 0 <= i < |rows| => Sum(rows[i]))
  }

  /** Dividing every entry by the total gives entries that add up to 1. */
  lemma NormalizedTotal(a: seq<real>, total: real)
    requires total != 0.0 && Sum(a) == total
    ensures Sum(Scaled(a, total)) == 1.0
  {
    SumScaled(a, total);
  }

  lemma {:induction false} SumNonNegative(a: seq<real>)
    requires forall k :: 0 <= k < |a| ==> 0.0 <= a[k]
    ensures 0.0 <= Sum(a)
  {
    if a != [] {
      SumNonNegative(a[..|a| - 1]);
    }
  }

  lemma {:induction false} SumOfOnes(a: seq<real>)
    requires forall k :: 0 <= k < |a| ==> a[k] == 1.0
    ensures Sum(a) == |a| as real
  {
    if a != [] {
      SumOfOnes(a[..|a| - 1]);
    }
  }

  lemma {:induction false} SumScaled(a: seq<real>, d: real)
    requires d != 0.0
    ensures Sum(Scaled(a, d)) == Sum(a) / d
  {
    if a != [] {
      assert Scaled(a, d)[..|a| - 1] == Scaled(a[..|a| - 1], d);
      SumScaled(a[..|a| - 1], d);
    }
  }

  lemma {:induction false} SumAdded(a: seq<real>, b: seq<real>)
    requires |a| == |b|
    ensures Sum(Added(a, b)) == Sum(a) + Sum(b)
  {
    if a != [] {
      assert Added(a, b)[..|a| - 1] == Added(a[..|a| - 1], b[..|b| - 1]);
      SumAdded(a[..|a| - 1], b[..|b| - 1]);
    }
  }

  lemma {:induction false} SumOfZeros(n: nat)
    ensures Sum(seq(n, _ => 0.0)) == 0.0
  {
    if n > 0 {
      assert seq(n, _ => 0.0)[..n - 1] == seq(n - 1, _ => 0.0);
      SumOfZeros(n - 1);
    }
  }

  /** Adding up a matrix column by column or row by row gives the same total. */
  lemma {:induction false} SumOfColumnSums(rows: seq<seq<real>>, classes: nat)
    requires forall i :: 0 <= i < |rows| ==> |rows[i]| == classes
    ensures Sum(ColumnSums(rows, classes)) == Sum(RowSums(rows))
  {
    if rows == [] {
      assert ColumnSums(rows, classes) == seq(classes, _ => 0.0);
      SumOfZeros(classes);
    } else {
      var init, last := rows[..|rows| - 1], rows[|rows| - 1];
      SumOfColumnSums(init, classes);
      forall k | 0 <= k < classes
        ensures ColumnSums(rows, classes)[k] == Added(ColumnSums(init, classes), last)[k]
      {
        assert Column(rows, k)[..|rows| - 1] == Column(init, k);
      }
      assert ColumnSums(rows, classes) == Added(ColumnSums(init, classes), last);
      SumAdded(ColumnSums(init, classes), last);
      assert RowSums(rows)[..|rows| - 1] == RowSums(init);
    }
  }

  /** The keys of a summary read as a dict are the outlets it names. */
  lemma {:induction false} DictKeys(entries: seq<Entry>)
    ensures AsDict(entries).Keys == set o | o in Outlets(entries)
  {
    if entries != [] {
      var init := entries[..|entries| - 1];
      DictKeys(init);
      assert Outlets(entries) == Outlets(init) + [entries[|entries| - 1].outlet];
    }
  }

  /** Reading distinct-keyed entries as a dict keeps every entry's value. */
  lemma {:induction false} DictValues(entries: seq<Entry>)
    requires forall i, j :: 0 <= i < j < |entries| ==> entries[i].outlet != entries[j].outlet
    ensures forall i :: 0 <= i < |entries| ==> entries[i].outlet in AsDict(entries)
    ensures forall i :: 0 <= i < |entries| ==> AsDict(entries)[entries[i].outlet] == entries[i].percent
  {
    if entries != [] {
      var init, last := entries[..|entries| - 1], entries[|entries| - 1];
      DictValues(init);
      forall i | 0 <= i < |entries|
        ensures entries[i].outlet in AsDict(entries)
        ensures AsDict(entries)[entries[i].outlet] == entries[i].percent
      {
        if i < |init| {
          assert entries[i] == init[i];
        }
      }
    }
  }

  /** A sequence without duplicates has as many distinct elements as entries. */
  lemma {:induction false} DistinctCardinality(s: seq<string>)
    requires Distinct(s)
    ensures |set o | o in s| == |s|
  {
    if s != [] {
      var init := s[..|s| - 1];
      DistinctCardinality(init);
      assert (set o | o in s) == (set o | o in init) + {s[|s| - 1]};
      assert s[|s| - 1] !in init;
    }
  }
}

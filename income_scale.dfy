/**
 * The income side of the map: the six income bins in their fixed ascending
 * order, the colour of each bin, and the median-bin estimate that walks the
 * bins with a running cumulative count.
 */
module IncomeScale {
  import opened Buckets

  /** The income bins, lowest range first. */
  const IncomeBins: seq<string> := [
    "Less than $50,000",
    "$50,000 to $74,999",
    "$75,000 to $99,999",
    "$100,000 to $149,999",
    "$150,000 to $199,999",
    "$200,000 or more"
  ]

  /** Bin colours, in the order of `IncomeBins`. */
  const IncomePalette: seq<string> := ["#fff5d6", "#fde7a3", "#fbc75d", "#f5a623", "#e18c0d", "#b05e00"]

  /** The colour of anything that is not one of the six bins. */
  const NoIncomeColor: string := "#f2efe7"

  /** The label returned when no bin reaches half the total. */
  const NotAvailable: string := "N/A"

  // ---------------------------------------------------------------- colours

  /** The colour of a bin label; unknown labels get the neutral colour. */
  function IncomeColor(bin: string): (color: string)
    ensures forall i | 0 <= i < |IncomeBins| :: bin == IncomeBins[i] ==> color == IncomePalette[i]
    ensures bin !in IncomeBins ==> color == NoIncomeColor
  {
    if bin == "Less than $50,000" then "#fff5d6"
    else if bin == "$50,000 to $74,999" then "#fde7a3"
    else if bin == "$75,000 to $99,999" then "#fbc75d"
    else if bin == "$100,000 to $149,999" then "#f5a623"
    else if bin == "$150,000 to $199,999" then "#e18c0d"
    else if bin == "$200,000 or more" then "#b05e00"
    else "#f2efe7"
  }

  /** The six bins get six different colours, none of them the neutral colour; "N/A" gets the neutral colour. */
  lemma IncomeColorDistinct(a: string, b: string)
    ensures a in IncomeBins && b in IncomeBins && IncomeColor(a) == IncomeColor(b) ==> a == b
    ensures a in IncomeBins ==> IncomeColor(a) != NoIncomeColor
    ensures IncomeColor(NotAvailable) == NoIncomeColor
  {
  }

  // ------------------------------------------------------------ median bin
  //
  // The scan is stated over any ordered list of bin labels (`sortedBins` in
  // the source); `MedianBin` applies it to the six income bins.

  /** Count of the first `k` labels of `bins`, missing labels counting as 0. */
  function Cumulative(income: Counts, bins: seq<string>, k: nat): nat
    requires k <= |bins|
  {
    if k == 0 then 0 else Cumulative(income, bins, k - 1) + Get(income, bins[k - 1])
  }

  /** Count over all of `bins`; keys outside them are not counted. */
  function BinTotal(income: Counts, bins: seq<string>): nat
  {
    Cumulative(income, bins, |bins|)
  }

  /**
   * The scan from bin `i` on, `cumulative` being the count of the bins before
   * `i`: the index of the first bin whose cumulative count reaches half the
   * total, or `|bins|` once the bins are exhausted. `c >= total / 2` is
   * `2 * c >= total`.
   */
  function MedianScan(income: Counts, bins: seq<string>, total: nat, i: nat, cumulative: nat): (k: nat)
    requires i <= |bins|
    ensures i <= k <= |bins|
    decreases |bins| - i
  {
    if i == |bins| then i
    else
      var c := cumulative + Get(income, bins[i]);
      if 2 * c >= total then i else MedianScan(income, bins, total, i + 1, c)
  }

  /** The label of the bin a scan stops at, "N/A" past the last bin. */
  function BinLabel(bins: seq<string>, k: nat): string
  {
    if k < |bins| then bins[k] else NotAvailable
  }

  /** The median-bin estimate of an income table over the labels `bins`. */
  function MedianOf(income: Counts, bins: seq<string>): string
  {
    BinLabel(bins, MedianScan(income, bins, BinTotal(income, bins), 0, 0))
  }

  /** The median-bin estimate over the six income bins. */
  function MedianBin(income: Counts): string
  {
    MedianOf(income, IncomeBins)
  }

  /** Bin `k` is where the cumulative count first reaches half the total. */
  predicate IsMedianIndex(income: Counts, bins: seq<string>, k: nat)
  {
    k < |bins| &&
    2 * Cumulative(income, bins, k + 1) >= BinTotal(income, bins) &&
    forall j | 1 <= j <= k :: 2 * Cumulative(income, bins, j) < BinTotal(income, bins)
  }

  /** `getMedianIncomeBin`: the total over the six bins, then the scan. */
  method FindMedianBin(income: Counts) returns (bin: string)
    ensures bin == MedianBin(income)
  {
    var total := BinTotal(income, IncomeBins);
    bin := ScanBins(income, IncomeBins, total);
  }

  /** The loop of `getMedianIncomeBin`: a running cumulative count over the bins in order. */
  method ScanBins(income: Counts, bins: seq<string>, total: nat) returns (bin: string)
    ensures bin == BinLabel(bins, MedianScan(income, bins, total, 0, 0))
  {
    var cumulative: nat := 0;
    var i := 0;
    while i < |bins|
      invariant i <= |bins|
      invariant MedianScan(income, bins, total, i, cumulative) == MedianScan(income, bins, total, 0, 0)
    {
      cumulative := cumulative + Get(income, bins[i]);
      if 2 * cumulative >= total {
        bin := bins[i];
        return;
      }
      i := i + 1;
    }
    bin := NotAvailable;
  }

  /**
   * The scan from bin `i` stops at the first bin `k >= i` whose cumulative
   * count reaches half of `total`.
   */
  lemma {:induction false} MedianScanStopsAtFirst(income: Counts, bins: seq<string>, total: nat, i: nat)
    requires i <= |bins|
    ensures var k := MedianScan(income, bins, total, i, Cumulative(income, bins, i));
      (forall j | i < j <= k :: 2 * Cumulative(income, bins, j) < total) &&
      (k < |bins| ==> 2 * Cumulative(income, bins, k + 1) >= total)
    decreases |bins| - i
  {
    if i < |bins| && 2 * Cumulative(income, bins, i + 1) < total {
      MedianScanStopsAtFirst(income, bins, total, i + 1);
    }
  }

  /**
   * Over a non-empty list of bins the scan always stops inside it: at the bin
   * where the cumulative count first reaches half the total, every earlier bin
   * staying below half.
   */
  lemma MedianOfIsFirstHalf(income: Counts, bins: seq<string>) returns (k: nat)
    requires |bins| > 0
    ensures k == MedianScan(income, bins, BinTotal(income, bins), 0, 0)
    ensures IsMedianIndex(income, bins, k) && MedianOf(income, bins) == bins[k]
  {
    k := MedianScan(income, bins, BinTotal(income, bins), 0, 0);
    MedianScanStopsAtFirst(income, bins, BinTotal(income, bins), 0);
  }

  /** Only one bin is the first to reach half the total. */
  lemma MedianIndexUnique(income: Counts, bins: seq<string>, k: nat, l: nat)
    requires IsMedianIndex(income, bins, k) && IsMedianIndex(income, bins, l)
    ensures k == l
  {
  }

  /** The scan stops at bin `i` exactly when bin `i` is the first to reach half the total. */
  lemma MedianScanCharacterized(income: Counts, bins: seq<string>, i: nat)
    requires i < |bins|
    ensures MedianScan(income, bins, BinTotal(income, bins), 0, 0) == i <==> IsMedianIndex(income, bins, i)
  {
    var k := MedianOfIsFirstHalf(income, bins);
    if IsMedianIndex(income, bins, i) {
      MedianIndexUnique(income, bins, k, i);
    }
  }

  /** The six bin labels are distinct, and none of them is "N/A". */
  lemma IncomeBinsDistinct()
    ensures forall a, b | 0 <= a < b < |IncomeBins| :: IncomeBins[a] != IncomeBins[b]
    ensures NotAvailable !in IncomeBins
  {
  }

  /**
   * The estimate of `getMedianIncomeBin` is never "N/A": it is the bin where
   * the cumulative count first reaches half the total.
   */
  lemma MedianBinIsFirstHalf(income: Counts) returns (k: nat)
    ensures IsMedianIndex(income, IncomeBins, k) && MedianBin(income) == IncomeBins[k]
    ensures MedianBin(income) != NotAvailable
  {
    k := MedianOfIsFirstHalf(income, IncomeBins);
    IncomeBinsDistinct();
  }

  /** The estimate names bin `i` exactly when bin `i` is the first of the six to reach half the total. */
  lemma MedianBinCharacterized(income: Counts, i: nat)
    requires i < |IncomeBins|
    ensures MedianBin(income) == IncomeBins[i] <==> IsMedianIndex(income, IncomeBins, i)
  {
    var k := MedianOfIsFirstHalf(income, IncomeBins);
    MedianScanCharacterized(income, IncomeBins, i);
    IncomeBinsDistinct();
  }

  /** Zero counts in every bin give the lowest bin (0 reaches half of 0), not "N/A". */
  lemma MedianBinAllZero(income: Counts)
    requires BinTotal(income, IncomeBins) == 0
    ensures MedianBin(income) == IncomeBins[0]
  {
    var k := MedianOfIsFirstHalf(income, IncomeBins);
    MedianIndexUnique(income, IncomeBins, k, 0);
  }

  /** The prefix counts of a table whose only non-empty bin is `b`. */
  lemma {:induction false} CumulativeOfOneBin(income: Counts, bins: seq<string>, b: nat, k: nat)
    requires b < |bins| && k <= |bins|
    requires forall j | 0 <= j < |bins| && j != b :: Get(income, bins[j]) == 0
    ensures Cumulative(income, bins, k) == if k <= b then 0 else Get(income, bins[b])
  {
    if k > 0 {
      CumulativeOfOneBin(income, bins, b, k - 1);
    }
  }

  /** When all the households are in one bin, that bin is the estimate. */
  lemma MedianOfOneBin(income: Counts, bins: seq<string>, b: nat)
    requires b < |bins|
    requires Get(income, bins[b]) > 0
    requires forall j | 0 <= j < |bins| && j != b :: Get(income, bins[j]) == 0
    ensures MedianOf(income, bins) == bins[b]
  {
    forall j | 0 <= j <= |bins| {
      CumulativeOfOneBin(income, bins, b, j);
    }
    var k := MedianOfIsFirstHalf(income, bins);
    MedianIndexUnique(income, bins, k, b);
  }

  /** Two tables that agree on the bins have the same prefix counts. */
  lemma {:induction false} CumulativeOnlyReadsBins(income: Counts, other: Counts, bins: seq<string>, k: nat)
    requires k <= |bins|
    requires forall b | b in bins :: Get(income, b) == Get(other, b)
    ensures Cumulative(income, bins, k) == Cumulative(other, bins, k)
  {
    if k > 0 {
      CumulativeOnlyReadsBins(income, other, bins, k - 1);
    }
  }

  /** Keys outside the bins do not affect the estimate. */
  lemma MedianOfIgnoresOtherKeys(income: Counts, other: Counts, bins: seq<string>)
    requires |bins| > 0
    requires forall b | b in bins :: Get(income, b) == Get(other, b)
    ensures MedianOf(income, bins) == MedianOf(other, bins)
  {
    forall j | 0 <= j <= |bins| {
      CumulativeOnlyReadsBins(income, other, bins, j);
    }
    var k := MedianOfIsFirstHalf(income, bins);
    var l := MedianOfIsFirstHalf(other, bins);
    MedianIndexUnique(other, bins, k, l);
  }
}

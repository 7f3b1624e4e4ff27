/** Background statistics of a k-means clustering: per-cluster moments of the
    labelled sample rows, the variance of the largest cluster, and the
    segmentation that paints every pixel with its cluster's centroid.
    `Core.kmeans` itself is an OpenCV call: its labels and centroids are
    inputs. */
module Clusterizer {
  import opened Wrappers
  import opened Numeric
  import opened Pixels

  /** Why a call ends without a value. */
  datatype Failure =
    | BadLabel(row: nat)  // the label of this row is not a cluster index: the lookup throws
    | NoClusters          // there are no cluster statistics: `get(0)` throws
    | NotANumber          // the largest cluster is empty: the variance is 0.0 / 0.0

  /** Every sample row has one value per channel. */
  predicate Shaped(samples: seq<seq<real>>, channels: nat)
  {
    forall r :: 0 <= r < |samples| ==> |samples[r]| == channels
  }

  // ----- Labels -----

  /** The first of the first n rows whose label lies outside [0, clusters). */
  function FirstBadLabel(labels: seq<int>, clusters: int, n: nat): (r: Option<nat>)
    requires n <= |labels|
    ensures r.Some? ==> r.value < n
  {
    if n == 0 then None
    else match FirstBadLabel(labels, clusters, n - 1)
      case Some(i) => Some(i)
      case None => if 0 <= labels[n - 1] < clusters then None else Some(n - 1)
  }

  /** No bad label is found exactly when every label is a cluster index; a
      bad label found is the first one. */
  lemma {:induction false} FirstBadLabelMeaning(labels: seq<int>, clusters: int, n: nat)
    requires n <= |labels|
    ensures FirstBadLabel(labels, clusters, n) == None <==> forall i :: 0 <= i < n ==> 0 <= labels[i] < clusters
    ensures var r := FirstBadLabel(labels, clusters, n);
      r.Some? ==> !(0 <= labels[r.value] < clusters) && forall i :: 0 <= i < r.value ==> 0 <= labels[i] < clusters
  {
    if n > 0 {
      FirstBadLabelMeaning(labels, clusters, n - 1);
    }
  }

  /** Once found, the first bad label stays the first one. */
  lemma {:induction false} FirstBadLabelStays(labels: seq<int>, clusters: int, n: nat, m: nat)
    requires n <= m <= |labels| && FirstBadLabel(labels, clusters, n).Some?
    ensures FirstBadLabel(labels, clusters, m) == FirstBadLabel(labels, clusters, n)
  {
    if m > n {
      FirstBadLabelStays(labels, clusters, n, m - 1);
    }
  }

  // ----- Cluster statistics -----

  /** The rows among the first n whose label is j, in row order. */
  function Members(samples: seq<seq<real>>, labels: seq<int>, n: nat, j: int): (rows: seq<seq<real>>)
    requires n <= |samples| && n <= |labels|
    ensures |rows| <= n
  {
    if n == 0 then []
    else Members(samples, labels, n - 1, j) + (if labels[n - 1] == j then [samples[n - 1]] else [])
  }

  /** A cluster's count is the number of rows carrying its label. */
  lemma {:induction false} MembersCount(samples: seq<seq<real>>, labels: seq<int>, n: nat, j: int)
    requires n <= |samples| && n <= |labels|
    ensures |Members(samples, labels, n, j)| == multiset(labels[..n])[j]
  {
    if n > 0 {
      MembersCount(samples, labels, n - 1, j);
      assert labels[..n] == labels[..n - 1] + [labels[n - 1]];
    }
  }

  lemma {:induction false} MembersShaped(samples: seq<seq<real>>, labels: seq<int>, n: nat, j: int, channels: nat)
    requires n <= |samples| && n <= |labels| && Shaped(samples, channels)
    ensures Shaped(Members(samples, labels, n, j), channels)
  {
    if n > 0 {
      MembersShaped(samples, labels, n - 1, j, channels);
    }
  }

  /** Channel c of a row; every row the statistics see has every channel. */
  function Value(row: seq<real>, c: nat): real
  {
    if c < |row| then row[c] else 0.0
  }

  /** Channel c of every row. */
  function Column(rows: seq<seq<real>>, c: nat): (col: seq<real>)
    ensures |col| == |rows|
  {
    if |rows| == 0 then [] else Column(rows[..|rows| - 1], c) + [Value(rows[|rows| - 1], c)]
  }

  lemma ColumnAppend(rows: seq<seq<real>>, row: seq<real>, c: nat)
    ensures Column(rows + [row], c) == Column(rows, c) + [Value(row, c)]
  {
    assert (rows + [row])[..|rows|] == rows;
  }

  /** The `second_moment` entry: the sum of the squares of every value of every row. */
  function Moment(rows: seq<seq<real>>): real
  {
    if |rows| == 0 then 0.0 else Moment(rows[..|rows| - 1]) + SumSq(rows[|rows| - 1])
  }

  /** The `sum_channel_c` entries. */
  function ColumnSums(rows: seq<seq<real>>, channels: nat): (sums: seq<real>)
    ensures |sums| == channels
  {
    seq(channels, c requires 0 <= c => Sum(Column(rows, c)))
  }

  /** One cluster's statistics map. */
  datatype ClusterStats = ClusterStats(secondMoment: real, count: real, sums: seq<real>)

  /** The statistics are those of exactly these rows. */
  predicate Summarises(st: ClusterStats, rows: seq<seq<real>>, channels: nat)
  {
    st.secondMoment == Moment(rows) && st.count == |rows| as real && |st.sums| == channels &&
    forall c :: 0 <= c < channels ==> st.sums[c] == Sum(Column(rows, c))
  }

  /** Adding a row of cluster j to its statistics: the square of every value
      joins the second moment, every value its channel's sum, and the count
      grows by one. */
  lemma AddRow(st: ClusterStats, rows: seq<seq<real>>, row: seq<real>, channels: nat,
               secondMoment: real, sums: seq<real>)
    requires |row| == channels && Summarises(st, rows, channels)
    requires secondMoment == st.secondMoment + SumSq(row[..channels]) && |sums| == channels
    requires forall c :: 0 <= c < channels ==> sums[c] == st.sums[c] + row[c]
    ensures Summarises(ClusterStats(secondMoment, st.count + 1.0, sums), rows + [row], channels)
  {
    assert (rows + [row])[..|rows|] == rows;
    assert row[..channels] == row;
    forall c | 0 <= c < channels
      ensures sums[c] == Sum(Column(rows + [row], c))
    {
      ColumnAppend(rows, row, c);
    }
  }

  /** The count of every cluster, in cluster order. */
  function Counts(samples: seq<seq<real>>, labels: seq<int>, clusters: int): (counts: seq<real>)
    requires |labels| <= |samples|
    ensures |counts| == if clusters > 0 then clusters else 0
  {
    seq(if clusters > 0 then clusters else 0, j => |Members(samples, labels, |labels|, j)| as real)
  }

  /** The cluster the scan over the first n counts keeps: a later cluster
      replaces the kept one only with a strictly larger count, so the kept
      one is the lowest-numbered of the largest. */
  function LargestIn(counts: seq<real>, n: nat): (m: nat)
    requires 1 <= n <= |counts|
    ensures m < n
    ensures forall j :: 0 <= j < n ==> counts[j] <= counts[m]
    ensures forall j :: 0 <= j < m ==> counts[j] < counts[m]
  {
    if n == 1 then 0
    else
      var m := LargestIn(counts, n - 1);
      if counts[n - 1] > counts[m] then n - 1 else m
  }

  /** The squares of the channel means, (sum_c / count)^2, over the first k channels. */
  function SquaredMeans(sums: seq<real>, count: real, k: nat): real
    requires k <= |sums| && count != 0.0
  {
    if k == 0 then 0.0 else SquaredMeans(sums, count, k - 1) + (sums[k - 1] / count) * (sums[k - 1] / count)
  }

  /** The rows of the cluster with the largest count, the lowest-numbered on a tie. */
  function LargestCluster(samples: seq<seq<real>>, labels: seq<int>, clusters: int): seq<seq<real>>
    requires |labels| <= |samples| && clusters > 0
  {
    Members(samples, labels, |labels|, LargestIn(Counts(samples, labels, clusters), clusters))
  }

  /** `getBackgroundVariance`: the second moment over the count of the largest
      cluster, less the squares of its channel means. */
  function BackgroundVariance(samples: seq<seq<real>>, channels: nat, labels: seq<int>, clusters: int): Result<real, Failure>
    requires |labels| == |samples|
  {
    match FirstBadLabel(labels, clusters, |labels|)
    case Some(i) => Err(BadLabel(i))
    case None =>
      if clusters <= 0 then Err(NoClusters)
      else
        var rows := LargestCluster(samples, labels, clusters);
        if |rows| == 0 then Err(NotANumber)
        else Ok(Moment(rows) / |rows| as real - SquaredMeans(ColumnSums(rows, channels), |rows| as real, channels))
  }

  // ----- What the variance means -----

  /** Every row's label is counted in its own cluster. */
  lemma {:induction false} OwnLabelCounted(samples: seq<seq<real>>, labels: seq<int>, n: nat, i: nat)
    requires i < n <= |samples| && n <= |labels|
    ensures |Members(samples, labels, n, labels[i])| >= 1
  {
    if i < n - 1 {
      OwnLabelCounted(samples, labels, n - 1, i);
    }
  }

  /** The call fails on the first row with a bad label; with good labels it
      fails with no clusters, or with an empty largest cluster exactly when
      there are no rows; otherwise it yields a value. */
  lemma BackgroundVarianceOutcome(samples: seq<seq<real>>, channels: nat, labels: seq<int>, clusters: int)
    requires |labels| == |samples|
    ensures var r := BackgroundVariance(samples, channels, labels, clusters);
      (r.Err? && r.error.BadLabel? ==>
         r.error.row < |labels| && !(0 <= labels[r.error.row] < clusters) &&
         forall i :: 0 <= i < r.error.row ==> 0 <= labels[i] < clusters) &&
      (r == Err(NoClusters) <==> clusters <= 0 && |labels| == 0) &&
      (r == Err(NotANumber) <==> clusters > 0 && |labels| == 0) &&
      (r.Ok? <==> |labels| > 0 && forall i :: 0 <= i < |labels| ==> 0 <= labels[i] < clusters)
  {
    FirstBadLabelMeaning(labels, clusters, |labels|);
    if FirstBadLabel(labels, clusters, |labels|) == None && clusters > 0 && |labels| > 0 {
      var counts := Counts(samples, labels, clusters);
      var largest := LargestIn(counts, clusters);
      OwnLabelCounted(samples, labels, |labels|, 0);
      assert counts[labels[0]] >= 1.0;
    } else if FirstBadLabel(labels, clusters, |labels|).Some? {
      assert |labels| > 0;
    }
  }

  /** The population variance of one channel's values. */
  function ChannelVariance(col: seq<real>): real
    requires |col| > 0
  {
    SumSq(col) / |col| as real - (Sum(col) / |col| as real) * (Sum(col) / |col| as real)
  }

  /** The sum of the squares of channels 0 .. k-1 of the rows. */
  function ColumnSquares(rows: seq<seq<real>>, k: nat): real
  {
    if k == 0 then 0.0 else ColumnSquares(rows, k - 1) + SumSq(Column(rows, k - 1))
  }

  /** The variances of channels 0 .. k-1. */
  function ChannelVariances(rows: seq<seq<real>>, k: nat): real
    requires |rows| > 0
  {
    if k == 0 then 0.0 else ChannelVariances(rows, k - 1) + ChannelVariance(Column(rows, k - 1))
  }

  /** A row appended adds the square of its value to a channel's squares. */
  lemma ColumnSumSqAppend(rows: seq<seq<real>>, row: seq<real>, c: nat)
    requires c < |row|
    ensures SumSq(Column(rows + [row], c)) == SumSq(Column(rows, c)) + row[c] * row[c]
  {
    ColumnAppend(rows, row, c);
    var col := Column(rows, c);
    assert (col + [row[c]])[..|col|] == col;
  }

  /** Appending a row adds its squares, channel by channel. */
  lemma {:induction false} ColumnSquaresAppend(rows: seq<seq<real>>, row: seq<real>, k: nat)
    requires k <= |row|
    ensures ColumnSquares(rows + [row], k) == ColumnSquares(rows, k) + SumSq(row[..k])
  {
    if k > 0 {
      var v := row[k - 1];
      ColumnSquaresAppend(rows, row, k - 1);
      ColumnSumSqAppend(rows, row, k - 1);
      MomentStep(row, k - 1, v);
      assert ColumnSquares(rows + [row], k) ==
        ColumnSquares(rows + [row], k - 1) + SumSq(Column(rows + [row], k - 1));
    }
  }

  lemma {:induction false} ColumnSquaresOfNoRows(k: nat)
    ensures ColumnSquares([], k) == 0.0
  {
    if k > 0 {
      ColumnSquaresOfNoRows(k - 1);
    }
  }

  /** The second moment is the sum, over the channels, of each channel's squares. */
  lemma {:induction false} MomentByChannels(rows: seq<seq<real>>, channels: nat)
    requires Shaped(rows, channels)
    ensures Moment(rows) == ColumnSquares(rows, channels)
  {
    if |rows| > 0 {
      var prefix, last := rows[..|rows| - 1], rows[|rows| - 1];
      MomentByChannels(prefix, channels);
      assert prefix + [last] == rows;
      ColumnSquaresAppend(prefix, last, channels);
      assert last[..channels] == last;
    } else {
      ColumnSquaresOfNoRows(channels);
    }
  }

  lemma DivideSum(a: real, b: real, n: real)
    requires n != 0.0
    ensures (a + b) / n == a / n + b / n
  {
  }

  lemma ColumnSumsAt(rows: seq<seq<real>>, channels: nat, c: nat)
    requires c < channels
    ensures ColumnSums(rows, channels)[c] == Sum(Column(rows, c))
  {
  }

  lemma ChannelVarianceOf(col: seq<real>, n: real, mean: real)
    requires |col| > 0 && n == |col| as real && mean == Sum(col) / n
    ensures ChannelVariance(col) == SumSq(col) / n - mean * mean
  {
  }

  lemma SquaredMeansStep(sums: seq<real>, n: real, c: nat, mean: real)
    requires c < |sums| && n != 0.0 && mean == sums[c] / n
    ensures SquaredMeans(sums, n, c + 1) == SquaredMeans(sums, n, c) + mean * mean
  {
  }

  /** One more channel: its mean square joins the squares, its squared mean the means. */
  lemma VarianceStep(prev: real, squares: real, sq: real, means: real, meanSq: real, n: real)
    requires n != 0.0 && prev == squares / n - means
    ensures prev + (sq / n - meanSq) == (squares + sq) / n - (means + meanSq)
  {
    DivideSum(squares, sq, n);
  }

  /** Mean square less the squared means is the sum of the channel variances, k channels at a time. */
  lemma {:induction false} ChannelVariancesSplit(rows: seq<seq<real>>, channels: nat, k: nat)
    requires k <= channels && |rows| > 0
    ensures ChannelVariances(rows, k) ==
      ColumnSquares(rows, k) / |rows| as real - SquaredMeans(ColumnSums(rows, channels), |rows| as real, k)
  {
    if k > 0 {
      ChannelVariancesSplit(rows, channels, k - 1);
      var col, n := Column(rows, k - 1), |rows| as real;
      var sums := ColumnSums(rows, channels);
      var mean := Sum(col) / n;
      ColumnSumsAt(rows, channels, k - 1);
      ChannelVarianceOf(col, n, mean);
      SquaredMeansStep(sums, n, k - 1, mean);
      VarianceStep(ChannelVariances(rows, k - 1), ColumnSquares(rows, k - 1), SumSq(col),
        SquaredMeans(sums, n, k - 1), mean * mean, n);
    }
  }

  /** Each channel variance is at least zero, so their sum is too. */
  lemma {:induction false} ChannelVariancesNonNegative(rows: seq<seq<real>>, k: nat)
    requires |rows| > 0
    ensures ChannelVariances(rows, k) >= 0.0
  {
    if k > 0 {
      ChannelVariancesNonNegative(rows, k - 1);
      var col := Column(rows, k - 1);
      VarianceNonNegative(col, |col| as real);
    }
  }

  /** The background variance is the sum of the largest cluster's per-channel
      variances, and so is never negative. */
  lemma BackgroundVarianceIsChannelVariances(samples: seq<seq<real>>, channels: nat, labels: seq<int>, clusters: int)
    requires Shaped(samples, channels) && |labels| == |samples|
    ensures var r := BackgroundVariance(samples, channels, labels, clusters);
      r.Ok? ==> (clusters > 0 &&
        var rows := LargestCluster(samples, labels, clusters);
        |rows| > 0 && r.value == ChannelVariances(rows, channels) && r.value >= 0.0)
  {
    var r := BackgroundVariance(samples, channels, labels, clusters);
    if r.Ok? {
      var largest := LargestIn(Counts(samples, labels, clusters), clusters);
      var rows := LargestCluster(samples, labels, clusters);
      MembersShaped(samples, labels, |labels|, largest, channels);
      MomentByChannels(rows, channels);
      ChannelVariancesSplit(rows, channels, channels);
      ChannelVariancesNonNegative(rows, channels);
    }
  }

  /** Squared means agree when the sums agree on the channels they cover. */
  lemma {:induction false} SquaredMeansAgree(a: seq<real>, b: seq<real>, count: real, k: nat)
    requires k <= |a| && k <= |b| && count != 0.0 && forall c :: 0 <= c < k ==> a[c] == b[c]
    ensures SquaredMeans(a, count, k) == SquaredMeans(b, count, k)
  {
    if k > 0 {
      SquaredMeansAgree(a, b, count, k - 1);
    }
  }

  // ----- Segmentation -----

  /** `getClusteringSamples`: the image reshaped to one row per pixel, the
      rows of the image one after another. */
  function ClusteringSamples(px: seq<seq<Triple>>, cols: nat): (samples: seq<Triple>)
    requires forall r :: 0 <= r < |px| ==> |px[r]| == cols
    ensures |samples| == |px| * cols
  {
    if |px| == 0 then []
    else
      var n := |px| - 1;
      assert |px| * cols == n * cols + cols;
      ClusteringSamples(px[..n], cols) + px[n]
  }

  lemma RowEnd(y: nat, rows: nat, cols: nat)
    requires y < rows
    ensures y * cols + cols <= rows * cols
  {
    var d := rows - (y + 1);
    assert rows * cols == y * cols + cols + d * cols;
  }

  /** Pixel (y, x) is sample y * cols + x. */
  lemma {:induction false} ClusteringSamplesAt(px: seq<seq<Triple>>, cols: nat, y: nat, x: nat)
    requires forall r :: 0 <= r < |px| ==> |px[r]| == cols
    requires y < |px| && x < cols
    ensures y * cols + x < |px| * cols && ClusteringSamples(px, cols)[y * cols + x] == px[y][x]
  {
    var n := |px| - 1;
    var prefix := ClusteringSamples(px[..n], cols);
    assert ClusteringSamples(px, cols) == prefix + px[n];
    if y < n {
      RowEnd(y, n, cols);
      ClusteringSamplesAt(px[..n], cols, y, x);
    } else {
      assert y * cols + x == |prefix| + x;
    }
  }

  /** Image row y of the samples: samples y * cols up to (y + 1) * cols. */
  function ImageRow(samples: seq<Triple>, rows: nat, cols: nat, y: nat): (row: seq<Triple>)
    requires |samples| == rows * cols && y < rows
    ensures |row| == cols
  {
    RowEnd(y, rows, cols);
    samples[y * cols .. y * cols + cols]
  }

  /** The samples reshaped back into an image of the given size. */
  function Reshape(samples: seq<Triple>, rows: nat, cols: nat): (image: Image)
    requires |samples| == rows * cols
    ensures image.Valid() && image.rows == rows && image.cols == cols
  {
    Image(rows, cols, seq(rows, y requires 0 <= y < rows => ImageRow(samples, rows, cols, y)))
  }

  /** Reshaping the clustering samples gives back the image. */
  lemma ReshapeRoundTrip(image: Image)
    requires image.Valid()
    ensures Reshape(ClusteringSamples(image.px, image.cols), image.rows, image.cols) == image
  {
    var back := Reshape(ClusteringSamples(image.px, image.cols), image.rows, image.cols);
    forall y | 0 <= y < image.rows
      ensures back.px[y] == image.px[y]
    {
      RowEnd(y, image.rows, image.cols);
      forall x | 0 <= x < image.cols
        ensures back.px[y][x] == image.px[y][x]
      {
        ClusteringSamplesAt(image.px, image.cols, y, x);
      }
    }
  }

  /** Pixel (y, x) of a reshaped image is sample y * cols + x. */
  lemma ReshapeAt(samples: seq<Triple>, rows: nat, cols: nat, y: nat, x: nat)
    requires |samples| == rows * cols && y < rows && x < cols
    ensures y * cols + x < rows * cols && Reshape(samples, rows, cols).At(y, x) == samples[y * cols + x]
  {
    RowEnd(y, rows, cols);
  }

  /** Every sample row replaced by its label's centroid. */
  function Substituted(labels: seq<int>, centroids: seq<Triple>): (s: seq<Triple>)
    requires forall i :: 0 <= i < |labels| ==> 0 <= labels[i] < |centroids|
    ensures |s| == |labels|
  {
    seq(|labels|, i requires 0 <= i < |labels| => centroids[labels[i]])
  }

  /** `getBackgroundSegmentation`: the image with every pixel replaced by the
      centroid of its label's cluster, failing on the first bad label. */
  function Segmented(image: Image, labels: seq<int>, centroids: seq<Triple>): Result<Image, Failure>
    requires image.Valid() && |labels| == image.rows * image.cols
  {
    match FirstBadLabel(labels, |centroids|, |labels|)
    case Some(i) => Err(BadLabel(i))
    case None =>
      FirstBadLabelMeaning(labels, |centroids|, |labels|);
      Ok(Reshape(Substituted(labels, centroids), image.rows, image.cols))
  }

  /** The segmentation has the image's size and paints pixel (y, x) with the
      centroid of label y * cols + x, so pixels with one label share one
      colour; it fails exactly when some label is not a centroid index. */
  lemma SegmentedMeaning(image: Image, labels: seq<int>, centroids: seq<Triple>, y: nat, x: nat)
    requires image.Valid() && |labels| == image.rows * image.cols && y < image.rows && x < image.cols
    ensures var r := Segmented(image, labels, centroids);
      (r.Ok? <==> forall i :: 0 <= i < |labels| ==> 0 <= labels[i] < |centroids|) &&
      (r.Ok? ==> (r.value.Valid() && r.value.rows == image.rows && r.value.cols == image.cols &&
        y * image.cols + x < |labels| && r.value.At(y, x) == centroids[labels[y * image.cols + x]]))
  {
    FirstBadLabelMeaning(labels, |centroids|, |labels|);
    if FirstBadLabel(labels, |centroids|, |labels|) == None {
      ReshapeAt(Substituted(labels, centroids), image.rows, image.cols, y, x);
    }
  }

  // ----- The steps of `getBackgroundVariance` -----

  /** One statistics map per cluster, every entry zero: the statistics of no rows. */
  method NewStats(clusters: int, channels: nat) returns (stats: seq<ClusterStats>)
    ensures |stats| == if clusters > 0 then clusters else 0
    ensures forall j :: 0 <= j < |stats| ==> Summarises(stats[j], [], channels)
  {
    stats := [];
    var i := 0;
    while i < clusters
      invariant 0 <= i && (i == 0 || i <= clusters)
      invariant |stats| == i
      invariant forall j :: 0 <= j < |stats| ==> Summarises(stats[j], [], channels)
    {
      var sums: seq<real> := [];
      for col := 0 to channels
        invariant |sums| == col && forall c :: 0 <= c < col ==> sums[c] == 0.0
      {
        sums := sums + [0.0];
      }
      stats := stats + [ClusterStats(0.0, 0.0, sums)];
      i := i + 1;
    }
  }

  /** The updates of one row to its cluster's map: each value's square joins
      the second moment and the value its channel's sum; the count grows by one. */
  method AddToCluster(cluster: ClusterStats, row: seq<real>, channels: nat) returns (updated: ClusterStats)
    requires |row| == channels && |cluster.sums| == channels
    ensures updated.secondMoment == cluster.secondMoment + SumSq(row[..channels])
    ensures updated.count == cluster.count + 1.0 && |updated.sums| == channels
    ensures forall c :: 0 <= c < channels ==> updated.sums[c] == cluster.sums[c] + row[c]
  {
    var secondMoment, sums := cluster.secondMoment, cluster.sums;
    for col := 0 to channels
      invariant |sums| == channels
      invariant secondMoment == cluster.secondMoment + SumSq(row[..col])
      invariant forall c :: 0 <= c < channels ==> sums[c] == if c < col then cluster.sums[c] + row[c] else cluster.sums[c]
    {
      var x := row[col];
      SumPrefixStep(row, col);
      secondMoment := secondMoment + x * x;
      sums := sums[col := sums[col] + x];
    }
    updated := ClusterStats(secondMoment, cluster.count + 1.0, sums);
  }

  /** Row `row` joins the map of its label; every other map keeps its rows. */
  lemma AccumulateStep(samples: seq<seq<real>>, channels: nat, labels: seq<int>, row: nat,
                       stats: seq<ClusterStats>, updated: ClusterStats, next: seq<ClusterStats>)
    requires row < |labels| == |samples| && 0 <= labels[row] < |stats| && next == stats[labels[row] := updated]
    requires forall j :: 0 <= j < |stats| ==> Summarises(stats[j], Members(samples, labels, row, j), channels)
    requires Summarises(updated, Members(samples, labels, row, labels[row]) + [samples[row]], channels)
    ensures forall j :: 0 <= j < |next| ==> Summarises(next[j], Members(samples, labels, row + 1, j), channels)
  {
    forall j | 0 <= j < |next|
      ensures Summarises(next[j], Members(samples, labels, row + 1, j), channels)
    {
      if j != labels[row] {
        assert Members(samples, labels, row + 1, j) == Members(samples, labels, row, j);
      } else {
        assert Members(samples, labels, row + 1, j) == Members(samples, labels, row, j) + [samples[row]];
      }
    }
  }

  /** The loop over the labelled rows: every row is added to its label's
      map, and the first row whose label is not a cluster stops the loop. */
  method Accumulate(samples: seq<seq<real>>, channels: nat, labels: seq<int>, clusters: int, stats0: seq<ClusterStats>)
    returns (stats: seq<ClusterStats>, bad: Option<nat>)
    requires Shaped(samples, channels) && |labels| == |samples|
    requires |stats0| == if clusters > 0 then clusters else 0
    requires forall j :: 0 <= j < |stats0| ==> Summarises(stats0[j], [], channels)
    ensures bad == FirstBadLabel(labels, clusters, |labels|)
    ensures |stats| == |stats0|
    ensures bad.None? ==> forall j :: 0 <= j < |stats| ==>
      Summarises(stats[j], Members(samples, labels, |labels|, j), channels)
  {
    stats := stats0;
    for row := 0 to |labels|
      invariant |stats| == |stats0|
      invariant FirstBadLabel(labels, clusters, row) == None
      invariant forall j :: 0 <= j < |stats| ==> Summarises(stats[j], Members(samples, labels, row, j), channels)
    {
      var index := labels[row];
      if !(0 <= index < |stats|) {
        FirstBadLabelStays(labels, clusters, row + 1, |labels|);
        return stats, Some(row);
      }
      var updated := AddToCluster(stats[index], samples[row], channels);
      AddRow(stats[index], Members(samples, labels, row, index), samples[row], channels, updated.secondMoment, updated.sums);
      AccumulateStep(samples, channels, labels, row, stats, updated, stats[index := updated]);
      stats := stats[index := updated];
    }
    bad := None;
  }

  /** The counts of the maps, in cluster order. */
  function CountsOf(stats: seq<ClusterStats>): (counts: seq<real>)
    ensures |counts| == |stats| && forall j :: 0 <= j < |stats| ==> counts[j] == stats[j].count
  {
    seq(|stats|, j requires 0 <= j < |stats| => stats[j].count)
  }

  /** The scan for the largest map: a later map is kept only with a strictly larger count. */
  method LargestIndex(stats: seq<ClusterStats>) returns (best: nat)
    requires |stats| > 0
    ensures best == LargestIn(CountsOf(stats), |stats|)
  {
    best := 0;
    for j := 0 to |stats|
      invariant best == LargestIn(CountsOf(stats), if j == 0 then 1 else j)
    {
      if stats[j].count > stats[best].count {
        best := j;
      }
    }
  }

  /** The map the scan keeps is that of the largest cluster: its count is zero
      exactly when the variance is undefined, and otherwise its entries give
      the variance. */
  lemma VarianceOfLargest(samples: seq<seq<real>>, channels: nat, labels: seq<int>, clusters: int,
                          stats: seq<ClusterStats>, best: nat)
    requires |labels| == |samples| && FirstBadLabel(labels, clusters, |labels|) == None
    requires |stats| == clusters && clusters > 0 && best == LargestIn(CountsOf(stats), |stats|)
    requires forall j :: 0 <= j < |stats| ==> Summarises(stats[j], Members(samples, labels, |labels|, j), channels)
    ensures |stats[best].sums| == channels
    ensures var st := stats[best];
      BackgroundVariance(samples, channels, labels, clusters) ==
        if st.count == 0.0 then Err(NotANumber)
        else Ok(st.secondMoment / st.count - SquaredMeans(st.sums, st.count, channels))
  {
    assert CountsOf(stats) == Counts(samples, labels, clusters);
    var st := stats[best];
    var rows := LargestCluster(samples, labels, clusters);
    assert rows == Members(samples, labels, |labels|, best);
    if st.count != 0.0 {
      SquaredMeansAgree(st.sums, ColumnSums(rows, channels), st.count, channels);
    }
  }

  /** The variance of the kept map: second moment over count, less each channel's squared mean. */
  method LargestVariance(largest: ClusterStats, channels: nat) returns (result: real)
    requires largest.count != 0.0 && |largest.sums| == channels
    ensures result == largest.secondMoment / largest.count - SquaredMeans(largest.sums, largest.count, channels)
  {
    result := largest.secondMoment / largest.count;
    for col := 0 to channels
      invariant result == largest.secondMoment / largest.count - SquaredMeans(largest.sums, largest.count, col)
    {
      result := result - (largest.sums[col] / largest.count) * (largest.sums[col] / largest.count);
    }
  }

  /** The clustering object: its number of clusters. */
  class Clusterizer {
    const clusters: int

    constructor(clusters: int)
      ensures this.clusters == clusters
    {
      this.clusters := clusters;
    }

    /** `getBackgroundVariance`: build a statistics map per cluster, fold every
        labelled row into its cluster's map, keep the first cluster with the
        largest count, and return its variance. */
    method GetBackgroundVariance(samples: seq<seq<real>>, channels: nat, labels: seq<int>)
      returns (r: Result<real, Failure>)
      requires Shaped(samples, channels) && |labels| == |samples|
      ensures r == BackgroundVariance(samples, channels, labels, clusters)
    {
      var stats := NewStats(clusters, channels);
      var bad;
      stats, bad := Accumulate(samples, channels, labels, clusters, stats);
      if bad.Some? {
        return Err(BadLabel(bad.value));
      }
      if |stats| == 0 {
        return Err(NoClusters);
      }
      var best := LargestIndex(stats);
      VarianceOfLargest(samples, channels, labels, clusters, stats, best);
      var largest := stats[best];
      if largest.count == 0.0 {
        return Err(NotANumber);
      }
      var result := LargestVariance(largest, channels);
      r := Ok(result);
    }

    /** `getBackgroundSegmentation`: the samples of the image, every row
        overwritten with its label's centroid, reshaped to the image. */
    method GetBackgroundSegmentation(image: Image, labels: seq<int>, centroids: seq<Triple>)
      returns (r: Result<Image, Failure>)
      requires image.Valid() && |labels| == image.rows * image.cols
      ensures r == Segmented(image, labels, centroids)
    {
      var flat := ClusteringSamples(image.px, image.cols);
      var samples := new Triple[|flat|](i requires 0 <= i < |flat| => flat[i]);
      for row := 0 to |labels|
        invariant FirstBadLabel(labels, |centroids|, row) == None
        invariant forall i :: 0 <= i < row ==> 0 <= labels[i] < |centroids| && samples[i] == centroids[labels[i]]
      {
        var index := labels[row];
        if !(0 <= index < |centroids|) {
          FirstBadLabelStays(labels, |centroids|, row + 1, |labels|);
          return Err(BadLabel(row));
        }
        samples[row] := centroids[index];
      }
      FirstBadLabelMeaning(labels, |centroids|, |labels|);
      assert samples[..] == Substituted(labels, centroids);
      r := Ok(Reshape(samples[..], image.rows, image.cols));
    }
  }
}

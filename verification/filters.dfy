/** The per-track summary reduction of `summarize_features` (src/mgd/filters.py):
    each feature matrix, laid out as (dimension, frame), is collapsed along the
    frame axis into seven per-dimension statistics. */
module Filters {
  import opened Results
  import opened RowStatistics

  /** A feature matrix: one row per feature dimension, one column per frame. */
  type Matrix = seq<Row>

  /** Seven statistics, each a vector with one entry per feature dimension. */
  datatype SummaryStatistics = SummaryStatistics(
    mean: seq<real>,
    std: seq<real>,
    skew: seq<real>,
    kurtosis: seq<real>,
    median: seq<real>,
    min: seq<real>,
    max: seq<real>)

  /** The per-frame features of one track. */
  datatype AudioFeatures = AudioFeatures(mfcc: Matrix, sf: Matrix, sc: Matrix, sr: Matrix, tonnetz: Matrix)

  /** The summary statistics of one track, field by field. */
  datatype SummarizedAudioFeatures = SummarizedAudioFeatures(
    mfcc: SummaryStatistics,
    sf: SummaryStatistics,
    sc: SummaryStatistics,
    sr: SummaryStatistics,
    tonnetz: SummaryStatistics)

  /** The floating-point numerics the reduction delegates: the square root
      taken of the variance, and the per-row sample skewness and kurtosis. */
  datatype Moments = Moments(sqrt: real -> real, skew: Row -> real, kurtosis: Row -> real)

  /** A square root that is non-negative on non-negative input and zero at zero. */
  ghost predicate NonNegativeRoot(num: Moments)
  {
    && (forall x: real :: 0.0 <= x ==> 0.0 <= num.sqrt(x))
    && num.sqrt(0.0) == 0.0
  }

  /** The error numpy raises for a minimum or maximum over an empty frame axis. */
  datatype ReductionError = ZeroSizeReduction

  /** Every row of the matrix has at least one frame. */
  predicate HasFrames(m: Matrix)
  {
    forall i :: 0 <= i < |m| ==> |m[i]| > 0
  }

  /** Every statistic holds exactly one value per row of an `n`-row matrix. */
  predicate OnePerRow(st: SummaryStatistics, n: nat)
  {
    && |st.mean| == n && |st.std| == n && |st.skew| == n && |st.kurtosis| == n
    && |st.median| == n && |st.min| == n && |st.max| == n
  }

  /** Population standard deviation (`ddof=0`) of a row. */
  function Std(num: Moments, xs: Row): (r: real)
    requires |xs| > 0
    ensures NonNegativeRoot(num) ==> 0.0 <= r
    ensures NonNegativeRoot(num) && Constant(xs) ==> r == 0.0
  {
    num.sqrt(Variance(xs))
  }

  /** `_stats` with `axis=1`: each statistic reduces every row of the matrix
      over its frames. */
  function Stats(num: Moments, m: Matrix): (r: Result<SummaryStatistics, ReductionError>)
    ensures r.Success? <==> HasFrames(m)
    ensures r.Failure? ==> r.error == ZeroSizeReduction
    ensures r.Success? ==> OnePerRow(r.value, |m|)
    ensures r.Success? ==> forall i :: 0 <= i < |m| ==>
      && r.value.min[i] in m[i]
      && r.value.max[i] in m[i]
      && (forall j :: 0 <= j < |m[i]| ==> r.value.min[i] <= m[i][j] <= r.value.max[i])
    ensures r.Success? ==> forall i :: 0 <= i < |m| ==>
      r.value.min[i] <= r.value.mean[i] <= r.value.max[i]
    ensures r.Success? ==> forall i :: 0 <= i < |m| ==>
      r.value.min[i] <= r.value.median[i] <= r.value.max[i]
    ensures r.Success? && NonNegativeRoot(num) ==> forall i :: 0 <= i < |m| ==>
      0.0 <= r.value.std[i]
  {
    if HasFrames(m) then
      Success(SummaryStatistics(
        mean := seq(|m|, i requires 0 <= i < |m| => Mean(m[i])),
        std := seq(|m|, i requires 0 <= i < |m| => Std(num, m[i])),
        skew := seq(|m|, i requires 0 <= i < |m| => num.skew(m[i])),
        kurtosis := seq(|m|, i requires 0 <= i < |m| => num.kurtosis(m[i])),
        median := seq(|m|, i requires 0 <= i < |m| => Median(m[i])),
        min := seq(|m|, i requires 0 <= i < |m| => Min(m[i])),
        max := seq(|m|, i requires 0 <= i < |m| => Max(m[i]))))
    else
      Failure(ZeroSizeReduction)
  }

  /** A matrix whose rows are each constant reduces every row to its value,
      with zero standard deviation. */
  lemma ConstantRowsStats(num: Moments, m: Matrix)
    requires NonNegativeRoot(num)
    requires HasFrames(m)
    requires forall i :: 0 <= i < |m| ==> Constant(m[i])
    ensures Stats(num, m).Success?
    ensures forall i :: 0 <= i < |m| ==>
      var st := Stats(num, m).value;
      && st.mean[i] == st.median[i] == st.min[i] == st.max[i] == m[i][0]
      && st.std[i] == 0.0
  {
  }

  /** `summarize_features`: the same reduction applied to each of the five
      fields; the track fails if any field has a row without frames. */
  function SummarizeFeatures(num: Moments, f: AudioFeatures): (r: Result<SummarizedAudioFeatures, ReductionError>)
    ensures r.Success? <==>
      HasFrames(f.mfcc) && HasFrames(f.sf) && HasFrames(f.sc) && HasFrames(f.sr) && HasFrames(f.tonnetz)
    ensures r.Failure? ==> r.error == ZeroSizeReduction
    ensures r.Success? ==>
      && OnePerRow(r.value.mfcc, |f.mfcc|)
      && OnePerRow(r.value.sf, |f.sf|)
      && OnePerRow(r.value.sc, |f.sc|)
      && OnePerRow(r.value.sr, |f.sr|)
      && OnePerRow(r.value.tonnetz, |f.tonnetz|)
  {
    var mfcc := Stats(num, f.mfcc);
    var sf := Stats(num, f.sf);
    var sc := Stats(num, f.sc);
    var sr := Stats(num, f.sr);
    var tonnetz := Stats(num, f.tonnetz);
    if mfcc.Failure? || sf.Failure? || sc.Failure? || sr.Failure? || tonnetz.Failure? then
      Failure(ZeroSizeReduction)
    else
      Success(SummarizedAudioFeatures(mfcc.value, sf.value, sc.value, sr.value, tonnetz.value))
  }

  /** Each of the five summarized fields is the reduction of its own input field. */
  lemma SummarizeAppliesStats(num: Moments, f: AudioFeatures)
    requires SummarizeFeatures(num, f).Success?
    ensures SummarizeFeatures(num, f).value.mfcc == Stats(num, f.mfcc).value
    ensures SummarizeFeatures(num, f).value.sf == Stats(num, f.sf).value
    ensures SummarizeFeatures(num, f).value.sc == Stats(num, f.sc).value
    ensures SummarizeFeatures(num, f).value.sr == Stats(num, f.sr).value
    ensures SummarizeFeatures(num, f).value.tonnetz == Stats(num, f.tonnetz).value
  {
  }

  /** Each summarized field depends only on its own input field, and every
      field is reduced the same way: two tracks that share a matrix, in the
      same field or in different fields, get the same statistics for it. */
  lemma SummarizeIsFieldwise(num: Moments, f: AudioFeatures, g: AudioFeatures)
    requires SummarizeFeatures(num, f).Success? && SummarizeFeatures(num, g).Success?
    ensures f.mfcc == g.mfcc ==> SummarizeFeatures(num, f).value.mfcc == SummarizeFeatures(num, g).value.mfcc
    ensures f.mfcc == g.sf ==> SummarizeFeatures(num, f).value.mfcc == SummarizeFeatures(num, g).value.sf
    ensures f.mfcc == g.sc ==> SummarizeFeatures(num, f).value.mfcc == SummarizeFeatures(num, g).value.sc
    ensures f.mfcc == g.sr ==> SummarizeFeatures(num, f).value.mfcc == SummarizeFeatures(num, g).value.sr
    ensures f.mfcc == g.tonnetz ==> SummarizeFeatures(num, f).value.mfcc == SummarizeFeatures(num, g).value.tonnetz
    ensures f.sf == g.mfcc ==> SummarizeFeatures(num, f).value.sf == SummarizeFeatures(num, g).value.mfcc
    ensures f.sf == g.sf ==> SummarizeFeatures(num, f).value.sf == SummarizeFeatures(num, g).value.sf
    ensures f.sf == g.sc ==> SummarizeFeatures(num, f).value.sf == SummarizeFeatures(num, g).value.sc
    ensures f.sf == g.sr ==> SummarizeFeatures(num, f).value.sf == SummarizeFeatures(num, g).value.sr
    ensures f.sf == g.tonnetz ==> SummarizeFeatures(num, f).value.sf == SummarizeFeatures(num, g).value.tonnetz
    ensures f.sc == g.mfcc ==> SummarizeFeatures(num, f).value.sc == SummarizeFeatures(num, g).value.mfcc
    ensures f.sc == g.sf ==> SummarizeFeatures(num, f).value.sc == SummarizeFeatures(num, g).value.sf
    ensures f.sc == g.sc ==> SummarizeFeatures(num, f).value.sc == SummarizeFeatures(num, g).value.sc
    ensures f.sc == g.sr ==> SummarizeFeatures(num, f).value.sc == SummarizeFeatures(num, g).value.sr
    ensures f.sc == g.tonnetz ==> SummarizeFeatures(num, f).value.sc == SummarizeFeatures(num, g).value.tonnetz
    ensures f.sr == g.mfcc ==> SummarizeFeatures(num, f).value.sr == SummarizeFeatures(num, g).value.mfcc
    ensures f.sr == g.sf ==> SummarizeFeatures(num, f).value.sr == SummarizeFeatures(num, g).value.sf
    ensures f.sr == g.sc ==> SummarizeFeatures(num, f).value.sr == SummarizeFeatures(num, g).value.sc
    ensures f.sr == g.sr ==> SummarizeFeatures(num, f).value.sr == SummarizeFeatures(num, g).value.sr
    ensures f.sr == g.tonnetz ==> SummarizeFeatures(num, f).value.sr == SummarizeFeatures(num, g).value.tonnetz
    ensures f.tonnetz == g.mfcc ==> SummarizeFeatures(num, f).value.tonnetz == SummarizeFeatures(num, g).value.mfcc
    ensures f.tonnetz == g.sf ==> SummarizeFeatures(num, f).value.tonnetz == SummarizeFeatures(num, g).value.sf
    ensures f.tonnetz == g.sc ==> SummarizeFeatures(num, f).value.tonnetz == SummarizeFeatures(num, g).value.sc
    ensures f.tonnetz == g.sr ==> SummarizeFeatures(num, f).value.tonnetz == SummarizeFeatures(num, g).value.sr
    ensures f.tonnetz == g.tonnetz ==> SummarizeFeatures(num, f).value.tonnetz == SummarizeFeatures(num, g).value.tonnetz
  {
    SummarizeAppliesStats(num, f);
    SummarizeAppliesStats(num, g);
  }
}

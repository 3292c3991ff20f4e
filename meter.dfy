/**
 * The audio level the tick publishes: the mean of the analyser's byte
 * frequency bins, scaled to a percentage and capped at 100
 * (`Math.min(100, (average / 255) * 100)`), computed here on exact reals.
 */
module Meter {

  /** One frequency bin as getByteFrequencyData writes it into a Uint8Array. */
  type Byte = x: int | 0 <= x < 256

  /** `dataArray.reduce((a, b) => a + b)`, folded from the left: at most 255 per bin. */
  function Sum(bins: seq<Byte>): (s: nat)
    ensures s <= 255 * |bins|
  {
    if bins == [] then 0 else Sum(bins[..|bins| - 1]) + bins[|bins| - 1]
  }

  /** The level shown by the meter for one snapshot of the bins. */
  function Level(bins: seq<Byte>): (level: real)
    requires |bins| > 0
    ensures 0.0 <= level <= 100.0
  {
    var average := Sum(bins) as real / |bins| as real;
    var scaled := average / 255.0 * 100.0;
    if scaled < 100.0 then scaled else 100.0
  }

  lemma {:induction false} SumZero(bins: seq<Byte>)
    ensures Sum(bins) == 0 <==> forall i :: 0 <= i < |bins| ==> bins[i] == 0
    decreases |bins|
  {
    if bins != [] {
      var init := bins[..|bins| - 1];
      SumZero(init);
      assert forall i :: 0 <= i < |init| ==> init[i] == bins[i];
    }
  }

  lemma {:induction false} SumFull(bins: seq<Byte>)
    ensures Sum(bins) == 255 * |bins| <==> forall i :: 0 <= i < |bins| ==> bins[i] == 255
    decreases |bins|
  {
    if bins != [] {
      var init := bins[..|bins| - 1];
      SumFull(init);
      assert forall i :: 0 <= i < |init| ==> init[i] == bins[i];
    }
  }

  /** Byte bins never average above 255, so the cap at 100 never changes the scaled mean. */
  lemma LevelIsScaledMean(bins: seq<Byte>)
    requires |bins| > 0
    ensures Level(bins) == Sum(bins) as real / |bins| as real / 255.0 * 100.0
  {
    ScaledMeanFacts(Sum(bins) as real, |bins| as real);
  }

  /** The meter reads 0 exactly on silence and 100 exactly when every bin is saturated. */
  lemma LevelExtremes(bins: seq<Byte>)
    requires |bins| > 0
    ensures Level(bins) == 0.0 <==> forall i :: 0 <= i < |bins| ==> bins[i] == 0
    ensures Level(bins) == 100.0 <==> forall i :: 0 <= i < |bins| ==> bins[i] == 255
  {
    LevelIsScaledMean(bins);
    SumZero(bins);
    SumFull(bins);
    ScaledMeanFacts(Sum(bins) as real, |bins| as real);
  }

  /** The real arithmetic behind the meter, for a sum s of n bins. */
  lemma ScaledMeanFacts(s: real, n: real)
    requires n > 0.0 && 0.0 <= s <= 255.0 * n
    ensures s / n / 255.0 * 100.0 <= 100.0
    ensures s / n / 255.0 * 100.0 == 0.0 <==> s == 0.0
    ensures s / n / 255.0 * 100.0 == 100.0 <==> s == 255.0 * n
  {
    var q := s / n;
    assert q * n == s;
    assert q <= 255.0;
  }
}

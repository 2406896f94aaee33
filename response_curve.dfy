/** The filter chain as the display sees it, and the response curve that paint draws from it:
    per column the product of the magnitudes of the stages that are not bypassed, in decibels,
    mapped linearly from the +-24 dB gain range onto the analysis area's pixel rows. */
module ResponseCurve {
  import opened PathProducing

  /** The five coefficients of one second-order section. */
  datatype Coefficients = Coefficients(b0: real, b1: real, b2: real, a1: real, a2: real)

  datatype FilterStage = FilterStage(coefficients: Coefficients, bypassed: bool)

  /** A cut filter: always four stages; its slope decides how many are bypassed. */
  datatype CutFilter = CutFilter(s0: FilterStage, s1: FilterStage, s2: FilterStage, s3: FilterStage)

  datatype MonoChain = MonoChain(loCut: CutFilter, peak: FilterStage, hiCut: CutFilter)

  /** Floating-point numerics outside the model: a stage's magnitude at a frequency and sample
      rate, gain to decibels, and the logarithmic map of a proportion onto a frequency range. */
  datatype Numerics = Numerics(
    magnitudeForFrequency: (Coefficients, real, real) -> real,
    gainToDecibels: real -> real,
    mapToLog10: (real, real, real) -> real)

  /** Bottom and top of the gain range the display shows, in dB. */
  const MinDb: real := -24.0
  const MaxDb: real := 24.0

  function CutStages(c: CutFilter): seq<FilterStage>
  {
    [c.s0, c.s1, c.s2, c.s3]
  }

  /** The nine stages in the order paint multiplies them: peak, low cut 0-3, high cut 0-3. */
  function Stages(chain: MonoChain): (r: seq<FilterStage>)
    ensures |r| == 9
  {
    [chain.peak] + CutStages(chain.loCut) + CutStages(chain.hiCut)
  }

  /** What one stage contributes to the running product: its magnitude, or 1 when bypassed. */
  function StageFactor(st: FilterStage, freq: real, sampleRate: real, num: Numerics): real
  {
    if st.bypassed then 1.0 else num.magnitudeForFrequency(st.coefficients, freq, sampleRate)
  }

  /** The running product after the given stages, multiplied in order starting from 1. */
  function Cascade(stages: seq<FilterStage>, freq: real, sampleRate: real, num: Numerics): (mag: real)
    ensures (forall k :: 0 <= k < |stages| ==> stages[k].bypassed) ==> mag == 1.0
    decreases |stages|
  {
    if stages == [] then 1.0
    else Cascade(stages[..|stages| - 1], freq, sampleRate, num) * StageFactor(stages[|stages| - 1], freq, sampleRate, num)
  }

  /** The magnitudes of exactly the stages that are not bypassed, in order. */
  function ActiveMagnitudes(stages: seq<FilterStage>, freq: real, sampleRate: real, num: Numerics): (r: seq<real>)
    ensures |r| <= |stages|
  {
    if stages == [] then []
    else
      var rest := ActiveMagnitudes(stages[1..], freq, sampleRate, num);
      if stages[0].bypassed then rest
      else [num.magnitudeForFrequency(stages[0].coefficients, freq, sampleRate)] + rest
  }

  function Product(xs: seq<real>): real
  {
    if xs == [] then 1.0 else xs[0] * Product(xs[1..])
  }

  lemma {:induction false} ProductSnoc(xs: seq<real>, x: real)
    ensures Product(xs + [x]) == Product(xs) * x
  {
    if xs != [] {
      assert (xs + [x])[1..] == xs[1..] + [x];
      ProductSnoc(xs[1..], x);
    }
  }

  lemma {:induction false} ActiveSnoc(stages: seq<FilterStage>, st: FilterStage, freq: real, sampleRate: real, num: Numerics)
    ensures ActiveMagnitudes(stages + [st], freq, sampleRate, num)
         == ActiveMagnitudes(stages, freq, sampleRate, num)
          + (if st.bypassed then [] else [num.magnitudeForFrequency(st.coefficients, freq, sampleRate)])
  {
    if stages != [] {
      assert (stages + [st])[1..] == stages[1..] + [st];
      ActiveSnoc(stages[1..], st, freq, sampleRate, num);
    }
  }

  /** The running product is the product of the magnitudes of exactly the stages that are
      not bypassed. */
  lemma {:induction false} CascadeIsProductOfActive(stages: seq<FilterStage>, freq: real, sampleRate: real, num: Numerics)
    ensures Cascade(stages, freq, sampleRate, num) == Product(ActiveMagnitudes(stages, freq, sampleRate, num))
    decreases |stages|
  {
    if stages != [] {
      var init, st := stages[..|stages| - 1], stages[|stages| - 1];
      assert stages == init + [st];
      CascadeIsProductOfActive(init, freq, sampleRate, num);
      ActiveSnoc(init, st, freq, sampleRate, num);
      if !st.bypassed {
        ProductSnoc(ActiveMagnitudes(init, freq, sampleRate, num), num.magnitudeForFrequency(st.coefficients, freq, sampleRate));
      } else {
        assert Cascade(stages, freq, sampleRate, num) == Cascade(init, freq, sampleRate, num) * 1.0;
        assert ActiveMagnitudes(init, freq, sampleRate, num) + [] == ActiveMagnitudes(init, freq, sampleRate, num);
      }
    }
  }

  /** A bypassed stage does not affect the product: its coefficients are irrelevant. */
  lemma {:induction false} BypassedCoefficientsIrrelevant(stages: seq<FilterStage>, k: nat, c: Coefficients,
                                                          freq: real, sampleRate: real, num: Numerics)
    requires k < |stages| && stages[k].bypassed
    ensures Cascade(stages[k := FilterStage(c, true)], freq, sampleRate, num) == Cascade(stages, freq, sampleRate, num)
    decreases |stages|
  {
    var n := |stages|;
    var other := stages[k := FilterStage(c, true)];
    if k == n - 1 {
      assert other[..n - 1] == stages[..n - 1];
    } else {
      assert other[..n - 1] == stages[..n - 1][k := FilterStage(c, true)];
      BypassedCoefficientsIrrelevant(stages[..n - 1], k, c, freq, sampleRate, num);
    }
  }

  /** The frequency paint evaluates at column i of w: 20 Hz to 20 kHz on a log scale. */
  function ColumnFrequency(i: nat, w: nat, num: Numerics): (freq: real)
    requires w > 0
    ensures i == 0 ==> freq == num.mapToLog10(0.0, 20.0, 20000.0)
  {
    num.mapToLog10(i as real / w as real, 20.0, 20000.0)
  }

  /** When the log map rises with its proportion, as a map from 20 Hz to 20 kHz does, columns
      further right are evaluated at strictly higher frequencies. */
  lemma ColumnFrequencyIncreasing(i: nat, j: nat, w: nat, num: Numerics)
    requires i < j < w
    requires forall p, q :: 0.0 <= p < q < 1.0 ==> num.mapToLog10(p, 20.0, 20000.0) < num.mapToLog10(q, 20.0, 20000.0)
    ensures ColumnFrequency(i, w, num) < ColumnFrequency(j, w, num)
  {
    var d := w as real;
    DivideStrictlyMonotone(i as real, j as real, d);
    DivideStrictlyMonotone(j as real, d, d);
    assert d / d == 1.0;
  }

  /** Dividing by a positive number keeps a strict order. */
  lemma DivideStrictlyMonotone(x: real, y: real, d: real)
    requires x < y && d > 0.0
    ensures x / d < y / d
  {
    var u, v := x / d, y / d;
    assert (v - u) * d == y - x;
  }

  /** Linear map of a value from one range onto another. */
  function JMap(v: real, sourceMin: real, sourceMax: real, targetMin: real, targetMax: real): real
    requires sourceMin != sourceMax
  {
    targetMin + (targetMax - targetMin) * (v - sourceMin) / (sourceMax - sourceMin)
  }

  /** The pixel row of a decibel value: -24 dB at the bottom row, +24 dB at the top. */
  function DbToY(db: real, bottom: real, top: real): (y: real)
    ensures db == MinDb ==> y == bottom
    ensures db == MaxDb ==> y == top
    ensures db == 0.0 ==> y == (bottom + top) / 2.0
  {
    JMap(db, MinDb, MaxDb, bottom, top)
  }

  /** The inverse map, from a pixel row back to decibels. */
  function YToDb(y: real, bottom: real, top: real): real
    requires bottom != top
  {
    JMap(y, bottom, top, MinDb, MaxDb)
  }

  /** Mapping to pixels and back returns the same decibel value. */
  lemma DbToYRoundTrip(db: real, bottom: real, top: real)
    requires bottom != top
    ensures YToDb(DbToY(db, bottom, top), bottom, top) == db
  {
  }

  /** On screen, where the top row is above the bottom row, more gain is drawn higher. */
  lemma DbToYMonotone(db1: real, db2: real, bottom: real, top: real)
    requires top < bottom && db1 < db2
    ensures DbToY(db2, bottom, top) < DbToY(db1, bottom, top)
  {
    var d := DbToY(db1, bottom, top) - DbToY(db2, bottom, top);
    assert d == (bottom - top) * (db2 - db1) / 48.0;
    var span, rise := bottom - top, db2 - db1;
    assert span * rise > 0.0 by {
      assert span * rise == span * (rise - 0.0) && span * rise > span * 0.0;
    }
    assert d == (span * rise) / 48.0;
  }

  /** The gain grid lines are drawn at -24, -12, 0, 12 and 24 dB. */
  const GainGrid: seq<real> := [-24.0, -12.0, 0.0, 12.0, 24.0]

  /** Rows of the gain grid lines, through the same map as the curve. */
  function GainGridRows(bottom: real, top: real): (rows: seq<real>)
    ensures |rows| == |GainGrid|
    ensures rows[0] == bottom && rows[4] == top && rows[2] == (bottom + top) / 2.0
    ensures forall k :: 0 <= k < 4 ==> rows[k + 1] - rows[k] == (top - bottom) / 4.0
  {
    seq(|GainGrid|, k requires 0 <= k < |GainGrid| => DbToY(GainGrid[k], bottom, top))
  }

  /** The decibel value paint computes for one column. */
  function ColumnDb(chain: MonoChain, i: nat, w: nat, sampleRate: real, num: Numerics): (db: real)
    requires w > 0
    ensures db == num.gainToDecibels(Product(ActiveMagnitudes(Stages(chain), ColumnFrequency(i, w, num), sampleRate, num)))
  {
    CascadeIsProductOfActive(Stages(chain), ColumnFrequency(i, w, num), sampleRate, num);
    num.gainToDecibels(Cascade(Stages(chain), ColumnFrequency(i, w, num), sampleRate, num))
  }

  /** The magnitude loop of paint: for each of the w columns, multiply together the
      magnitudes of the stages that are not bypassed, in order, and convert to decibels. */
  method ResponseMagnitudes(chain: MonoChain, w: nat, sampleRate: real, num: Numerics) returns (mags: seq<real>)
    requires w > 0
    ensures |mags| == w
    ensures forall i :: 0 <= i < w ==>
      mags[i] == num.gainToDecibels(Product(ActiveMagnitudes(Stages(chain), ColumnFrequency(i, w, num), sampleRate, num)))
  {
    var stages := Stages(chain);
    var out := new real[w];
    for i := 0 to w
      invariant forall j :: 0 <= j < i ==> out[j] == ColumnDb(chain, j, w, sampleRate, num)
    {
      var mag := 1.0;
      var freq := num.mapToLog10(i as real / w as real, 20.0, 20000.0);
      for k := 0 to |stages|
        invariant mag == Cascade(stages[..k], freq, sampleRate, num)
      {
        assert stages[..k + 1][..k] == stages[..k];
        if !stages[k].bypassed {
          mag := mag * num.magnitudeForFrequency(stages[k].coefficients, freq, sampleRate);
        }
      }
      assert stages[..|stages|] == stages;
      out[i] := num.gainToDecibels(mag);
    }
    mags := out[..];
  }

  /** The curve paint strokes: one point per column, the i-th at x = area.x + i, its row
      the column's decibel value through the gain map. */
  method CurvePoints(area: Area, mags: seq<real>) returns (curve: seq<Point>)
    requires |mags| > 0
    ensures |curve| == |mags|
    ensures forall i :: 0 <= i < |mags| ==> curve[i].x == (area.x + i) as real
    ensures area.height != 0 ==> forall i :: 0 <= i < |mags| ==>
      YToDb(curve[i].y, (area.y + area.height) as real, area.y as real) == mags[i]
    ensures forall i :: 0 <= i < |mags| ==>
      curve[i] == Point((area.x + i) as real, DbToY(mags[i], (area.y + area.height) as real, area.y as real))
  {
    var outputMin := (area.y + area.height) as real;
    var outputMax := area.y as real;
    curve := [Point(area.x as real, DbToY(mags[0], outputMin, outputMax))];
    var i := 1;
    while i < |mags|
      invariant 1 <= i <= |mags| && |curve| == i
      invariant forall j :: 0 <= j < i ==> curve[j] == Point((area.x + j) as real, DbToY(mags[j], outputMin, outputMax))
    {
      curve := curve + [Point((area.x + i) as real, DbToY(mags[i], outputMin, outputMax))];
      i := i + 1;
    }
    forall i | 0 <= i < |mags| && area.height != 0
      ensures YToDb(curve[i].y, outputMin, outputMax) == mags[i]
    {
      DbToYRoundTrip(mags[i], outputMin, outputMax);
    }
  }

  /** With every stage bypassed and unity gain shown as 0 dB, the whole curve lies on the
      middle row of the area. */
  lemma FlatChainDrawsMidline(chain: MonoChain, area: Area, i: nat, sampleRate: real, num: Numerics)
    requires area.width > 0 && i < area.width
    requires forall k :: 0 <= k < 9 ==> Stages(chain)[k].bypassed
    requires num.gainToDecibels(1.0) == 0.0
    ensures DbToY(ColumnDb(chain, i, area.width, sampleRate, num), (area.y + area.height) as real, area.y as real)
         == (area.y as real + area.height as real / 2.0)
  {
  }
}

/** The one-pole filter arithmetic of the Filter unit, as pure definitions:
    the smoothing coefficient, the per-sample update of each of the three
    stages, and a stage run over a whole buffer. The three history scalars are
    shared by every channel and every stage, so one run carries them from each
    sample to the next. */
module OnePole {

  /** 2·π, as a decimal. */
  const TwoPi: real := 6.283185307179586

  /** The band-pass stage places its two corners at |cutoff − BandOffset| and
      |cutoff + BandOffset| hertz. */
  const BandOffset: real := 5.0

  type SampleRate = r: real | r > 0.0 witness 48000.0

  function Abs(x: real): (r: real)
    ensures r >= 0.0 && (r == x || r == -x)
  {
    if x < 0.0 then -x else x
  }

  /** The smoothing coefficient for a cutoff in hertz: the sign of the cutoff is
      ignored, it is clamped to the Nyquist frequency, and ω = 2π·f/rate is
      mapped to ω/(ω+1). */
  function CalculateAlpha(cutoff: real, sampleRate: SampleRate): (alpha: real)
    ensures 0.0 <= alpha < 1.0
    ensures alpha == 0.0 <==> cutoff == 0.0
  {
    var omega := Omega(cutoff, sampleRate);
    assert omega >= 0.0 && (omega == 0.0 <==> cutoff == 0.0) by {
      PositiveQuotient(TwoPi * Clamped(cutoff, sampleRate), sampleRate);
    }
    Ratio(omega)
  }

  /** The cutoff's magnitude, clamped to the Nyquist frequency. */
  function Clamped(cutoff: real, sampleRate: SampleRate): real {
    var f := Abs(cutoff);
    if f > sampleRate / 2.0 then sampleRate / 2.0 else f
  }

  /** The clamped cutoff in radians per sample. */
  function Omega(cutoff: real, sampleRate: SampleRate): real {
    TwoPi * Clamped(cutoff, sampleRate) / sampleRate
  }

  /** ω ↦ ω/(ω+1). */
  function Ratio(omega: real): real
    requires omega >= 0.0
  {
    omega / (omega + 1.0)
  }

  lemma PositiveQuotient(x: real, y: real)
    requires x >= 0.0 && y > 0.0
    ensures x / y >= 0.0 && (x / y == 0.0 <==> x == 0.0)
  {
  }

  /** Only the magnitude of the cutoff matters. */
  lemma AlphaIgnoresSign(cutoff: real, sampleRate: SampleRate)
    ensures CalculateAlpha(cutoff, sampleRate) == CalculateAlpha(-cutoff, sampleRate)
  {
    assert Clamped(cutoff, sampleRate) == Clamped(-cutoff, sampleRate);
    assert Omega(cutoff, sampleRate) == Omega(-cutoff, sampleRate);
  }

  /** Every cutoff at or beyond the Nyquist frequency gives the same coefficient. */
  lemma AlphaClampedAtNyquist(cutoff: real, sampleRate: SampleRate)
    requires Abs(cutoff) >= sampleRate / 2.0
    ensures CalculateAlpha(cutoff, sampleRate) == CalculateAlpha(sampleRate / 2.0, sampleRate)
  {
    assert Clamped(cutoff, sampleRate) == Clamped(sampleRate / 2.0, sampleRate);
    assert Omega(cutoff, sampleRate) == Omega(sampleRate / 2.0, sampleRate);
  }

  /** A larger cutoff magnitude never gives a smaller coefficient. */
  lemma AlphaMonotone(c1: real, c2: real, sampleRate: SampleRate)
    requires Abs(c1) <= Abs(c2)
    ensures CalculateAlpha(c1, sampleRate) <= CalculateAlpha(c2, sampleRate)
  {
    OmegaMonotone(c1, c2, sampleRate);
    RatioMonotone(Omega(c1, sampleRate), Omega(c2, sampleRate));
  }

  lemma OmegaMonotone(c1: real, c2: real, sampleRate: SampleRate)
    requires Abs(c1) <= Abs(c2)
    ensures 0.0 <= Omega(c1, sampleRate) <= Omega(c2, sampleRate)
  {
    ScaledQuotientMonotone(TwoPi, sampleRate, Clamped(c1, sampleRate), Clamped(c2, sampleRate));
  }

  /** a·f/b grows with f, for a non-negative factor and a positive divisor. */
  lemma ScaledQuotientMonotone(a: real, b: real, f1: real, f2: real)
    requires a >= 0.0 && b > 0.0 && 0.0 <= f1 <= f2
    ensures 0.0 <= a * f1 / b <= a * f2 / b
  {
    assert 0.0 <= a * f1 <= a * f2 by {
      assert a * f2 - a * f1 == a * (f2 - f1);
    }
    PositiveQuotient(a * f1, b);
    PositiveQuotient(a * f2 - a * f1, b);
    assert a * f2 / b - a * f1 / b == (a * f2 - a * f1) / b;
  }

  /** ω ↦ ω/(ω+1) is increasing on the non-negative reals. */
  lemma RatioMonotone(o1: real, o2: real)
    requires 0.0 <= o1 <= o2
    ensures Ratio(o1) <= Ratio(o2)
  {
    assert o1 / (o1 + 1.0) == 1.0 - 1.0 / (o1 + 1.0);
    assert o2 / (o2 + 1.0) == 1.0 - 1.0 / (o2 + 1.0);
    assert 1.0 / (o2 + 1.0) <= 1.0 / (o1 + 1.0);
  }

  /** The one-pole low-pass update: the new output leans towards the input by
      `alpha` and towards the previous output by `1 - alpha`. */
  function Smooth(alpha: real, x: real, prevOut: real): real {
    alpha * x + (1.0 - alpha) * prevOut
  }

  /** The one-pole high-pass update: the previous output plus the change of the
      input since the previous sample, scaled by `alpha`. */
  function Differentiate(alpha: real, prevOut: real, x: real, prevIn: real): real {
    alpha * (prevOut + x - prevIn)
  }

  /** The history shared by all channels and stages: the previous low-pass
      output, the previous high-pass output and the previous input sample. */
  datatype Carry = Carry(low: real, high: real, input: real)

  /** A stage with its coefficients. */
  datatype Stage =
    | LowPass(alpha: real)
    | BandPass(alphaLow: real, alphaHigh: real)
    | HighPass(alpha: real)

  /** What one sample turns into, and the history after it. */
  datatype Sample = Sample(out: real, carry: Carry)

  /** `y` lies between `a` and `b`, whichever order they come in. */
  predicate Between(a: real, b: real, y: real) {
    (a <= y <= b) || (b <= y <= a)
  }

  /** With a coefficient in [0, 1] the low-pass output never leaves the
      interval between the input and the previous output. */
  lemma SmoothBetween(alpha: real, x: real, prevOut: real)
    requires 0.0 <= alpha <= 1.0
    ensures Between(x, prevOut, Smooth(alpha, x, prevOut))
  {
    var d := x - prevOut;
    assert Smooth(alpha, x, prevOut) == prevOut + alpha * d;
    if d >= 0.0 {
      assert 0.0 <= alpha * d <= d;
    } else {
      assert d <= alpha * d <= 0.0;
    }
  }

  /** One sample through one stage. The low-pass stage moves only its own
      history, to its output; the band-pass stage outputs its new low-pass
      history minus its new high-pass history and records the raw input; the
      high-pass stage records its output both as previous output and as
      previous input. */
  function StepOf(s: Stage, c: Carry, x: real): (r: Sample)
    ensures s.LowPass? ==> r.carry == c.(low := r.out)
    ensures s.LowPass? && 0.0 <= s.alpha <= 1.0 ==> Between(x, c.low, r.out)
    ensures s.BandPass? ==> r.out == r.carry.low - r.carry.high && r.carry.input == x
    ensures s.HighPass? ==> r.carry == c.(high := r.out, input := r.out)
  {
    match s
    case LowPass(a) =>
      var y := Smooth(a, x, c.low);
      assert 0.0 <= a <= 1.0 ==> Between(x, c.low, y) by {
        if 0.0 <= a <= 1.0 {
          SmoothBetween(a, x, c.low);
        }
      }
      Sample(y, Carry(y, c.high, c.input))
    case BandPass(aLow, aHigh) =>
      var lowPass := Smooth(aLow, x, c.low);
      var highPass := Differentiate(aHigh, c.high, x, c.input);
      Sample(lowPass - highPass, Carry(lowPass, highPass, x))
    case HighPass(a) =>
      var y := Differentiate(a, c.high, x, c.input);
      Sample(y, Carry(c.low, y, y))
  }

  /** A buffer after one stage, and the history after its last channel. */
  datatype Run = Run(out: seq<real>, carry: Carry)

  /** One stage over a whole buffer, channel by channel in index order, each
      channel starting from the history the previous one left. */
  function Scan(s: Stage, c: Carry, xs: seq<real>): (r: Run)
    ensures |r.out| == |xs|
    decreases |xs|
  {
    if xs == [] then Run([], c)
    else
      var before := Scan(s, c, xs[..|xs| - 1]);
      var step := StepOf(s, before.carry, xs[|xs| - 1]);
      Run(before.out + [step.out], step.carry)
  }

  /** The last element of `ys`, or `initial` if there is none. */
  function LastOr(initial: real, ys: seq<real>): real {
    if ys == [] then initial else ys[|ys| - 1]
  }

  /** Running a stage over one more channel appends that channel's step. */
  lemma ScanSnoc(s: Stage, c: Carry, xs: seq<real>, x: real)
    ensures var r := Scan(s, c, xs);
      var step := StepOf(s, r.carry, x);
      Scan(s, c, xs + [x]) == Run(r.out + [step.out], step.carry)
  {
    assert (xs + [x])[..|xs|] == xs;
  }

  /** Rewriting channel `i` of a buffer whose first `i` channels are already
      done gives a buffer whose first `i + 1` channels are done. */
  lemma ScanInPlace(s: Stage, c: Carry, xs: seq<real>, i: nat, v: seq<real>)
    requires i < |xs| && v == Scan(s, c, xs[..i]).out + xs[i..]
    ensures var step := StepOf(s, Scan(s, c, xs[..i]).carry, xs[i]);
      && v[i] == xs[i]
      && v[i := step.out] == Scan(s, c, xs[..i + 1]).out + xs[i + 1..]
      && Scan(s, c, xs[..i + 1]).carry == step.carry
  {
    var done := Scan(s, c, xs[..i]);
    var step := StepOf(s, done.carry, xs[i]);
    assert xs[..i + 1] == xs[..i] + [xs[i]];
    ScanSnoc(s, c, xs[..i], xs[i]);
    assert Scan(s, c, xs[..i + 1]) == Run(done.out + [step.out], step.carry);
    ReplaceAfter(done.out, xs[i..], step.out);
    assert xs[i..][1..] == xs[i + 1..];
  }

  /** Overwriting the first element after a prefix. */
  lemma ReplaceAfter(prefix: seq<real>, rest: seq<real>, y: real)
    requires rest != []
    ensures (prefix + rest)[|prefix|] == rest[0]
    ensures (prefix + rest)[|prefix| := y] == prefix + [y] + rest[1..]
  {
  }

  /** A buffer rewritten in place up to channel `i`: the first `i` channels
      hold the stage's output, the rest are untouched, and `h` is the history
      after channel `i - 1`. */
  ghost predicate InPlace(s: Stage, c: Carry, xs: seq<real>, i: nat, v: seq<real>, h: Carry) {
    i <= |xs| && v == Scan(s, c, xs[..i]).out + xs[i..] && h == Scan(s, c, xs[..i]).carry
  }

  /** Rewriting channel `i` in place advances the run by one channel. */
  lemma Advance(s: Stage, c: Carry, xs: seq<real>, i: nat, v: seq<real>, h: Carry)
    requires InPlace(s, c, xs, i, v, h) && i < |xs|
    ensures |v| == |xs| && v[i] == xs[i]
    ensures InPlace(s, c, xs, i + 1, v[i := StepOf(s, h, v[i]).out], StepOf(s, h, v[i]).carry)
  {
    ScanInPlace(s, c, xs, i, v);
  }

  /** A buffer rewritten in place up to its end holds the stage's run. */
  lemma Finished(s: Stage, c: Carry, xs: seq<real>, v: seq<real>, h: Carry)
    requires InPlace(s, c, xs, |xs|, v, h)
    ensures Run(v, h) == Scan(s, c, xs)
  {
    assert xs[..|xs|] == xs && xs[|xs|..] == [];
  }

  /** Channel `i` of a run depends only on the channels up to `i`. */
  lemma {:induction false} ScanPrefix(s: Stage, c: Carry, xs: seq<real>, i: nat)
    requires i <= |xs|
    ensures Scan(s, c, xs[..i]).out == Scan(s, c, xs).out[..i]
    decreases |xs|
  {
    if i < |xs| {
      assert xs[..|xs| - 1][..i] == xs[..i];
      ScanPrefix(s, c, xs[..|xs| - 1], i);
    } else {
      assert xs[..i] == xs;
    }
  }

  /** The low-pass stage leaves the high-pass history alone and ends with its
      low-pass history equal to its last output. */
  lemma {:induction false} LowPassCarry(alpha: real, c: Carry, xs: seq<real>)
    ensures Scan(LowPass(alpha), c, xs).carry
         == c.(low := LastOr(c.low, Scan(LowPass(alpha), c, xs).out))
    decreases |xs|
  {
    if xs != [] {
      LowPassCarry(alpha, c, xs[..|xs| - 1]);
    }
  }

  /** With a zero coefficient the low-pass stage ignores its input: every
      channel becomes the previous low-pass output, and the history stays. */
  lemma {:induction false} LowPassHoldsAtZeroAlpha(c: Carry, xs: seq<real>)
    ensures forall i :: 0 <= i < |xs| ==> Scan(LowPass(0.0), c, xs).out[i] == c.low
    ensures Scan(LowPass(0.0), c, xs).carry == c
    decreases |xs|
  {
    if xs != [] {
      var before, x := xs[..|xs| - 1], xs[|xs| - 1];
      assert xs == before + [x];
      LowPassHoldsAtZeroAlpha(c, before);
      ScanSnoc(LowPass(0.0), c, before, x);
      assert Smooth(0.0, x, c.low) == c.low;
    }
  }

  /** The high-pass stage leaves the low-pass history alone; after a non-empty
      buffer both its output history and its input history are its last output. */
  lemma {:induction false} HighPassCarry(alpha: real, c: Carry, xs: seq<real>)
    ensures Scan(HighPass(alpha), c, xs).carry.low == c.low
    ensures xs != [] ==>
      var r := Scan(HighPass(alpha), c, xs);
      r.carry.high == r.carry.input == r.out[|xs| - 1]
    decreases |xs|
  {
    if xs != [] {
      HighPassCarry(alpha, c, xs[..|xs| - 1]);
    }
  }

  function Scale(alpha: real, x: real): real {
    alpha * x
  }

  /** Every channel scaled by `alpha`. */
  function Gain(alpha: real, xs: seq<real>): (ys: seq<real>)
    ensures |ys| == |xs|
  {
    seq(|xs|, i requires 0 <= i < |xs| => Scale(alpha, xs[i]))
  }

  lemma GainAppend(alpha: real, xs: seq<real>, ys: seq<real>)
    ensures Gain(alpha, xs + ys) == Gain(alpha, xs) + Gain(alpha, ys)
  {
    var l, r := Gain(alpha, xs + ys), Gain(alpha, xs) + Gain(alpha, ys);
    forall i | 0 <= i < |l| ensures l[i] == r[i] {
      if i < |xs| {
        assert (xs + ys)[i] == xs[i];
      } else {
        assert (xs + ys)[i] == ys[i - |xs|];
      }
    }
  }

  lemma DifferentiateOwnOutput(alpha: real, y: real, x: real)
    ensures Differentiate(alpha, y, x, y) == Scale(alpha, x)
  {
  }

  /** After at least one channel, the high-pass history holds equal previous
      output and input, so the next channel is its input scaled by `alpha`. */
  lemma HighPassSettled(alpha: real, c: Carry, before: seq<real>, x: real)
    requires before != []
    ensures StepOf(HighPass(alpha), Scan(HighPass(alpha), c, before).carry, x).out == Scale(alpha, x)
  {
    var r0 := Scan(HighPass(alpha), c, before);
    HighPassCarry(alpha, c, before);
    DifferentiateOwnOutput(alpha, r0.carry.high, x);
  }

  /** A single channel is differentiated against the incoming history. */
  lemma HighPassFirst(alpha: real, c: Carry, x: real)
    ensures Scan(HighPass(alpha), c, [x]).out == [Differentiate(alpha, c.high, x, c.input)] + Gain(alpha, [x][1..])
  {
    ScanSnoc(HighPass(alpha), c, [], x);
    assert [] + [x] == [x];
  }

  /** One more channel after a non-empty high-pass run extends the gain part. */
  lemma HighPassGainStep(alpha: real, c: Carry, before: seq<real>, x: real, head: real)
    requires before != []
    requires Scan(HighPass(alpha), c, before).out == [head] + Gain(alpha, before[1..])
    ensures Scan(HighPass(alpha), c, before + [x]).out == [head] + Gain(alpha, (before + [x])[1..])
  {
    ScanSnoc(HighPass(alpha), c, before, x);
    HighPassSettled(alpha, c, before, x);
    assert (before + [x])[1..] == before[1..] + [x];
    GainAppend(alpha, before[1..], [x]);
  }

  /** Because the high-pass stage records its own output as the previous input,
      every channel after the first is just the input scaled by the
      coefficient. */
  lemma {:induction false} HighPassIsGain(alpha: real, c: Carry, xs: seq<real>)
    requires xs != []
    ensures Scan(HighPass(alpha), c, xs).out
         == [Differentiate(alpha, c.high, xs[0], c.input)] + Gain(alpha, xs[1..])
    decreases |xs|
  {
    var before, x := xs[..|xs| - 1], xs[|xs| - 1];
    assert xs == before + [x];
    if before == [] {
      HighPassFirst(alpha, c, x);
    } else {
      HighPassIsGain(alpha, c, before);
      assert before[0] == xs[0];
      HighPassGainStep(alpha, c, before, x, Differentiate(alpha, c.high, xs[0], c.input));
    }
  }

  /** When the two histories agree, as they do after any earlier non-empty
      high-pass run, the first channel is scaled too: the whole stage is a
      gain. */
  lemma HighPassMatchedIsGain(alpha: real, c: Carry, xs: seq<real>)
    requires c.high == c.input
    ensures Scan(HighPass(alpha), c, xs).out == Gain(alpha, xs)
  {
    if xs != [] {
      HighPassIsGain(alpha, c, xs);
      DifferentiateOwnOutput(alpha, c.high, xs[0]);
      assert xs == [xs[0]] + xs[1..];
      GainAppend(alpha, [xs[0]], xs[1..]);
    }
  }

  /** A textbook one-pole high-pass on the raw input, y = a·(y' + x − x'), with
      y' and x' the previous output and input (initially `high` and `input`). */
  function OnePoleHighPass(alpha: real, high: real, input: real, xs: seq<real>): (ys: seq<real>)
    ensures |ys| == |xs|
    decreases |xs|
  {
    if xs == [] then []
    else
      var before := xs[..|xs| - 1];
      var ys := OnePoleHighPass(alpha, high, input, before);
      ys + [Differentiate(alpha, LastOr(high, ys), xs[|xs| - 1], LastOr(input, before))]
  }

  /** A one-pole high-pass run on one more channel appends that channel's value. */
  lemma OnePoleHighPassSnoc(alpha: real, high: real, input: real, xs: seq<real>, x: real)
    ensures var ys := OnePoleHighPass(alpha, high, input, xs);
      OnePoleHighPass(alpha, high, input, xs + [x])
        == ys + [Differentiate(alpha, LastOr(high, ys), x, LastOr(input, xs))]
  {
    assert (xs + [x])[..|xs|] == xs;
  }

  /** Channel-by-channel difference of two equally long buffers. */
  function Minus(xs: seq<real>, ys: seq<real>): (d: seq<real>)
    requires |xs| == |ys|
    ensures |d| == |xs|
  {
    seq(|xs|, i requires 0 <= i < |xs| => xs[i] - ys[i])
  }

  lemma MinusSnoc(xs: seq<real>, ys: seq<real>, x: real, y: real)
    requires |xs| == |ys|
    ensures Minus(xs + [x], ys + [y]) == Minus(xs, ys) + [x - y]
  {
  }

  /** After the band-pass stage its history holds the last value of a low-pass
      run with the lower coefficient, the last value of a high-pass run on the
      raw input with the upper coefficient, and the last input sample. */
  lemma {:induction false} BandPassCarry(aLow: real, aHigh: real, c: Carry, xs: seq<real>)
    ensures Scan(BandPass(aLow, aHigh), c, xs).carry
         == Carry(LastOr(c.low, Scan(LowPass(aLow), c, xs).out),
                  LastOr(c.high, OnePoleHighPass(aHigh, c.high, c.input, xs)),
                  LastOr(c.input, xs))
    decreases |xs|
  {
    if xs != [] {
      var before, x := xs[..|xs| - 1], xs[|xs| - 1];
      assert xs == before + [x];
      BandPassCarry(aLow, aHigh, c, before);
      LowPassCarry(aLow, c, before);
      ScanSnoc(BandPass(aLow, aHigh), c, before, x);
      ScanSnoc(LowPass(aLow), c, before, x);
      OnePoleHighPassSnoc(aHigh, c.high, c.input, before, x);
    }
  }

  /** The band-pass stage is, channel by channel, a low-pass run with the lower
      coefficient minus a high-pass run on the raw input with the upper one. */
  lemma {:induction false} BandPassIsLowMinusHigh(aLow: real, aHigh: real, c: Carry, xs: seq<real>)
    ensures Scan(BandPass(aLow, aHigh), c, xs).out
         == Minus(Scan(LowPass(aLow), c, xs).out, OnePoleHighPass(aHigh, c.high, c.input, xs))
    decreases |xs|
  {
    if xs != [] {
      var before, x := xs[..|xs| - 1], xs[|xs| - 1];
      assert xs == before + [x];
      BandPassIsLowMinusHigh(aLow, aHigh, c, before);
      BandPassCarry(aLow, aHigh, c, before);
      LowPassCarry(aLow, c, before);
      ScanSnoc(BandPass(aLow, aHigh), c, before, x);
      ScanSnoc(LowPass(aLow), c, before, x);
      OnePoleHighPassSnoc(aHigh, c.high, c.input, before, x);
      var lows0 := Scan(LowPass(aLow), c, before).out;
      var highs0 := OnePoleHighPass(aHigh, c.high, c.input, before);
      MinusSnoc(lows0, highs0,
        Smooth(aLow, x, LastOr(c.low, lows0)),
        Differentiate(aHigh, LastOr(c.high, highs0), x, LastOr(c.input, before)));
    }
  }
}

/** The Filter unit: a power latch, one polyphonic input, and low-, band- and
    high-pass outputs computed in place on one working buffer. */
module FilterUnit {
  import opened Host
  import opened OnePole
  import PowerLatch

  /** The working buffer together with the shared filter history. */
  datatype Bank = Bank(voltages: seq<real>, history: Carry)

  /** A stage whose output is plugged in rewrites the buffer and the history;
      one whose output is not leaves both alone. */
  function RunStage(connected: bool, s: Stage, b: Bank): (r: Bank)
    ensures |r.voltages| == |b.voltages|
    ensures !connected ==> r == b
  {
    if connected then
      var run := Scan(s, b.history, b.voltages);
      Bank(run.out, run.carry)
    else b
  }

  /** The band-pass stage's coefficients, for the corners |cutoff − 5| and
      |cutoff + 5|. Both are valid coefficients; for a non-negative cutoff
      the low-pass coefficient is the smaller one, for a non-positive cutoff
      the larger one. */
  function BandStage(cutoff: real, sampleRate: SampleRate): (s: Stage)
    ensures s.BandPass?
    ensures 0.0 <= s.alphaLow < 1.0 && 0.0 <= s.alphaHigh < 1.0
    ensures cutoff >= 0.0 ==> s.alphaLow <= s.alphaHigh
    ensures cutoff <= 0.0 ==> s.alphaHigh <= s.alphaLow
  {
    var lowCorner, highCorner := Abs(cutoff - BandOffset), Abs(cutoff + BandOffset);
    var aLow, aHigh := CalculateAlpha(lowCorner, sampleRate), CalculateAlpha(highCorner, sampleRate);
    assert cutoff >= 0.0 ==> aLow <= aHigh by {
      if cutoff >= 0.0 {
        AlphaMonotone(lowCorner, highCorner, sampleRate);
      }
    }
    assert cutoff <= 0.0 ==> aHigh <= aLow by {
      if cutoff <= 0.0 {
        AlphaMonotone(highCorner, lowCorner, sampleRate);
      }
    }
    BandPass(aLow, aHigh)
  }

  /** Negating the cutoff swaps the band-pass stage's two coefficients. */
  lemma BandStageMirror(cutoff: real, sampleRate: SampleRate)
    ensures var s := BandStage(cutoff, sampleRate);
      BandStage(-cutoff, sampleRate) == BandPass(s.alphaHigh, s.alphaLow)
  {
    assert Abs(-cutoff - BandOffset) == Abs(cutoff + BandOffset);
    assert Abs(-cutoff + BandOffset) == Abs(cutoff - BandOffset);
  }

  class Filter {
    var voltages: seq<real>
    /** The power button's latch: whether the unit is on and the button's
        level in the previous frame. */
    var power: PowerLatch.Latch
    var prevLowPassSample: real
    var prevHighPassSample: real
    var prevInputSample: real
    const sampleRate: SampleRate
    var powerLight: real
    var lowPassOut: Output
    var bandPassOut: Output
    var highPassOut: Output

    /** The shared filter history. */
    function History(): Carry
      reads this
    {
      Carry(prevLowPassSample, prevHighPassSample, prevInputSample)
    }

    function Contents(): Bank
      reads this
    {
      Bank(voltages, History())
    }

    /** A powered-off unit with an empty buffer and zero history; the outputs
        are whatever the host has plugged in. */
    constructor (sampleRate: SampleRate, lowPassOut: Output, bandPassOut: Output, highPassOut: Output)
      ensures this.sampleRate == sampleRate
      ensures power == PowerLatch.Latch(false, false)
      ensures Contents() == Bank([], Carry(0.0, 0.0, 0.0))
      ensures this.lowPassOut == lowPassOut && this.bandPassOut == bandPassOut
      ensures this.highPassOut == highPassOut
      ensures powerLight == 0.0
    {
      this.sampleRate := sampleRate;
      voltages := [];
      power := PowerLatch.Latch(false, false);
      prevLowPassSample, prevHighPassSample, prevInputSample := 0.0, 0.0, 0.0;
      powerLight := 0.0;
      this.lowPassOut, this.bandPassOut, this.highPassOut := lowPassOut, bandPassOut, highPassOut;
    }

    /** The power button: toggles on a rising edge of the trigger, remembers the
        trigger, and lights the power light exactly when the unit is on. */
    method UpdatePowerState(trigger: bool)
      modifies this`power, this`powerLight
      ensures power == PowerLatch.Step(old(power), trigger)
      ensures powerLight == Brightness(power.on)
    {
      if trigger && !power.last {
        power := power.(on := !power.on);
      }
      power := power.(last := trigger);
      powerLight := Brightness(power.on);
    }

    /** Declares zero channels on all three outputs. */
    method DisableOutput()
      modifies this`lowPassOut, this`bandPassOut, this`highPassOut
      ensures lowPassOut == old(lowPassOut).SetChannels(0)
      ensures bandPassOut == old(bandPassOut).SetChannels(0)
      ensures highPassOut == old(highPassOut).SetChannels(0)
    {
      lowPassOut := lowPassOut.SetChannels(0);
      bandPassOut := bandPassOut.SetChannels(0);
      highPassOut := highPassOut.SetChannels(0);
    }

    /** Loads the buffer from the input: empty when nothing is plugged in,
        otherwise one slot per input channel holding that channel's voltage. */
    method GetInput(input: Input)
      modifies this`voltages
      ensures input.connected ==> voltages == input.samples
      ensures !input.connected ==> voltages == []
    {
      voltages := [];
      if !input.connected {
        return;
      }
      var channels := input.Channels();
      voltages := seq(channels, i requires 0 <= i < channels => input.samples[i]);
    }

    /** The low-pass stage, in place, when its output is plugged in: each
        channel in index order becomes the smoothed sample, which is also the
        history the next channel starts from. */
    method ApplyLowPass(cutoff: real)
      modifies this`voltages, this`prevLowPassSample, this`lowPassOut
      ensures Contents()
           == RunStage(old(lowPassOut.connected), LowPass(CalculateAlpha(cutoff, sampleRate)), old(Contents()))
      ensures lowPassOut == if old(lowPassOut.connected)
        then old(lowPassOut).SetChannels(|voltages|).WriteVoltages(voltages)
        else old(lowPassOut)
    {
      if !lowPassOut.connected {
        return;
      }
      lowPassOut := lowPassOut.SetChannels(|voltages|);
      var alpha := CalculateAlpha(cutoff, sampleRate);
      ghost var xs, c := voltages, History();
      var i := 0;
      while i < |voltages|
        modifies this`voltages, this`prevLowPassSample
        invariant |voltages| == |xs|
        invariant InPlace(LowPass(alpha), c, xs, i, voltages, History())
      {
        Advance(LowPass(alpha), c, xs, i, voltages, History());
        var lowPass := Smooth(alpha, voltages[i], prevLowPassSample);
        voltages := voltages[i := lowPass];
        prevLowPassSample := lowPass;
        i := i + 1;
      }
      Finished(LowPass(alpha), c, xs, voltages, History());
      lowPassOut := lowPassOut.WriteVoltages(voltages);
    }

    /** The band-pass stage, in place, when its output is plugged in: each
        channel in index order becomes its low-pass value minus its high-pass
        value, and the history records both and the raw sample. */
    method ApplyBandPass(cutoff: real)
      modifies this`voltages, this`prevLowPassSample, this`prevHighPassSample
      modifies this`prevInputSample, this`bandPassOut
      ensures Contents()
           == RunStage(old(bandPassOut.connected), BandStage(cutoff, sampleRate), old(Contents()))
      ensures bandPassOut == if old(bandPassOut.connected)
        then old(bandPassOut).SetChannels(|voltages|).WriteVoltages(voltages)
        else old(bandPassOut)
    {
      if !bandPassOut.connected {
        return;
      }
      bandPassOut := bandPassOut.SetChannels(|voltages|);
      var lowCutoff := Abs(cutoff - BandOffset);
      var highCutoff := Abs(cutoff + BandOffset);
      var alphaLow := CalculateAlpha(lowCutoff, sampleRate);
      var alphaHigh := CalculateAlpha(highCutoff, sampleRate);
      ghost var xs, c := voltages, History();
      var i := 0;
      while i < |voltages|
        modifies this`voltages, this`prevLowPassSample, this`prevHighPassSample, this`prevInputSample
        invariant |voltages| == |xs|
        invariant InPlace(BandPass(alphaLow, alphaHigh), c, xs, i, voltages, History())
      {
        Advance(BandPass(alphaLow, alphaHigh), c, xs, i, voltages, History());
        var lowPass := Smooth(alphaLow, voltages[i], prevLowPassSample);
        prevLowPassSample := lowPass;
        var highPass := Differentiate(alphaHigh, prevHighPassSample, voltages[i], prevInputSample);
        prevHighPassSample := highPass;
        prevInputSample := voltages[i];
        voltages := voltages[i := lowPass - highPass];
        i := i + 1;
      }
      Finished(BandPass(alphaLow, alphaHigh), c, xs, voltages, History());
      bandPassOut := bandPassOut.WriteVoltages(voltages);
    }

    /** The high-pass stage, in place, when its output is plugged in: each
        channel in index order becomes the high-pass value, which is stored as
        both the previous output and the previous input. */
    method ApplyHighPass(cutoff: real)
      modifies this`voltages, this`prevHighPassSample, this`prevInputSample, this`highPassOut
      ensures Contents()
           == RunStage(old(highPassOut.connected), HighPass(CalculateAlpha(cutoff, sampleRate)), old(Contents()))
      ensures highPassOut == if old(highPassOut.connected)
        then old(highPassOut).SetChannels(|voltages|).WriteVoltages(voltages)
        else old(highPassOut)
    {
      if !highPassOut.connected {
        return;
      }
      highPassOut := highPassOut.SetChannels(|voltages|);
      var alpha := CalculateAlpha(cutoff, sampleRate);
      ghost var xs, c := voltages, History();
      var i := 0;
      while i < |voltages|
        modifies this`voltages, this`prevHighPassSample, this`prevInputSample
        invariant |voltages| == |xs|
        invariant InPlace(HighPass(alpha), c, xs, i, voltages, History())
      {
        Advance(HighPass(alpha), c, xs, i, voltages, History());
        var highPass := Differentiate(alpha, prevHighPassSample, voltages[i], prevInputSample);
        voltages := voltages[i := highPass];
        prevHighPassSample := highPass;
        prevInputSample := highPass;
        i := i + 1;
      }
      Finished(HighPass(alpha), c, xs, voltages, History());
      highPassOut := highPassOut.WriteVoltages(voltages);
    }

    /** One frame. Powered off: all three outputs declare zero channels and the
        buffer and history are kept. Powered on: the buffer is loaded from the
        input and the low-, band- and high-pass stages run on it in that order,
        each plugged-in stage reading what the stages before it left. */
    method Process(powerTrigger: bool, cutoff: real, input: Input)
      modifies this
      ensures power == PowerLatch.Step(old(power), powerTrigger)
      ensures powerLight == Brightness(power.on)
      ensures !power.on ==>
        && Contents() == old(Contents())
        && lowPassOut == old(lowPassOut).SetChannels(0)
        && bandPassOut == old(bandPassOut).SetChannels(0)
        && highPassOut == old(highPassOut).SetChannels(0)
      ensures power.on ==>
        var loaded := Bank(if input.connected then input.samples else [], old(History()));
        var low := RunStage(old(lowPassOut.connected), LowPass(CalculateAlpha(cutoff, sampleRate)), loaded);
        var band := RunStage(old(bandPassOut.connected), BandStage(cutoff, sampleRate), low);
        var high := RunStage(old(highPassOut.connected), HighPass(CalculateAlpha(cutoff, sampleRate)), band);
        && Contents() == high
        && lowPassOut == (if old(lowPassOut.connected)
             then old(lowPassOut).SetChannels(|loaded.voltages|).WriteVoltages(low.voltages)
             else old(lowPassOut))
        && bandPassOut == (if old(bandPassOut.connected)
             then old(bandPassOut).SetChannels(|loaded.voltages|).WriteVoltages(band.voltages)
             else old(bandPassOut))
        && highPassOut == (if old(highPassOut.connected)
             then old(highPassOut).SetChannels(|loaded.voltages|).WriteVoltages(high.voltages)
             else old(highPassOut))
    {
      UpdatePowerState(powerTrigger);
      if !power.on {
        DisableOutput();
        return;
      } else {
        GetInput(input);
        ApplyLowPass(cutoff);
        ApplyBandPass(cutoff);
        ApplyHighPass(cutoff);
      }
    }
  }
}

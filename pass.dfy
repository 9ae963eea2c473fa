/** The Pass unit: a power latch, a SUM/AVG mode latch, and three polyphonic
    input buses summed or averaged into one output. */
module PassUnit {
  import opened Host
  import opened Accumulator
  import PowerLatch

  class Pass {
    var numChannels: nat
    var voltages: seq<real>
    /** The power button's latch: whether the unit is on and the button's
        level in the previous frame. */
    var power: PowerLatch.Latch
    /** The SUM and AVG latches and their buttons' previous levels. */
    var modes: Modes
    var powerLight: real
    var sumLight: real
    var avgLight: real
    var out: Output

    /** The accumulator never holds more slots than the channels counted into
        it, and holds at least one whenever a channel was counted, so sending
        its first slot is always possible; the two modes are never both on. */
    ghost predicate Valid()
      reads this`voltages, this`numChannels, this`modes
    {
      && |voltages| <= numChannels
      && (numChannels > 0 ==> |voltages| > 0)
      && Exclusive(modes)
    }

    /** A powered-off unit with no mode selected and an empty accumulator. */
    constructor (out: Output)
      ensures Valid()
      ensures power == PowerLatch.Latch(false, false)
      ensures modes == Modes(false, false, false, false)
      ensures numChannels == 0 && voltages == []
      ensures powerLight == 0.0 && sumLight == 0.0 && avgLight == 0.0
      ensures this.out == out
    {
      numChannels := 0;
      voltages := [];
      power := PowerLatch.Latch(false, false);
      modes := Modes(false, false, false, false);
      powerLight, sumLight, avgLight := 0.0, 0.0, 0.0;
      this.out := out;
    }

    /** The power button: toggles on a rising edge and lights the power light
        exactly when the unit is on. */
    method UpdatePowerState(trigger: bool)
      modifies this`power, this`powerLight
      ensures power == PowerLatch.Step(old(power), trigger)
      ensures powerLight == Brightness(power.on)
    {
      if trigger && !power.last {
        power := power.(on := !power.on);
      }
      power := power.(last := trigger);
      powerLight := Brightness(power.on);
    }

    /** The SUM and AVG buttons, with their lights. */
    method UpdateModeStates(sumTrigger: bool, avgTrigger: bool)
      requires Valid()
      modifies this`modes, this`sumLight, this`avgLight
      ensures Valid()
      ensures modes == ModeStep(old(modes), sumTrigger, avgTrigger)
      ensures sumLight == Brightness(modes.sumOn) && avgLight == Brightness(modes.avgOn)
    {
      if sumTrigger && !modes.sumLast {
        modes := modes.(sumOn := true, avgOn := false);
      }
      modes := modes.(sumLast := sumTrigger);

      if avgTrigger && !modes.avgLast {
        modes := modes.(avgOn := true, sumOn := false);
      }
      modes := modes.(avgLast := avgTrigger);

      sumLight := Brightness(modes.sumOn);
      avgLight := Brightness(modes.avgOn);
    }

    /** Adds one bus into the accumulator: nothing when it is unplugged;
        otherwise the accumulator grows with zeros to the bus's width, each of
        the bus's channels is added into its slot, and its channel count is
        added to the total. */
    method ProcessInput(input: Input)
      requires Valid()
      modifies this`voltages, this`numChannels
      ensures Valid()
      ensures voltages == AddBus(old(voltages), input)
      ensures numChannels == old(numChannels) + input.Channels()
    {
      if !input.connected {
        return;
      }
      var channels := input.Channels();
      if channels > |voltages| {
        voltages := voltages + seq(channels - |voltages|, _ => 0.0);
      }
      var inputVoltages := input.samples;
      var i := 0;
      while i < channels
        modifies this`voltages
        invariant 0 <= i <= channels <= |voltages|
        invariant |voltages| == Max(|old(voltages)|, channels)
        invariant forall k :: 0 <= k < i ==> voltages[k] == Padded(old(voltages), k) + inputVoltages[k]
        invariant forall k :: i <= k < |voltages| ==> voltages[k] == Padded(old(voltages), k)
      {
        voltages := voltages[i := voltages[i] + inputVoltages[i]];
        i := i + 1;
      }
      numChannels := numChannels + input.Channels();
    }

    /** Clears the accumulator and adds the three buses in order. Afterwards the
        accumulator is as wide as the widest plugged-in bus, each slot is the
        sum of that channel over the buses that have it, and the total is the
        sum of the plugged-in buses' channel counts. */
    method ProcessInputs(in1: Input, in2: Input, in3: Input)
      requires Valid()
      modifies this`voltages, this`numChannels
      ensures Valid()
      ensures voltages == Mix([in1, in2, in3])
      ensures numChannels == SumChannels([in1, in2, in3])
      ensures |voltages| == MaxChannels([in1, in2, in3])
      ensures forall i :: 0 <= i < |voltages| ==> voltages[i] == SumAt([in1, in2, in3], i)
      ensures |voltages| <= numChannels && (numChannels > 0 <==> |voltages| > 0)
    {
      ghost var buses := [in1, in2, in3];
      assert buses[..2] == [in1, in2] && buses[..2][..1] == [in1] && buses[..1][..0] == [];
      voltages := [];
      numChannels := 0;
      ProcessInput(in1);
      assert voltages == Mix(buses[..1]) && numChannels == SumChannels(buses[..1]);
      ProcessInput(in2);
      assert SumChannels(buses[..2]) == SumChannels(buses[..1]) + in2.Channels();
      assert voltages == Mix(buses[..2]) && numChannels == SumChannels(buses[..2]);
      ProcessInput(in3);
      forall i | 0 <= i < |voltages| ensures voltages[i] == SumAt(buses, i) {
        MixIsChannelSum(buses, i);
      }
      ChannelCountBounds(buses);
    }

    /** Divides every slot by the total channel count. */
    method ApplyAverage()
      requires Valid() && numChannels > 0
      modifies this`voltages
      ensures Valid()
      ensures voltages == Average(old(voltages), numChannels)
    {
      var i := 0;
      while i < |voltages|
        modifies this`voltages
        invariant 0 <= i <= |voltages| == |old(voltages)|
        invariant forall k :: 0 <= k < i ==> voltages[k] == Share(old(voltages)[k], numChannels)
        invariant forall k :: i <= k < |voltages| ==> voltages[k] == old(voltages)[k]
      {
        voltages := voltages[i := Share(voltages[i], numChannels)];
        i := i + 1;
      }
    }

    /** Declares one output channel and hands the accumulator to the host, which
        reads its first slot. */
    method SendOutput()
      requires |voltages| >= 1
      modifies this`out
      ensures out == old(out).SetChannels(1).WriteVoltages(voltages)
    {
      out := out.SetChannels(1);
      out := out.WriteVoltages(voltages);
    }

    /** Silences the output and switches both modes and their lights off; the
        accumulator and its channel total are kept. */
    method DisableOutput()
      requires Valid()
      modifies this`out, this`modes, this`sumLight, this`avgLight
      ensures Valid()
      ensures out == old(out).SetChannels(0)
      ensures modes == old(modes).(sumOn := false, avgOn := false)
      ensures sumLight == 0.0 && avgLight == 0.0
    {
      out := out.SetChannels(0);
      modes := modes.(sumOn := false);
      modes := modes.(avgOn := false);
      sumLight := 0.0;
      avgLight := 0.0;
    }

    /** One frame. Powered off: the output is silenced and both modes cleared.
        Powered on: the modes are updated; with a mode on the buses are mixed
        afresh, with none the previous accumulator and total are kept; then, if
        the total is positive, AVG divides by it and the result is sent as one
        channel. */
    method Process(powerTrigger: bool, sumTrigger: bool, avgTrigger: bool,
                   in1: Input, in2: Input, in3: Input)
      requires Valid()
      modifies this
      ensures Valid()
      ensures power == PowerLatch.Step(old(power), powerTrigger)
      ensures powerLight == Brightness(power.on)
      ensures !power.on ==>
        && out == old(out).SetChannels(0)
        && modes == old(modes).(sumOn := false, avgOn := false)
        && sumLight == 0.0 && avgLight == 0.0
        && voltages == old(voltages) && numChannels == old(numChannels)
      ensures power.on ==> modes == ModeStep(old(modes), sumTrigger, avgTrigger)
      ensures power.on ==> sumLight == Brightness(modes.sumOn) && avgLight == Brightness(modes.avgOn)
      ensures power.on ==>
        numChannels == if modes.sumOn || modes.avgOn then SumChannels([in1, in2, in3]) else old(numChannels)
      ensures power.on ==>
        var mixed := if modes.sumOn || modes.avgOn then Mix([in1, in2, in3]) else old(voltages);
        voltages == if numChannels > 0 && modes.avgOn then Average(mixed, numChannels) else mixed
      ensures power.on ==>
        out == if numChannels > 0 then old(out).SetChannels(1).WriteVoltages(voltages) else old(out)
    {
      UpdatePowerState(powerTrigger);
      if !power.on {
        DisableOutput();
        return;
      } else {
        UpdateModeStates(sumTrigger, avgTrigger);
        if modes.sumOn || modes.avgOn {
          ProcessInputs(in1, in2, in3);
        }
        if numChannels > 0 {
          if modes.avgOn {
            ApplyAverage();
          }
          SendOutput();
        }
      }
    }
  }
}

/** The Pass unit's combinational rules: the SUM/AVG mode latch and the mixing
    of up to three polyphonic input buses into one accumulator. */
module Accumulator {
  import opened Host

  /** The two modes with the trigger level each saw last frame. */
  datatype Modes = Modes(sumOn: bool, sumLast: bool, avgOn: bool, avgLast: bool)

  predicate Exclusive(m: Modes) {
    !(m.sumOn && m.avgOn)
  }

  /** One frame of the mode latch: a rising SUM edge selects SUM, then a rising
      AVG edge selects AVG; each selection clears the other mode. */
  function ModeStep(m: Modes, sumTrigger: bool, avgTrigger: bool): (r: Modes)
    ensures r.sumLast == sumTrigger && r.avgLast == avgTrigger
    ensures Exclusive(m) ==> Exclusive(r)
    ensures (sumTrigger && !m.sumLast) || (avgTrigger && !m.avgLast) ==> r.sumOn != r.avgOn
    ensures avgTrigger && !m.avgLast ==> r.avgOn && !r.sumOn
    ensures sumTrigger && !m.sumLast && !(avgTrigger && !m.avgLast) ==> r.sumOn && !r.avgOn
    ensures !(sumTrigger && !m.sumLast) && !(avgTrigger && !m.avgLast) ==>
      r.sumOn == m.sumOn && r.avgOn == m.avgOn
  {
    var afterSum := if sumTrigger && !m.sumLast then m.(sumOn := true, avgOn := false) else m;
    var afterSum' := afterSum.(sumLast := sumTrigger);
    var afterAvg := if avgTrigger && !m.avgLast then afterSum'.(avgOn := true, sumOn := false) else afterSum';
    afterAvg.(avgLast := avgTrigger)
  }

  /** The mode latch after a sequence of frames of (SUM, AVG) trigger levels. */
  function RunModes(m: Modes, frames: seq<(bool, bool)>): Modes
    decreases |frames|
  {
    if frames == [] then m
    else
      var last := frames[|frames| - 1];
      ModeStep(RunModes(m, frames[..|frames| - 1]), last.0, last.1)
  }

  /** While the SUM button stays held it never selects SUM again: if SUM is on
      at the end it was on at the start, and whatever AVG did never re-arms it. */
  lemma {:induction false} HeldSumDoesNotRefire(m: Modes, frames: seq<(bool, bool)>)
    requires m.sumLast
    requires forall k :: 0 <= k < |frames| ==> frames[k].0
    ensures RunModes(m, frames).sumLast
    ensures RunModes(m, frames).sumOn ==> m.sumOn
    decreases |frames|
  {
    if frames != [] {
      HeldSumDoesNotRefire(m, frames[..|frames| - 1]);
    }
  }

  /** SUM pressed in one frame, then AVG pressed while SUM is still held: AVG
      ends on and SUM off, and holding both longer changes nothing. */
  lemma AvgOverridesHeldSumExample()
    ensures var m := RunModes(Modes(false, false, false, false), [(true, false), (true, true), (true, true)]);
      m.avgOn && !m.sumOn
  {
    var frames := [(true, false), (true, true), (true, true)];
    assert frames[..2][..1] == [(true, false)];
    assert frames[..1][..0] == [];
  }

  function Max(a: nat, b: nat): nat {
    if a < b then b else a
  }

  /** Slot `i` of a buffer, reading as zero past its end (a zero-padded slot). */
  function Padded(v: seq<real>, i: nat): real {
    if i < |v| then v[i] else 0.0
  }

  /** The accumulator after adding one bus: unchanged when the bus is not
      plugged in; otherwise grown with zeros to the bus's width and summed
      channel by channel. */
  function AddBus(acc: seq<real>, bus: Input): (r: seq<real>)
    ensures |r| == Max(|acc|, bus.Channels())
    ensures forall i :: 0 <= i < |acc| ==>
      r[i] == acc[i] + (if i < bus.Channels() then bus.samples[i] else 0.0)
    ensures forall i :: |acc| <= i < |r| ==> r[i] == bus.samples[i]
  {
    if !bus.connected then acc
    else
      var n := Max(|acc|, |bus.samples|);
      seq(n, i requires 0 <= i < n => Padded(acc, i) + Padded(bus.samples, i))
  }

  /** The accumulator after adding each bus in order to an empty one. */
  function Mix(buses: seq<Input>): (r: seq<real>)
    ensures |r| == MaxChannels(buses)
    decreases |buses|
  {
    if buses == [] then []
    else AddBus(Mix(buses[..|buses| - 1]), buses[|buses| - 1])
  }

  /** The widest plugged-in bus, or 0 when none is plugged in. */
  function MaxChannels(buses: seq<Input>): nat
    decreases |buses|
  {
    if buses == [] then 0
    else Max(MaxChannels(buses[..|buses| - 1]), buses[|buses| - 1].Channels())
  }

  /** The channel counts of the plugged-in buses, added up (not the number of
      distinct channel indices). */
  function SumChannels(buses: seq<Input>): (total: nat)
    ensures forall k :: 0 <= k < |buses| ==> buses[k].Channels() <= total
    ensures total == 0 <==> forall k :: 0 <= k < |buses| ==> buses[k].Channels() == 0
    decreases |buses|
  {
    if buses == [] then 0
    else SumChannels(buses[..|buses| - 1]) + buses[|buses| - 1].Channels()
  }

  /** Channel `i` summed over the plugged-in buses that have a channel `i`. */
  function SumAt(buses: seq<Input>, i: nat): real
    decreases |buses|
  {
    if buses == [] then 0.0
    else
      var bus := buses[|buses| - 1];
      SumAt(buses[..|buses| - 1], i)
        + (if bus.connected && i < |bus.samples| then bus.samples[i] else 0.0)
  }

  /** Slot `i` of the mixed accumulator is channel `i` summed over every
      plugged-in bus wide enough to have it. */
  lemma {:induction false} MixIsChannelSum(buses: seq<Input>, i: nat)
    requires i < MaxChannels(buses)
    ensures Mix(buses)[i] == SumAt(buses, i)
    decreases |buses|
  {
    var before := buses[..|buses| - 1];
    if i < MaxChannels(before) {
      MixIsChannelSum(before, i);
    } else {
      MixBeyondIsZero(before, i);
    }
  }

  /** Past the widest bus no bus contributes anything. */
  lemma {:induction false} MixBeyondIsZero(buses: seq<Input>, i: nat)
    requires i >= MaxChannels(buses)
    ensures SumAt(buses, i) == 0.0
    decreases |buses|
  {
    if buses != [] {
      MixBeyondIsZero(buses[..|buses| - 1], i);
    }
  }

  /** The total channel count is at least the widest bus, and it is positive
      exactly when the mixed accumulator is non-empty. */
  lemma {:induction false} ChannelCountBounds(buses: seq<Input>)
    ensures MaxChannels(buses) <= SumChannels(buses)
    ensures SumChannels(buses) > 0 <==> MaxChannels(buses) > 0
    decreases |buses|
  {
    if buses != [] {
      ChannelCountBounds(buses[..|buses| - 1]);
    }
  }

  /** One slot divided by the total channel count. */
  function Share(x: real, count: nat): real
    requires count > 0
  {
    x / count as real
  }

  /** Every slot divided by the total channel count. */
  function Average(v: seq<real>, count: nat): (r: seq<real>)
    requires count > 0
    ensures |r| == |v|
  {
    seq(|v|, i requires 0 <= i < |v| => Share(v[i], count))
  }

  /** Buses [2, 4] and [6] with the third unplugged mix to [8, 4] over three
      channels, which average to [8/3, 4/3]. */
  lemma MixExample()
    ensures var buses := [Input(true, [2.0, 4.0]), Input(true, [6.0]), Input(false, [])];
      && Mix(buses) == [8.0, 4.0]
      && SumChannels(buses) == 3
      && Average(Mix(buses), 3) == [8.0 / 3.0, 4.0 / 3.0]
  {
    var buses := [Input(true, [2.0, 4.0]), Input(true, [6.0]), Input(false, [])];
    assert buses[..2] == [Input(true, [2.0, 4.0]), Input(true, [6.0])];
    assert buses[..2][..1] == [Input(true, [2.0, 4.0])];
    assert buses[..1][..0] == [];
    assert Mix(buses[..1]) == [2.0, 4.0];
    assert Mix(buses[..2]) == [8.0, 4.0];
    assert SumChannels(buses[..1]) == 2;
    assert SumChannels(buses[..2]) == 3;
  }
}

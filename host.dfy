/** The host's ports, reduced to the values the two processing units read and write. */
module Host {

  /** An input jack: whether a cable is plugged in, and the voltages it carries,
      one per polyphonic channel (so its channel count is `|samples|`). */
  datatype Input = Input(connected: bool, samples: seq<real>) {

    /** The channel count the unit sees: none when nothing is plugged in. */
    function Channels(): nat {
      if connected then |samples| else 0
    }
  }

  /** An output jack: whether a cable is plugged in (the host decides), the
      channel count the unit last declared, and the buffer it last handed over
      for the host to copy from. */
  datatype Output = Output(connected: bool, channels: nat, data: seq<real>) {

    function SetChannels(n: nat): Output {
      this.(channels := n)
    }

    function WriteVoltages(v: seq<real>): Output {
      this.(data := v)
    }
  }

  /** Brightness of a status light that shows a boolean state. */
  function Brightness(on: bool): (b: real)
    ensures b == 1.0 <==> on
    ensures b == 0.0 <==> !on
  {
    if on then 1.0 else 0.0
  }
}

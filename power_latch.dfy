/** The edge-triggered power latch that both units run once per frame:
    a momentary button toggles the unit on or off on its rising edge only. */
module PowerLatch {

  /** `on` is the unit's power state, `last` the trigger level seen last frame. */
  datatype Latch = Latch(on: bool, last: bool)

  predicate RisingEdge(last: bool, current: bool) {
    current && !last
  }

  /** One frame of the latch: toggle on a rising edge, then remember the level. */
  function Step(l: Latch, trigger: bool): (r: Latch)
    ensures r.on != l.on <==> RisingEdge(l.last, trigger)
    ensures r.last == trigger
  {
    var on := if trigger && !l.last then !l.on else l.on;
    Latch(on, trigger)
  }

  /** The latch after a sequence of frames with the given trigger levels. */
  function Run(l: Latch, triggers: seq<bool>): Latch
    decreases |triggers|
  {
    if triggers == [] then l
    else Step(Run(l, triggers[..|triggers| - 1]), triggers[|triggers| - 1])
  }

  /** The last level of `triggers`, or `initial` if there was none. */
  function LastLevel(initial: bool, triggers: seq<bool>): bool {
    if triggers == [] then initial else triggers[|triggers| - 1]
  }

  /** The number of frames in `triggers` whose level rises from the frame before
      (the first frame compares with `initial`). */
  function RisingEdges(initial: bool, triggers: seq<bool>): nat
    decreases |triggers|
  {
    if triggers == [] then 0
    else
      var before := triggers[..|triggers| - 1];
      RisingEdges(initial, before)
        + (if RisingEdge(LastLevel(initial, before), triggers[|triggers| - 1]) then 1 else 0)
  }

  /** Over any sequence of frames the power state has toggled once per rising
      edge, and the latch remembers the last level it saw. */
  lemma {:induction false} RunTogglesOncePerRisingEdge(l: Latch, triggers: seq<bool>)
    ensures Run(l, triggers).last == LastLevel(l.last, triggers)
    ensures Run(l, triggers).on == (l.on != (RisingEdges(l.last, triggers) % 2 == 1))
    decreases |triggers|
  {
    if triggers != [] {
      RunTogglesOncePerRisingEdge(l, triggers[..|triggers| - 1]);
    }
  }

  /** `n` frames with the button held down. */
  function Held(n: nat): (ts: seq<bool>)
    ensures |ts| == n
  {
    seq(n, _ => true)
  }

  /** Holding the button over any number of frames toggles the power at most
      once: exactly once if it was released before, never if it was already held. */
  lemma {:induction false} HeldTriggerTogglesOnce(l: Latch, n: nat)
    requires n >= 1
    ensures Run(l, Held(n)).last
    ensures Run(l, Held(n)).on == (l.on != !l.last)
  {
    if n > 1 {
      assert Held(n)[..n - 1] == Held(n - 1);
      HeldTriggerTogglesOnce(l, n - 1);
    } else {
      assert Held(n)[..0] == [];
    }
  }

  /** Starting off with the button released, the levels 0, 1, 1, 0, 1 give the
      power states off, on, on, on, off. */
  lemma ToggleTraceExample()
    ensures var ts := [false, true, true, false, true];
      var l := Latch(false, false);
      [Run(l, ts[..1]).on, Run(l, ts[..2]).on, Run(l, ts[..3]).on, Run(l, ts[..4]).on, Run(l, ts).on]
        == [false, true, true, true, false]
  {
    var ts := [false, true, true, false, true];
    assert ts[..1][..0] == [];
    assert ts[..2][..1] == ts[..1];
    assert ts[..3][..2] == ts[..2];
    assert ts[..4][..3] == ts[..3];
    assert ts[..4] == ts[..|ts| - 1];
  }
}

/// The firmware's start button (`button_check`): an active-low input whose
/// rising edges (released -> pressed) are reported, two reports always more
/// than 50 ms apart on the wrapping millisecond clock.
/// The two `static` locals of the C function are the fields of a
/// `DebouncedButton` object.
module Button {
  import opened Ints

  /// `BUTTON_DEBOUNCE`, in ms.
  const Debounce: int := 50

  /// The remembered state: time of the last accepted press and whether the
  /// button read as pressed on the previous call.
  datatype Debouncer = Debouncer(lastPress: U32, lastState: bool)

  /// One `button_check()` call that reads the pin at level `pinHigh` at time
  /// `now`: the new state and whether a press is reported.
  function ButtonStep(d: Debouncer, pinHigh: bool, now: U32): (r: (Debouncer, bool))
    ensures r.1 <==> !pinHigh && !d.lastState && Sub32(now, d.lastPress) > Debounce
    ensures r.0.lastState == !pinHigh
    ensures r.0.lastPress == if r.1 then now else d.lastPress
  {
    var pressed := !pinHigh;
    if pressed && !d.lastState && Sub32(now, d.lastPress) > Debounce then
      (Debouncer(now, pressed), true)
    else
      (Debouncer(d.lastPress, pressed), false)
  }

  /// One pin reading: its level and the time it is taken.
  datatype Reading = Reading(pinHigh: bool, now: U32)

  /// A sequence of `button_check()` calls: the final state and, per call,
  /// whether it reported a press.
  function Presses(d: Debouncer, readings: seq<Reading>): (r: (Debouncer, seq<bool>))
    ensures |r.1| == |readings|
  {
    if readings == [] then (d, [])
    else
      var before := Presses(d, readings[..|readings| - 1]);
      var last := readings[|readings| - 1];
      var step := ButtonStep(before.0, last.pinHigh, last.now);
      (step.0, before.1 + [step.1])
  }

  /// The remembered state is always the previous reading.
  lemma LastStateIsPreviousReading(d: Debouncer, readings: seq<Reading>)
    requires readings != []
    ensures Presses(d, readings).0.lastState == !readings[|readings| - 1].pinHigh
  {
  }

  /// A press is reported only on a pressed reading whose predecessor (or,
  /// for the first call, the remembered state) was released: one report per
  /// press, however long the button is held.
  lemma {:induction false} ReportsOnlyRisingEdges(d: Debouncer, readings: seq<Reading>, i: nat)
    requires i < |readings| && Presses(d, readings).1[i]
    ensures !readings[i].pinHigh
    ensures if i == 0 then !d.lastState else readings[i - 1].pinHigh
  {
    var n := |readings| - 1;
    var before := Presses(d, readings[..n]);
    if i < n {
      assert Presses(d, readings).1[i] == before.1[i];
      ReportsOnlyRisingEdges(d, readings[..n], i);
    } else if n > 0 {
      LastStateIsPreviousReading(d, readings[..n]);
    }
  }

  /// A press that comes within the debounce time of the previous accepted
  /// press is swallowed, and holding the button on does not bring it back.
  lemma {:induction false} HeldButtonReportsNothing(d: Debouncer, readings: seq<Reading>)
    requires d.lastState
    requires forall k :: 0 <= k < |readings| ==> !readings[k].pinHigh
    ensures forall k :: 0 <= k < |readings| ==> !Presses(d, readings).1[k]
  {
    if readings != [] {
      var n := |readings| - 1;
      HeldButtonReportsNothing(d, readings[..n]);
      if n > 0 {
        LastStateIsPreviousReading(d, readings[..n]);
      }
    }
  }

  /// The reports of the first `m` calls do not depend on the calls after.
  lemma {:induction false} PressesPrefix(d: Debouncer, readings: seq<Reading>, m: nat)
    requires m <= |readings|
    ensures Presses(d, readings[..m]).1 == Presses(d, readings).1[..m]
  {
    if m < |readings| {
      var n := |readings| - 1;
      assert readings[..n][..m] == readings[..m];
      PressesPrefix(d, readings[..n], m);
    } else {
      assert readings[..m] == readings;
    }
  }

  /// After a report at call `i` and none later, the remembered press time is
  /// the time of call `i`.
  lemma {:induction false} LastPressIsLastReport(d: Debouncer, readings: seq<Reading>, i: nat)
    requires i < |readings| && Presses(d, readings).1[i]
    requires forall k :: i < k < |readings| ==> !Presses(d, readings).1[k]
    ensures Presses(d, readings).0.lastPress == readings[i].now
  {
    var n := |readings| - 1;
    if i < n {
      var before := Presses(d, readings[..n]);
      assert !Presses(d, readings).1[n];
      forall k | i < k < n
        ensures !before.1[k]
      {
        assert before.1[k] == Presses(d, readings).1[k];
      }
      assert before.1[i] == Presses(d, readings).1[i];
      LastPressIsLastReport(d, readings[..n], i);
    }
  }

  /// Two consecutive reports are more than `Debounce` ms apart, measured as
  /// the firmware measures it, with 32-bit wrap-around.
  lemma ConsecutivePressesApart(d: Debouncer, readings: seq<Reading>, i: nat, j: nat)
    requires i < j < |readings|
    requires Presses(d, readings).1[i] && Presses(d, readings).1[j]
    requires forall k :: i < k < j ==> !Presses(d, readings).1[k]
    ensures Sub32(readings[j].now, readings[i].now) > Debounce
  {
    var upTo := readings[..j + 1];
    PressesPrefix(d, readings, j + 1);
    PressesPrefix(d, readings, j);
    assert upTo[..j] == readings[..j];
    var before := Presses(d, readings[..j]);
    assert before.1[i] == Presses(d, readings).1[i];
    forall k | i < k < j
      ensures !before.1[k]
    {
      assert before.1[k] == Presses(d, readings).1[k];
    }
    LastPressIsLastReport(d, readings[..j], i);
    assert Presses(d, upTo).1[j] == Presses(d, readings).1[j];
  }

  class DebouncedButton {
    /// `static uint32_t last_press` and `static bool last_state`.
    var lastPress: U32
    var lastState: bool

    function Snapshot(): Debouncer
      reads this
    {
      Debouncer(lastPress, lastState)
    }

    constructor ()
      ensures Snapshot() == Debouncer(0, false)
    {
      lastPress, lastState := 0, false;
    }

    /// `button_check()`, reading the pin at level `pinHigh` at time `now`.
    method Check(pinHigh: bool, now: U32) returns (pressedEdge: bool)
      modifies this
      ensures (Snapshot(), pressedEdge) == ButtonStep(old(Snapshot()), pinHigh, now)
    {
      var current := !pinHigh;
      if current && !lastState {
        if Sub32(now, lastPress) > Debounce {
          lastPress := now;
          lastState := current;
          return true;
        }
      }
      lastState := current;
      return false;
    }
  }
}

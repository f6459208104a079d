/// The potentiometer front end of the firmware (`read_pot_with_deadzone`):
/// eight 12-bit ADC readings are averaged, centred on the mid-scale value,
/// zeroed inside a deadzone and scaled linearly to a command in -255..255.
///
/// The source scales with `float` arithmetic (`centered / 2047.0f * 255.0f`,
/// then a cast to `int`); the model computes the same quotient exactly and
/// truncates toward zero as the cast does.
module Pots {
  import opened Ints

  const AdcMax: int := 4095
  /// `ADC_MAX / 2`, the reading at mid travel.
  const Mid: int := AdcMax / 2
  const Deadzone: int := 600
  /// Readings averaged per call.
  const Oversample: nat := 8
  /// Smallest non-zero command magnitude: the scaled value at the deadzone edge.
  const MinActive: int := 74

  predicate IsReading(v: int)
  {
    0 <= v <= AdcMax
  }

  predicate IsReadings(samples: seq<int>)
  {
    |samples| == Oversample && forall i :: 0 <= i < |samples| ==> IsReading(samples[i])
  }

  function Sum(s: seq<int>): int
  {
    if s == [] then 0 else Sum(s[..|s| - 1]) + s[|s| - 1]
  }

  lemma {:induction false} SumBounds(s: seq<int>)
    requires forall i :: 0 <= i < |s| ==> IsReading(s[i])
    ensures 0 <= Sum(s) <= |s| * AdcMax
  {
    if s != [] {
      SumBounds(s[..|s| - 1]);
    }
  }

  /// `sum / 8` over the eight readings: again a 12-bit reading.
  function Average(samples: seq<int>): (raw: int)
    requires IsReadings(samples)
    ensures IsReading(raw)
  {
    SumBounds(samples);
    Sum(samples) / Oversample
  }

  /// The command for an averaged reading.
  function PotCommand(raw: int): (cmd: int)
    ensures -255 <= cmd <= 255
    ensures cmd == 0 <==> Abs(raw - Mid) < Deadzone
    ensures cmd > 0 <==> raw - Mid >= Deadzone
    ensures cmd < 0 <==> raw - Mid <= -Deadzone
    ensures Abs(raw - Mid) >= Deadzone ==> Abs(cmd) >= MinActive
    // on 12-bit readings the clamp never binds: the scaling is linear
    ensures IsReading(raw) && Abs(raw - Mid) >= Deadzone ==> cmd == TruncDiv((raw - Mid) * 255, Mid)
  {
    var centered := raw - Mid;
    if Abs(centered) < Deadzone then 0
    else
      ScaledBounds(centered);
      Clamp(TruncDiv(centered * 255, Mid), -255, 255)
  }

  /// Outside the deadzone the scaled value has the sign of the deflection
  /// and a magnitude of at least 74; for a 12-bit reading at most 255.
  lemma ScaledBounds(centered: int)
    requires Abs(centered) >= Deadzone
    ensures var q := TruncDiv(centered * 255, Mid);
            && Abs(q) >= MinActive
            && (q > 0 <==> centered > 0)
            && (Abs(centered) <= Mid + 1 ==> Abs(q) <= 255)
  {
    var a := centered * 255;
    var q := TruncDiv(a, Mid);
    assert Abs(a) == Abs(centered) * 255;
    assert Abs(a) >= Deadzone * 255;
    if Abs(q) < MinActive {
      MulMonotone(Abs(q) + 1, MinActive, Mid);
      assert false;
    }
    if Abs(centered) <= Mid + 1 && Abs(q) > 255 {
      MulMonotone(256, Abs(q), Mid);
      assert false;
    }
  }

  /// The response is odd: a deflection below mid gives the negated command
  /// of the same deflection above mid.
  lemma PotCommandOdd(d: int)
    ensures PotCommand(Mid - d) == -PotCommand(Mid + d)
  {
    TruncDivNeg(d * 255, Mid);
    assert (-d) * 255 == -(d * 255);
  }

  /// The response never decreases as the knob turns up.
  lemma PotCommandMonotone(raw1: int, raw2: int)
    requires raw1 <= raw2
    ensures PotCommand(raw1) <= PotCommand(raw2)
  {
    TruncDivMonotone((raw1 - Mid) * 255, (raw2 - Mid) * 255, Mid);
  }

  /// `read_pot_with_deadzone` over the eight readings it takes.
  method ReadPotWithDeadzone(samples: seq<int>) returns (cmd: int)
    requires IsReadings(samples)
    ensures cmd == PotCommand(Average(samples))
  {
    var sum := 0;
    for i := 0 to Oversample
      invariant sum == Sum(samples[..i])
    {
      assert samples[..i + 1][..i] == samples[..i];
      sum := sum + samples[i];
    }
    assert samples[..Oversample] == samples;
    var raw := sum / Oversample;
    var centered := raw - Mid;
    if Abs(centered) < Deadzone {
      return 0;
    }
    var scaled := TruncDiv(centered * 255, Mid);
    if scaled > 255 {
      scaled := 255;
    }
    if scaled < -255 {
      scaled := -255;
    }
    cmd := scaled;
  }
}

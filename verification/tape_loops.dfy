/** Bookkeeping in loops of tape for the current device revision: the size
    of a full roll, the clamp every stored value passes through, the inversion
    applied when the direction changes and the percentage shown to operators. */
module TapeLoops {
  import opened Wrappers

  /** A Tango `int16` device property. */
  type Int16 = x: int | -0x8000 <= x < 0x8000

  function Max(a: real, b: real): real { if a >= b then a else b }

  function Min(a: real, b: real): real { if a <= b then a else b }

  function Abs(x: real): real { if x < 0.0 then -x else x }

  /** The device properties that size the roll: tape thickness in
      micrometres and the empty and full spool radii in millimetres. */
  datatype RollProperties = RollProperties(thicknessUm: Int16, innerRadiusMm: Int16, outerRadiusMm: Int16)

  /** The property defaults: 50 um tape between radii 15 mm and 60 mm. */
  const DefaultRoll := RollProperties(50, 15, 60)

  /** Why `init_device` can fail before the device comes up. */
  datatype InitError =
    | ZeroThickness      // the division computing the full roll raises
    | MissingLoopsLeft   // no persisted `LoopsLeft`, so the first clamp raises

  /** The number of loops a full spool holds: the radial room between the
      two radii divided by the thickness of one layer, both in millimetres. */
  function FullTapeLoops(p: RollProperties): (r: Result<real, InitError>)
    ensures r.Err? <==> p.thicknessUm == 0
    ensures r.Err? ==> r.error == ZeroThickness
    // one layer per loop: a full roll's layers exactly fill the radial room
    ensures r.Ok? ==> r.value * (p.thicknessUm as real / 1000.0) == (p.outerRadiusMm - p.innerRadiusMm) as real
    ensures r.Ok? && p.thicknessUm > 0 ==> (r.value >= 0.0 <==> p.outerRadiusMm >= p.innerRadiusMm)
  {
    if p.thicknessUm == 0 then Err(ZeroThickness)
    else Ok((p.outerRadiusMm - p.innerRadiusMm) as real / (p.thicknessUm as real / 1000.0))
  }

  /** With the default properties a full roll is 900 loops. */
  lemma DefaultRollIs900Loops()
    ensures FullTapeLoops(DefaultRoll) == Ok(900.0)
  {
  }

  /** The stored loops value: `min(max(0, value), full)`. For a negative
      `full` (outer radius below inner) the result is `full` itself. */
  function Clamp(value: real, full: real): (r: real)
    ensures full >= 0.0 ==> 0.0 <= r <= full
    ensures 0.0 <= value <= full ==> r == value
    ensures value < 0.0 <= full ==> r == 0.0
    ensures value > full ==> r == full
    ensures full < 0.0 ==> r == full
  {
    Min(Max(0.0, value), full)
  }

  /** The clamped value is the point of `[0, full]` nearest to the input. */
  lemma ClampIsNearest(value: real, full: real, y: real)
    requires 0.0 <= y <= full
    ensures Abs(Clamp(value, full) - value) <= Abs(y - value)
  {
  }

  /** Clamping a clamped value changes nothing. */
  lemma ClampIdempotent(value: real, full: real)
    ensures Clamp(Clamp(value, full), full) == Clamp(value, full)
  {
  }

  /** Loops left measured from the other end of the roll, as stored after a
      direction change. */
  function Invert(loops: real, full: real): (r: real)
    ensures full >= 0.0 ==> 0.0 <= r <= full
    ensures 0.0 <= loops <= full ==> r + loops == full
  {
    Clamp(full - loops, full)
  }

  /** Inverting twice gives back any in-range value. */
  lemma InvertInvolution(loops: real, full: real)
    requires 0.0 <= loops <= full
    ensures Invert(Invert(loops, full), full) == loops
  {
  }

  /** Tape progress in percent, `(1 - loops/full) * 100`; `None` where
      Python raises ZeroDivisionError because the roll has no room. */
  function Progress(loops: real, full: real): (r: Option<real>)
    ensures r.None? <==> full == 0.0
    ensures r.Some? && 0.0 <= loops <= full ==> 0.0 <= r.value <= 100.0
    ensures r.Some? ==> (r.value == 100.0 <==> loops == 0.0)
    ensures r.Some? ==> (r.value == 0.0 <==> loops == full)
  {
    if full == 0.0 then None
    else
      var ratio := loops / full;
      assert 0.0 <= loops <= full ==> ratio <= 1.0 by {
        if 0.0 <= loops <= full {
          assert ratio * full == loops;
        }
      }
      Some((1.0 - ratio) * 100.0)
  }

  /** The loops left that a given progress percentage stands for. */
  function LoopsAtProgress(percent: real, full: real): real
  {
    full * (1.0 - percent / 100.0)
  }

  /** Progress determines the loops left: reading the percentage back into
      loops recovers the stored value. */
  lemma ProgressRoundTrip(loops: real, full: real)
    requires full != 0.0
    ensures Progress(loops, full).Some?
    ensures LoopsAtProgress(Progress(loops, full).value, full) == loops
  {
    var ratio := loops / full;
    assert ratio * full == loops;
    calc {
      LoopsAtProgress(Progress(loops, full).value, full);
      full * (1.0 - ((1.0 - ratio) * 100.0) / 100.0);
      { assert ((1.0 - ratio) * 100.0) / 100.0 == 1.0 - ratio; }
      full * ratio;
    }
  }

  /** Every percentage is shown for exactly one loops value. */
  lemma LoopsAtProgressRoundTrip(percent: real, full: real)
    requires full != 0.0
    ensures Progress(LoopsAtProgress(percent, full), full) == Some(percent)
  {
    var share := 1.0 - percent / 100.0;
    var loops := LoopsAtProgress(percent, full);
    var ratio := loops / full;
    assert ratio * full == share * full;
    assert (ratio - share) * full == 0.0;
    assert ratio == share;
    assert (1.0 - share) * 100.0 == percent;
  }
}

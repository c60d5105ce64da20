/**
 * The value transformation of a setValue action (executeSetValue in
 * src/profiles/ProfileManager.js): the raw MIDI value and its linear rescale.
 */
module Scale {
  import opened Wrappers
  import opened Json
  import opened Midi

  /** The `scale` object of a setValue action; None is a field left out. */
  datatype ScaleRange = ScaleRange(midiMin: Option<real>, midiMax: Option<real>, lrMin: Option<real>, lrMax: Option<real>)

  const DefaultMidiMin: real := 0.0
  const DefaultMidiMax: real := 127.0

  /** `midiMessage.value || midiMessage.velocity || 0`: a zero value falls through to the velocity. */
  function RawValue(e: MidiEvent): (r: int)
    ensures e.value.Some? && e.value.value != 0 ==> r == e.value.value
    ensures (e.value.None? || e.value.value == 0) && e.velocity.Some? ==> r == e.velocity.value
    ensures (e.value.None? || e.value.value == 0) && e.velocity.None? ==> r == 0
  {
    if e.value.Some? && e.value.value != 0 then e.value.value
    else if e.velocity.Some? && e.velocity.value != 0 then e.velocity.value
    else 0
  }

  /** Normalise into [midiMin, midiMax] and stretch onto [lrMin, lrMax]; nothing is clamped. */
  function Rescale(v: real, midiMin: real, midiMax: real, lrMin: real, lrMax: real): (r: real)
    requires midiMax != midiMin
    ensures (r - lrMin) * (midiMax - midiMin) == (v - midiMin) * (lrMax - lrMin)
  {
    var n := (v - midiMin) / (midiMax - midiMin);
    StretchLine(n, v - midiMin, midiMax - midiMin, lrMax - lrMin);
    lrMin + n * (lrMax - lrMin)
  }

  /** If n is the fraction x / d, then n * l scaled back by d is x * l. */
  lemma StretchLine(n: real, x: real, d: real, l: real)
    requires d != 0.0 && n == x / d
    ensures (n * l) * d == x * l
  {
    assert n * d == x;
    calc {
      (n * l) * d;
      (n * d) * l;
      x * l;
    }
  }

  /** The inverse map, from the Lightroom range back to the MIDI range. */
  function Unscale(y: real, midiMin: real, midiMax: real, lrMin: real, lrMax: real): real
    requires lrMax != lrMin
  {
    midiMin + ((y - lrMin) / (lrMax - lrMin)) * (midiMax - midiMin)
  }

  /** midiMin is sent as lrMin and midiMax as lrMax, exactly. */
  lemma RescaleEndpoints(midiMin: real, midiMax: real, lrMin: real, lrMax: real)
    requires midiMax != midiMin
    ensures Rescale(midiMin, midiMin, midiMax, lrMin, lrMax) == lrMin
    ensures Rescale(midiMax, midiMin, midiMax, lrMin, lrMax) == lrMax
  {
  }

  /** With a non-degenerate target range the rescale loses nothing: Unscale undoes it. */
  lemma RescaleInvertible(v: real, midiMin: real, midiMax: real, lrMin: real, lrMax: real)
    requires midiMax != midiMin && lrMax != lrMin
    ensures Unscale(Rescale(v, midiMin, midiMax, lrMin, lrMax), midiMin, midiMax, lrMin, lrMax) == v
  {
    var n := (v - midiMin) / (midiMax - midiMin);
    var y := Rescale(v, midiMin, midiMax, lrMin, lrMax);
    assert y - lrMin == n * (lrMax - lrMin);
    assert (y - lrMin) / (lrMax - lrMin) == n;
    assert n * (midiMax - midiMin) == v - midiMin;
  }

  /** Over increasing ranges the rescale is strictly increasing. */
  lemma RescaleIncreasing(v: real, w: real, midiMin: real, midiMax: real, lrMin: real, lrMax: real)
    requires midiMin < midiMax && lrMin < lrMax && v < w
    ensures Rescale(v, midiMin, midiMax, lrMin, lrMax) < Rescale(w, midiMin, midiMax, lrMin, lrMax)
  {
    var d, l := midiMax - midiMin, lrMax - lrMin;
    var nv, nw := (v - midiMin) / d, (w - midiMin) / d;
    assert nw - nv == (w - v) / d;
    assert (w - v) / d > 0.0;
    assert (nw - nv) * l > 0.0;
    assert nw * l - nv * l == (nw - nv) * l;
    assert Rescale(v, midiMin, midiMax, lrMin, lrMax) == lrMin + nv * l;
    assert Rescale(w, midiMin, midiMax, lrMin, lrMax) == lrMin + nw * l;
    assert lrMin + nv * l < lrMin + nw * l;
  }

  /** No clamping: an input beyond midiMax is sent beyond lrMax. */
  lemma RescaleUnclamped(v: real, midiMin: real, midiMax: real, lrMin: real, lrMax: real)
    requires midiMin < midiMax && lrMin < lrMax && v > midiMax
    ensures Rescale(v, midiMin, midiMax, lrMin, lrMax) > lrMax
  {
    RescaleIncreasing(midiMax, v, midiMin, midiMax, lrMin, lrMax);
    RescaleEndpoints(midiMin, midiMax, lrMin, lrMax);
  }

  /**
   * The value setValue is called with. A degenerate source range or a missing
   * target bound gives NaN or an infinity, which the request carries as null.
   */
  function ScaledValue(raw: int, scale: Option<ScaleRange>): (r: Value)
    ensures scale.None? ==> r == Num(raw as real)
    ensures r.Num? || r.Null?
    ensures scale.Some? ==>
              var lo, hi := scale.value.midiMin.GetOr(DefaultMidiMin), scale.value.midiMax.GetOr(DefaultMidiMax);
              && (r.Null? <==> hi == lo || scale.value.lrMin.None? || scale.value.lrMax.None?)
              && (r.Num? ==> r.x == Rescale(raw as real, lo, hi, scale.value.lrMin.value, scale.value.lrMax.value))
  {
    match scale
    case None => Num(raw as real)
    case Some(s) =>
      var lo := s.midiMin.GetOr(DefaultMidiMin);
      var hi := s.midiMax.GetOr(DefaultMidiMax);
      if hi == lo || s.lrMin.None? || s.lrMax.None? then Null
      else Num(Rescale(raw as real, lo, hi, s.lrMin.value, s.lrMax.value))
  }

  /** With the default MIDI range, 0 is sent as lrMin and 127 as lrMax. */
  lemma DefaultRangeEndpoints(lrMin: real, lrMax: real)
    ensures ScaledValue(0, Some(ScaleRange(None, None, Some(lrMin), Some(lrMax)))) == Num(lrMin)
    ensures ScaledValue(127, Some(ScaleRange(None, None, Some(lrMin), Some(lrMax)))) == Num(lrMax)
  {
    RescaleEndpoints(DefaultMidiMin, DefaultMidiMax, lrMin, lrMax);
  }
}

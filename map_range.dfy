/** A bidirectional affine map between a Tuya value interval and a HomeKit value interval. */
module MapRanges {
  import opened JsValue

  datatype MapRange = MapRange(tuyaStart: real, tuyaEnd: real, homekitStart: real, homekitEnd: real)
  {
    /** The slope of the Tuya-to-HomeKit direction. */
    function Slope(): real
      requires tuyaEnd != tuyaStart
    {
      (homekitEnd - homekitStart) / (tuyaEnd - tuyaStart)
    }

    /** Linear interpolation from the Tuya interval onto the HomeKit interval. */
    function TuyaToHomekit(x: real): (y: real)
      requires tuyaEnd != tuyaStart
      ensures (y - homekitStart) * (tuyaEnd - tuyaStart) == (x - tuyaStart) * (homekitEnd - homekitStart)
    {
      (x - tuyaStart) * (homekitEnd - homekitStart) / (tuyaEnd - tuyaStart) + homekitStart
    }

    /** Linear interpolation from the HomeKit interval back onto the Tuya interval. */
    function HomekitToTuya(y: real): (x: real)
      requires homekitEnd != homekitStart
      ensures (x - tuyaStart) * (homekitEnd - homekitStart) == (y - homekitStart) * (tuyaEnd - tuyaStart)
    {
      (y - homekitStart) * (tuyaEnd - tuyaStart) / (homekitEnd - homekitStart) + tuyaStart
    }

    /**
     * The JavaScript result of `tuyaToHomekit`: a zero-width Tuya interval divides
     * by zero, which gives NaN or an infinity, both outside the reals (`None`).
     */
    function ToHomekit(x: real): (r: Option<real>)
      ensures r.Some? <==> tuyaEnd != tuyaStart
      ensures r.Some? ==> (r.value - homekitStart) * (tuyaEnd - tuyaStart) == (x - tuyaStart) * (homekitEnd - homekitStart)
    {
      if tuyaEnd == tuyaStart then None else Some(TuyaToHomekit(x))
    }

    /** The JavaScript result of `homekitToTuya`, `None` on a zero-width HomeKit interval. */
    function ToTuya(y: real): (r: Option<real>)
      ensures r.Some? <==> homekitEnd != homekitStart
      ensures r.Some? ==> (r.value - tuyaStart) * (homekitEnd - homekitStart) == (y - homekitStart) * (tuyaEnd - tuyaStart)
    {
      if homekitEnd == homekitStart then None else Some(HomekitToTuya(y))
    }

    /**
     * `homekitToTuya` as JavaScript evaluates it, infinities included. On a zero-width
     * HomeKit interval the divisor is +0, so the quotient is an infinity with the sign of
     * the numerator, or NaN when the numerator is zero; adding `tuyaStart` keeps it.
     */
    function HomekitToTuyaJs(y: real): (r: Quotient)
      ensures r.Finite? <==> ToTuya(y).Some?
      ensures r.Finite? ==> ToTuya(y) == Some(r.value)
      ensures r == PlusInfinity <==> homekitEnd == homekitStart && (y - homekitStart) * (tuyaEnd - tuyaStart) > 0.0
      ensures r == MinusInfinity <==> homekitEnd == homekitStart && (y - homekitStart) * (tuyaEnd - tuyaStart) < 0.0
    {
      if homekitEnd != homekitStart then Finite(HomekitToTuya(y))
      else
        var numerator := (y - homekitStart) * (tuyaEnd - tuyaStart);
        if numerator > 0.0 then PlusInfinity
        else if numerator < 0.0 then MinusInfinity
        else NotANumber
    }
  }

  /** A JavaScript quotient: a real, an infinity of either sign, or NaN. */
  datatype Quotient = Finite(value: real) | PlusInfinity | MinusInfinity | NotANumber

  /** The first half of `MapRange.tuya(start, end).homeKit(toStart, toEnd)`. */
  datatype TuyaInterval = TuyaInterval(start: real, end: real)
  {
    function HomeKit(toStart: real, toEnd: real): MapRange
    {
      MapRange(start, end, toStart, toEnd)
    }
  }

  function Tuya(start: real, end: real): TuyaInterval
  {
    TuyaInterval(start, end)
  }

  /** The builder stores its four arguments in order. */
  lemma BuilderStores(a: real, b: real, c: real, d: real)
    ensures var m := Tuya(a, b).HomeKit(c, d);
      m.tuyaStart == a && m.tuyaEnd == b && m.homekitStart == c && m.homekitEnd == d
  {
  }

  /** The Tuya endpoints land on the HomeKit endpoints. */
  lemma TuyaEndpoints(m: MapRange)
    requires m.tuyaStart != m.tuyaEnd
    ensures m.TuyaToHomekit(m.tuyaStart) == m.homekitStart
    ensures m.TuyaToHomekit(m.tuyaEnd) == m.homekitEnd
  {
  }

  /** The HomeKit endpoints land on the Tuya endpoints. */
  lemma HomekitEndpoints(m: MapRange)
    requires m.homekitStart != m.homekitEnd
    ensures m.HomekitToTuya(m.homekitStart) == m.tuyaStart
    ensures m.HomekitToTuya(m.homekitEnd) == m.tuyaEnd
  {
  }

  /** Going to HomeKit and back returns the Tuya value. */
  lemma TuyaRoundTrip(m: MapRange, x: real)
    requires m.tuyaStart != m.tuyaEnd && m.homekitStart != m.homekitEnd
    ensures m.HomekitToTuya(m.TuyaToHomekit(x)) == x
  {
    var y := m.TuyaToHomekit(x);
    var z := m.HomekitToTuya(y);
    var dt := m.tuyaEnd - m.tuyaStart;
    var dh := m.homekitEnd - m.homekitStart;
    assert (y - m.homekitStart) * dt == (x - m.tuyaStart) * dh;
    assert (z - m.tuyaStart) * dh == (y - m.homekitStart) * dt;
    assert (z - m.tuyaStart) * dh == (x - m.tuyaStart) * dh;
    CancelFactor(z - m.tuyaStart, x - m.tuyaStart, dh);
  }

  /** Going to Tuya and back returns the HomeKit value. */
  lemma HomekitRoundTrip(m: MapRange, y: real)
    requires m.tuyaStart != m.tuyaEnd && m.homekitStart != m.homekitEnd
    ensures m.TuyaToHomekit(m.HomekitToTuya(y)) == y
  {
    var x := m.HomekitToTuya(y);
    var w := m.TuyaToHomekit(x);
    var dt := m.tuyaEnd - m.tuyaStart;
    var dh := m.homekitEnd - m.homekitStart;
    assert (x - m.tuyaStart) * dh == (y - m.homekitStart) * dt;
    assert (w - m.homekitStart) * dt == (x - m.tuyaStart) * dh;
    assert (w - m.homekitStart) * dt == (y - m.homekitStart) * dt;
    CancelFactor(w - m.homekitStart, y - m.homekitStart, dt);
  }

  lemma CancelFactor(a: real, b: real, c: real)
    requires c != 0.0 && a * c == b * c
    ensures a == b
  {
    assert (a - b) * c == 0.0;
  }

  /** The map is affine: differences scale by the slope. */
  lemma Affine(m: MapRange, x1: real, x2: real)
    requires m.tuyaStart != m.tuyaEnd
    ensures m.TuyaToHomekit(x2) - m.TuyaToHomekit(x1) == (x2 - x1) * m.Slope()
  {
    var dt := m.tuyaEnd - m.tuyaStart;
    var dh := m.homekitEnd - m.homekitStart;
    var d := m.TuyaToHomekit(x2) - m.TuyaToHomekit(x1);
    assert d * dt == (x2 - x1) * dh;
    assert m.Slope() * dt == dh;
    assert (x2 - x1) * m.Slope() * dt == (x2 - x1) * dh;
    CancelFactor(d, (x2 - x1) * m.Slope(), dt);
  }

  /** Intervals with the same orientation give an increasing map. */
  lemma IncreasingWhenAligned(m: MapRange, x1: real, x2: real)
    requires (m.tuyaStart < m.tuyaEnd && m.homekitStart < m.homekitEnd)
          || (m.tuyaStart > m.tuyaEnd && m.homekitStart > m.homekitEnd)
    requires x1 < x2
    ensures m.TuyaToHomekit(x1) < m.TuyaToHomekit(x2)
  {
    Affine(m, x1, x2);
    SlopeSign(m);
  }

  /** Intervals with opposite orientations give a decreasing map, as with a Kelvin-to-mired range. */
  lemma DecreasingWhenOpposed(m: MapRange, x1: real, x2: real)
    requires (m.tuyaStart < m.tuyaEnd && m.homekitStart > m.homekitEnd)
          || (m.tuyaStart > m.tuyaEnd && m.homekitStart < m.homekitEnd)
    requires x1 < x2
    ensures m.TuyaToHomekit(x1) > m.TuyaToHomekit(x2)
  {
    Affine(m, x1, x2);
    SlopeSign(m);
  }

  lemma SlopeSign(m: MapRange)
    requires m.tuyaStart != m.tuyaEnd
    ensures m.Slope() > 0.0 <==> (m.tuyaEnd - m.tuyaStart) * (m.homekitEnd - m.homekitStart) > 0.0
    ensures m.Slope() < 0.0 <==> (m.tuyaEnd - m.tuyaStart) * (m.homekitEnd - m.homekitStart) < 0.0
  {
    var dt := m.tuyaEnd - m.tuyaStart;
    var dh := m.homekitEnd - m.homekitStart;
    assert m.Slope() * dt == dh;
    assert m.Slope() * (dt * dt) == dh * dt;
    assert dt * dt > 0.0;
  }
}

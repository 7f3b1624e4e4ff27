/** The four working colour spaces of the calibration models: plain or
    linearised sRGB, and CIE XYZ computed from plain or linearised sRGB, with
    the conversions from and back to BGR buffers. The gamma power function is
    a parameter. */
module ColorSpaces {
  import opened Numeric
  import opened Pixels

  /** `Math.pow`, left abstract. */
  type Pow = (real, real) -> real

  datatype ColorSpace = Rgb | RgbLinear | Xyz | XyzLinear
  {
    predicate IsXyz() { this == Xyz || this == XyzLinear }
    predicate IsLinear() { this == RgbLinear || this == XyzLinear }
  }

  /** The enum's constructor table read backwards: the space with these flags. */
  function SpaceOf(isXyz: bool, isLinear: bool): (s: ColorSpace)
    ensures s.IsXyz() == isXyz && s.IsLinear() == isLinear
  {
    if isXyz then (if isLinear then XyzLinear else Xyz)
    else (if isLinear then RgbLinear else Rgb)
  }

  /** Each space is determined by its two flags: the table is a bijection. */
  lemma FlagTable(s: ColorSpace)
    ensures SpaceOf(s.IsXyz(), s.IsLinear()) == s
    ensures s == Rgb <==> !s.IsXyz() && !s.IsLinear()
    ensures s == RgbLinear <==> !s.IsXyz() && s.IsLinear()
    ensures s == Xyz <==> s.IsXyz() && !s.IsLinear()
    ensures s == XyzLinear <==> s.IsXyz() && s.IsLinear()
  {
  }

  /** sRGB channel (0..255) to linear light (0..100). */
  function Linearize(c: real, pow: Pow): real
  {
    var v := c / 255.0;
    (if v > 0.04045 then pow((v + 0.055) / 1.055, 2.4) else v / 12.92) * 100.0
  }

  /** Linear light (0..100) back to an sRGB channel (0..255). */
  function InverseLinearize(c: real, pow: Pow): real
  {
    var v := c / 100.0;
    (if v > 0.0031308 then 1.055 * pow(v, 1.0 / 2.4) - 0.055 else v * 12.92) * 255.0
  }

  /** On the linear segments of the curve the two conversions undo each other, in both orders. */
  lemma LinearSegmentsInverse(c: real, pow: Pow)
    ensures c / 255.0 <= 0.04045 && Linearize(c, pow) / 100.0 <= 0.0031308 ==>
      InverseLinearize(Linearize(c, pow), pow) == c
    ensures c / 100.0 <= 0.0031308 && InverseLinearize(c, pow) / 255.0 <= 0.04045 ==>
      Linearize(InverseLinearize(c, pow), pow) == c
  {
  }

  /** Dark channels (up to 10 of 255) stay on the linear segment, below 0.31 of linear light. */
  lemma LinearSegmentBounds(c: real, pow: Pow)
    requires 0.0 <= c <= 10.0
    ensures Linearize(c, pow) == c / 255.0 / 12.92 * 100.0
    ensures 0.0 <= Linearize(c, pow) <= 0.31
  {
  }

  /** sRGB to XYZ (the forward matrix of IEC 61966-2-1, clause 5), as (X, Y, Z). */
  function ToXyz(r: real, g: real, b: real): (t: Triple)
  {
    Triple(r * 0.4124 + g * 0.3576 + b * 0.1805,
           r * 0.2126 + g * 0.7152 + b * 0.0722,
           r * 0.0193 + g * 0.1192 + b * 0.9505)
  }

  /** XYZ back to sRGB (the inverse matrix), in B, G, R order. */
  function FromXyz(x: real, y: real, z: real): (t: Triple)
  {
    Triple(0.0556434 * x - 0.2040259 * y + 1.0572252 * z,
           -0.9692660 * x + 1.8760108 * y + 0.0415560 * z,
           3.2404542 * x - 1.5371385 * y - 0.4985314 * z)
  }

  function LinearizeAll(t: Triple, pow: Pow): Triple
  {
    Triple(Linearize(t.c0, pow), Linearize(t.c1, pow), Linearize(t.c2, pow))
  }

  function InverseLinearizeAll(t: Triple, pow: Pow): Triple
  {
    Triple(InverseLinearize(t.c0, pow), InverseLinearize(t.c1, pow), InverseLinearize(t.c2, pow))
  }

  /** What `convertFromBGR` leaves in the three slots for a BGR input: linearise
      first when the space is linear, then apply the XYZ matrix when it is XYZ. */
  function FromBgr(space: ColorSpace, bgr: Triple, pow: Pow): Triple
  {
    var lin := if space.IsLinear() then LinearizeAll(bgr, pow) else bgr;
    if space.IsXyz() then ToXyz(lin.c2, lin.c1, lin.c0) else lin
  }

  /** What `convertToBGR` leaves in the three slots: the inverse matrix first,
      then the inverse curve. */
  function ToBgr(space: ColorSpace, c: Triple, pow: Pow): Triple
  {
    var bgr := if space.IsXyz() then FromXyz(c.c0, c.c1, c.c2) else c;
    if space.IsLinear() then InverseLinearizeAll(bgr, pow) else bgr
  }

  /** Plain RGB converts nothing in either direction. */
  lemma RgbIsIdentity(t: Triple, pow: Pow)
    ensures FromBgr(Rgb, t, pow) == t && ToBgr(Rgb, t, pow) == t
  {
  }

  /** The linear XYZ space is the linear RGB space followed by the XYZ matrix,
      and its inverse is the inverse matrix followed by the inverse curve. */
  lemma LinearisationOrder(t: Triple, pow: Pow)
    ensures FromBgr(XyzLinear, t, pow) == FromBgr(Xyz, FromBgr(RgbLinear, t, pow), pow)
    ensures ToBgr(XyzLinear, t, pow) == ToBgr(RgbLinear, ToBgr(Xyz, t, pow), pow)
  {
  }

  /** Without the curve, BGR -> XYZ -> BGR returns every channel of a
      0..255 colour to within 0.1 (the two published matrices are inverse
      only up to their seven-digit rounding). */
  lemma XyzRoundTrip(t: Triple, pow: Pow)
    requires 0.0 <= t.c0 <= 255.0 && 0.0 <= t.c1 <= 255.0 && 0.0 <= t.c2 <= 255.0
    ensures var u := ToBgr(Xyz, FromBgr(Xyz, t, pow), pow);
      Abs(u.c0 - t.c0) < 0.1 && Abs(u.c1 - t.c1) < 0.1 && Abs(u.c2 - t.c2) < 0.1
  {
    var r, g, b := t.c2, t.c1, t.c0;
    var x := ToXyz(r, g, b);
    var u := FromXyz(x.c0, x.c1, x.c2);
    // Each output is the input plus a combination of the inputs with tiny coefficients.
    assert u.c0 == b + (-0.00002412182) * r + 0.0 * g + 0.00020551632 * b;
    assert u.c1 == g + (-0.00008337152) * r + 0.00006687776 * g + (-0.00000555524) * b;
    assert u.c2 == r + (-0.00005398904) * r + 0.00000002384 * g + 0.0000664877 * b;
  }

  /** Under the linear XYZ space the pure primaries at full intensity land on
      the matrix columns scaled to 100, given only that 1 to any power is 1. */
  lemma LinearPrimaries(pow: Pow)
    requires pow(1.0, 2.4) == 1.0
    ensures FromBgr(XyzLinear, Triple(0.0, 0.0, 255.0), pow) == Triple(41.24, 21.26, 1.93)
    ensures FromBgr(XyzLinear, Triple(0.0, 255.0, 0.0), pow) == Triple(35.76, 71.52, 11.92)
    ensures FromBgr(XyzLinear, Triple(255.0, 0.0, 0.0), pow) == Triple(18.05, 7.22, 95.05)
  {
    assert Linearize(255.0, pow) == 100.0 by {
      assert (255.0 / 255.0 + 0.055) / 1.055 == 1.0;
    }
    assert Linearize(0.0, pow) == 0.0;
  }

  /** `convertFromBGR(color, inplace)`. Out of place, the three channels are
      copied into a fresh buffer at position 0, which is converted and
      returned while the caller's buffer stays as it was; in place, the
      caller's three slots are overwritten and the same buffer is returned. */
  method ConvertFromBgr(space: ColorSpace, buf: array<real>, pos: nat, inplace: bool, pow: Pow)
    returns (out: array<real>, outPos: nat)
    requires pos + 3 <= buf.Length
    modifies if inplace then {buf} else {}
    ensures outPos + 3 <= out.Length
    ensures inplace ==> (out == buf && outPos == pos &&
      buf[..] == WithTriple(old(buf[..]), pos, FromBgr(space, old(TripleAt(buf, pos)), pow)))
    ensures !inplace ==> (fresh(out) && out.Length == 3 && outPos == 0 && buf[..] == old(buf[..]) &&
      out[..] == WithTriple(old(buf[pos..pos + 3]), 0, FromBgr(space, old(TripleAt(buf, pos)), pow)))
  {
    if !inplace {
      out := new real[3];
      out[0], out[1], out[2] := Channel(buf, pos, 0), Channel(buf, pos, 1), Channel(buf, pos, 2);
      outPos := 0;
    } else {
      out, outPos := buf, pos;
    }
    var b := Channel(out, outPos, 0);
    var g := Channel(out, outPos, 1);
    var r := Channel(out, outPos, 2);
    if space.IsLinear() {
      b := Linearize(b, pow);
      g := Linearize(g, pow);
      r := Linearize(r, pow);
    }
    if space.IsXyz() {
      out[outPos] := r * 0.4124 + g * 0.3576 + b * 0.1805;
      out[outPos + 1] := r * 0.2126 + g * 0.7152 + b * 0.0722;
      out[outPos + 2] := r * 0.0193 + g * 0.1192 + b * 0.9505;
    } else {
      out[outPos] := b;
      out[outPos + 1] := g;
      out[outPos + 2] := r;
    }
  }

  /** `convertToBGR(color)`: overwrites the three slots at the position, first
      with the inverse matrix, then (reading back what was just written) with
      the inverse curve. */
  method ConvertToBgr(space: ColorSpace, buf: array<real>, pos: nat, pow: Pow)
    requires pos + 3 <= buf.Length
    modifies buf
    ensures buf[..] == WithTriple(old(buf[..]), pos, ToBgr(space, old(TripleAt(buf, pos)), pow))
  {
    if space.IsXyz() {
      var x := Channel(buf, pos, 0);
      var y := Channel(buf, pos, 1);
      var z := Channel(buf, pos, 2);
      buf[pos] := 0.0556434 * x - 0.2040259 * y + 1.0572252 * z;
      buf[pos + 1] := -0.9692660 * x + 1.8760108 * y + 0.0415560 * z;
      buf[pos + 2] := 3.2404542 * x - 1.5371385 * y - 0.4985314 * z;
    }
    if space.IsLinear() {
      buf[pos] := InverseLinearize(Channel(buf, pos, 0), pow);
      buf[pos + 1] := InverseLinearize(Channel(buf, pos, 1), pow);
      buf[pos + 2] := InverseLinearize(Channel(buf, pos, 2), pow);
    }
  }
}

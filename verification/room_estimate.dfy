/**
 * The per-room material estimate of the plan estimator: a bounding box in
 * pixels becomes a flooring area, a drywall area and a stud count.
 *
 * The source computes with Python floats from three process-wide constants.
 * Here those constants are exact reals, the source's formulas are kept as
 * reference functions over reals, and the estimate itself stores the two
 * areas as whole hundredths of a square foot.
 */
module RoomEstimates {

  /** Feet per pixel at the renderer's working resolution. */
  const PixelToFeet: real := 0.1
  /** Wall height used for the drywall surface, in feet. */
  const WallHeightFt: real := 8.0
  /** On-centre stud spacing, 16 inches, in feet. */
  const StudSpacingFt: real := 16.0 / 12.0

  /** A bounding box (x, y, width, height) in pixels, as OpenCV's boundingRect returns it. */
  datatype Rect = Rect(x: nat, y: nat, w: nat, h: nat)

  /**
   * A detected room. `flooring` and `drywall` are in hundredths of a square
   * foot: the source rounds both to two decimals, and both are whole
   * hundredths already (see MakeEstimate).
   */
  datatype RoomEstimate = RoomEstimate(rect: Rect, flooring: nat, drywall: nat, studs: nat)

  function Max(a: int, b: int): int { if a < b then b else a }

  function MaxReal(a: real, b: real): real { if a < b then b else a }

  /** The value in square feet of a quantity kept in hundredths. */
  function Sqft(hundredths: int): real { hundredths as real / 100.0 }

  /** Smallest integer not below x (numpy's ceil followed by int()). */
  function Ceil(x: real): (c: int)
    ensures x <= c as real < x + 1.0
  {
    -((-x).Floor)
  }

  /**
   * Python's round(x, 2): the nearest hundredth, ties to the even
   * hundredth.
   */
  function Round2(x: real): real {
    var y := x * 100.0;
    var f := y.Floor;
    var d := y - f as real;
    var n := if d < 0.5 then f
             else if d > 0.5 then f + 1
             else if f % 2 == 0 then f else f + 1;
    n as real / 100.0
  }

  // The source's formulas, over exact reals.

  function WidthFt(pixels: nat): real { pixels as real * PixelToFeet }

  function AreaSqft(w: nat, h: nat): real { WidthFt(w) * WidthFt(h) }

  function PerimeterFt(w: nat, h: nat): real { 2.0 * (WidthFt(w) + WidthFt(h)) }

  function DrywallSqft(w: nat, h: nat): real { PerimeterFt(w, h) * WallHeightFt }

  function StudCount(w: nat, h: nat): int { Max(1, Ceil(PerimeterFt(w, h) / StudSpacingFt)) }

  /** The ceiling is the one integer in [x, x + 1). */
  lemma CeilUnique(x: real, c: int)
    requires x <= c as real < x + 1.0
    ensures Ceil(x) == c
  {
    var d := Ceil(x);
    assert -1.0 < (d - c) as real < 1.0;
  }

  /** Rounding to two decimals leaves a whole number of hundredths unchanged. */
  lemma RoundHundredths(k: int)
    ensures Round2(Sqft(k)) == Sqft(k)
  {
    var y := Sqft(k) * 100.0;
    assert y == k as real;
    assert y.Floor == k;
  }

  /** (0.1 w)(0.1 h) is exactly w h hundredths of a square foot. */
  lemma AreaInHundredths(w: nat, h: nat)
    ensures AreaSqft(w, h) == Sqft(w * h)
  {
    assert (w * h) as real == w as real * h as real;
  }

  /** 2 (0.1 w + 0.1 h) 8 is exactly 160 (w + h) hundredths of a square foot. */
  lemma DrywallInHundredths(w: nat, h: nat)
    ensures DrywallSqft(w, h) == Sqft(160 * (w + h))
  {
  }

  /** The stud count is the ceiling of 3 (w + h) / 20, and at least one. */
  lemma StudsClosedForm(w: nat, h: nat)
    ensures StudCount(w, h) == Max(1, (3 * (w + h) + 19) / 20)
  {
    var s := 3 * (w + h);
    var q := (s + 19) / 20;
    assert PerimeterFt(w, h) / StudSpacingFt == s as real / 20.0;
    assert 20 * q >= s && 20 * (q - 1) < s;
    assert q as real >= s as real / 20.0;
    assert (q - 1) as real < s as real / 20.0;
    CeilUnique(s as real / 20.0, q);
  }

  /**
   * The estimate for one bounding box: the box unchanged, and the three
   * quantities of the source's formulas, the areas rounded to two decimals.
   */
  function MakeEstimate(r: Rect): (e: RoomEstimate)
    ensures e.rect == r
    ensures Sqft(e.flooring) == Round2(AreaSqft(r.w, r.h))
    ensures Sqft(e.drywall) == Round2(DrywallSqft(r.w, r.h))
    ensures e.studs == StudCount(r.w, r.h)
  {
    AreaInHundredths(r.w, r.h);
    RoundHundredths(r.w * r.h);
    DrywallInHundredths(r.w, r.h);
    RoundHundredths(160 * (r.w + r.h));
    StudsClosedForm(r.w, r.h);
    RoomEstimate(r, r.w * r.h, 160 * (r.w + r.h), Max(1, (3 * (r.w + r.h) + 19) / 20))
  }

  /**
   * The stud count is at least one and covers the perimeter: studs spaced
   * 16 inches apart along it, rounded up.
   */
  lemma StudsCoverPerimeter(r: Rect)
    ensures MakeEstimate(r).studs >= 1
    ensures MakeEstimate(r).studs as real * StudSpacingFt >= PerimeterFt(r.w, r.h)
    ensures MakeEstimate(r).studs == 1
            || (MakeEstimate(r).studs - 1) as real * StudSpacingFt < PerimeterFt(r.w, r.h)
  {
    var p := PerimeterFt(r.w, r.h) / StudSpacingFt;
    assert PerimeterFt(r.w, r.h) == p * StudSpacingFt;
    var c := Ceil(p);
    assert c as real * StudSpacingFt >= p * StudSpacingFt;
    assert (c - 1) as real * StudSpacingFt < p * StudSpacingFt;
  }

  /** Growing a box never lowers its stud count. */
  lemma StudsMonotone(r: Rect, s: Rect)
    requires r.w <= s.w && r.h <= s.h
    ensures MakeEstimate(r).studs <= MakeEstimate(s).studs
  {
    var a, b := 3 * (r.w + r.h) + 19, 3 * (s.w + s.h) + 19;
    assert 20 * (a / 20) <= a <= b < 20 * (b / 20) + 20;
  }

  /** A box with positive area gets positive flooring and drywall figures. */
  lemma EstimatePositive(r: Rect)
    requires r.w > 0 && r.h > 0
    ensures MakeEstimate(r).flooring > 0
    ensures MakeEstimate(r).drywall > 0
    ensures MakeEstimate(r).studs > 0
  {
  }
}

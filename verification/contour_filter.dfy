/**
 * The contour filtering policy of room detection: a contour, seen through
 * its bounding box, is dropped when it is too small for the image or when
 * it is the page frame. Survivors keep their order.
 */
module ContourFilter {
  import opened RoomEstimates

  /** Fraction of the image area below which a box is noise. */
  const MinAreaFraction: real := 0.0005
  /** Absolute area floor, in square pixels. */
  const MinAreaPixels: real := 2000.0
  /** A box this close to the image size in both directions is the page frame. */
  const FrameFraction: real := 0.95

  /** The area threshold, max(W H 0.0005, 2000). */
  function MinArea(width: nat, height: nat): real {
    MaxReal((width * height) as real * MinAreaFraction, MinAreaPixels)
  }

  /** The box covers at least 95% of the image in both directions. */
  predicate IsFrame(b: Rect, width: nat, height: nat) {
    b.w as real >= width as real * FrameFraction && b.h as real >= height as real * FrameFraction
  }

  /** Whether the filter keeps a box of a width x height image, as the source's two tests decide. */
  predicate Keep(b: Rect, width: nat, height: nat) {
    !((b.w * b.h) as real < MinArea(width, height)) && !IsFrame(b, width, height)
  }

  /**
   * The tests in whole numbers: the area must reach both 2000 and one
   * 2000th of the image, and the box must fall short of 95% of the
   * width or of 95% of the height (a box wide but not tall is kept).
   */
  lemma KeepExact(b: Rect, width: nat, height: nat)
    ensures Keep(b, width, height) <==>
              b.w * b.h >= 2000 && 2000 * (b.w * b.h) >= width * height
              && (20 * b.w < 19 * width || 20 * b.h < 19 * height)
  {
    var area, image := b.w * b.h, width * height;
    assert (image as real) * MinAreaFraction == (image as real) / 2000.0;
    assert (area as real < (image as real) / 2000.0) <==> 2000 * area < image;
  }

  /** A box that passes the filter has positive sides and an area of at least 2000. */
  lemma KeptBoxPositive(b: Rect, width: nat, height: nat)
    requires Keep(b, width, height)
    ensures b.w > 0 && b.h > 0 && b.w * b.h >= 2000
  {
    KeepExact(b, width, height);
  }

  /** The boxes the filter keeps, in input order (the specification of FilterContours). */
  function Kept(boxes: seq<Rect>, width: nat, height: nat): (r: seq<Rect>)
    ensures |r| <= |boxes|
    ensures forall b :: b in r ==> b in boxes && Keep(b, width, height)
    decreases |boxes|
  {
    if boxes == [] then []
    else
      var init := Kept(boxes[..|boxes| - 1], width, height);
      var last := boxes[|boxes| - 1];
      if Keep(last, width, height) then init + [last] else init
  }

  /** The filter loop: scan the boxes and append each one that passes both tests. */
  method FilterContours(boxes: seq<Rect>, width: nat, height: nat) returns (filtered: seq<Rect>)
    ensures filtered == Kept(boxes, width, height)
  {
    filtered := [];
    var i := 0;
    while i < |boxes|
      invariant 0 <= i <= |boxes|
      invariant filtered == Kept(boxes[..i], width, height)
    {
      var b := boxes[i];
      assert boxes[..i + 1][..i] == boxes[..i];
      if !((b.w * b.h) as real < MinArea(width, height)) && !IsFrame(b, width, height) {
        filtered := filtered + [b];
      }
      i := i + 1;
    }
    assert boxes[..i] == boxes;
  }

  /** Every box of the input that passes both tests survives. */
  lemma {:induction false} KeptComplete(boxes: seq<Rect>, width: nat, height: nat, b: Rect)
    requires b in boxes && Keep(b, width, height)
    ensures b in Kept(boxes, width, height)
    decreases |boxes|
  {
    var init := boxes[..|boxes| - 1];
    if b != boxes[|boxes| - 1] {
      assert b in init;
      KeptComplete(init, width, height, b);
    }
  }

  /**
   * Filtering commutes with concatenation: what survives from a + b is
   * what survives from a followed by what survives from b, so the
   * survivors keep their relative order.
   */
  lemma {:induction false} KeptAppend(a: seq<Rect>, b: seq<Rect>, width: nat, height: nat)
    ensures Kept(a + b, width, height) == Kept(a, width, height) + Kept(b, width, height)
    decreases |b|
  {
    if b == [] {
      assert a + b == a;
    } else {
      var b' := b[..|b| - 1];
      assert (a + b)[..|a + b| - 1] == a + b';
      assert (a + b)[|a + b| - 1] == b[|b| - 1];
      KeptAppend(a, b', width, height);
    }
  }

  /** A box covering 96% of the image in both directions is rejected as the page frame. */
  lemma FrameRejected(b: Rect, width: nat, height: nat)
    requires 100 * b.w >= 96 * width && 100 * b.h >= 96 * height
    ensures !Keep(b, width, height)
  {
  }
}

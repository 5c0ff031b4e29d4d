/**
 * detect_rooms: validate the array's shape, filter the bounding boxes of
 * the external contours, turn each survivor into an estimate and order the
 * estimates by flooring area.
 *
 * The OpenCV stages (colour conversion, blur, adaptive threshold, closing,
 * contour extraction) are not modelled: their output enters as `rects`, the
 * bounding box of every external contour in the order findContours yields
 * them.
 */
module RoomDetector {
  import opened Outcomes
  import opened RoomEstimates
  import opened ContourFilter
  import opened Ordering

  /** The array is three-dimensional with 3 (RGB) or 4 (RGBA) channels. */
  predicate ValidShape(shape: seq<nat>) {
    |shape| == 3 && (shape[2] == 3 || shape[2] == 4)
  }

  /** One estimate per box, in box order. */
  function EstimatesOf(boxes: seq<Rect>): seq<RoomEstimate> {
    seq(|boxes|, i requires 0 <= i < |boxes| => MakeEstimate(boxes[i]))
  }

  /** The estimate loop: one estimate appended per surviving box. */
  method BuildEstimates(boxes: seq<Rect>) returns (estimates: seq<RoomEstimate>)
    ensures |estimates| == |boxes|
    ensures forall i :: 0 <= i < |boxes| ==> estimates[i] == MakeEstimate(boxes[i])
  {
    estimates := [];
    var i := 0;
    while i < |boxes|
      invariant 0 <= i <= |boxes|
      invariant |estimates| == i
      invariant forall j :: 0 <= j < i ==> estimates[j] == MakeEstimate(boxes[j])
    {
      var b := boxes[i];
      var flooring := b.w * b.h;
      var drywall := 160 * (b.w + b.h);
      var studs := Max(1, (3 * (b.w + b.h) + 19) / 20);
      estimates := estimates + [RoomEstimate(b, flooring, drywall, studs)];
      i := i + 1;
    }
  }

  /** The estimate of a box that survives the filter describes a real room of the input. */
  lemma SurvivorsArePositive(rects: seq<Rect>, width: nat, height: nat, b: Rect)
    requires b in Kept(rects, width, height)
    ensures b in rects && Keep(b, width, height)
    ensures b.w > 0 && b.h > 0
    ensures MakeEstimate(b).flooring >= 2000 && MakeEstimate(b).drywall > 0 && MakeEstimate(b).studs >= 1
  {
    KeptBoxPositive(b, width, height);
  }

  /**
   * Room detection on an array of the given shape whose external contours
   * have the bounding boxes `rects`.
   */
  method DetectRooms(shape: seq<nat>, rects: seq<Rect>) returns (r: Result<seq<RoomEstimate>>)
    ensures r.Err? <==> !ValidShape(shape)
    ensures r.Err? ==> r.error == InvalidImage
    ensures r.Ok? ==> r.value == SortByFlooring(EstimatesOf(Kept(rects, shape[1], shape[0])))
    ensures r.Ok? ==> multiset(r.value) == multiset(EstimatesOf(Kept(rects, shape[1], shape[0])))
    ensures r.Ok? ==> SortedByFlooring(r.value)
    ensures r.Ok? ==> forall k: nat :: WithFlooring(r.value, k)
                                       == WithFlooring(EstimatesOf(Kept(rects, shape[1], shape[0])), k)
    ensures r.Ok? ==> forall e :: e in r.value ==>
                        e.rect in rects && Keep(e.rect, shape[1], shape[0]) && e == MakeEstimate(e.rect)
                        && e.flooring > 0 && e.drywall > 0 && e.studs > 0
  {
    if !(|shape| == 3 && (shape[2] == 3 || shape[2] == 4)) {
      return Err(InvalidImage);
    }
    var width, height := shape[1], shape[0];
    var boxes := FilterContours(rects, width, height);
    var estimates := BuildEstimates(boxes);
    assert estimates == EstimatesOf(boxes);
    var sorted := SortByFlooring(estimates);
    SortSorted(estimates);
    forall k: nat ensures WithFlooring(sorted, k) == WithFlooring(estimates, k) {
      SortStable(estimates, k);
    }
    forall e | e in sorted
      ensures e.rect in rects && Keep(e.rect, width, height) && e == MakeEstimate(e.rect)
      ensures e.flooring > 0 && e.drywall > 0 && e.studs > 0
    {
      assert e in multiset(estimates);
      var i :| 0 <= i < |boxes| && estimates[i] == e;
      SurvivorsArePositive(rects, width, height, boxes[i]);
    }
    r := Ok(sorted);
  }
}

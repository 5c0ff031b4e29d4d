/**
 * parse_pdf: render page one, detect its rooms and report the totals.
 *
 * The file system and the PDF library are not modelled: a PdfSource says
 * whether the path exists, how many pages the document has and what the
 * renderer produces for page one at its fixed 2x zoom.
 */
module PageSummary {
  import opened Outcomes
  import opened RoomEstimates
  import opened ContourFilter
  import opened Ordering
  import opened RoomDetector
  import opened PixelLayout

  /** Plan-level totals; the two areas in hundredths of a square foot. */
  datatype Totals = Totals(flooring: int, drywall: int, studs: int)

  /** The summary dictionary parse_pdf returns; imageSize is the Qt image's [width, height]. */
  datatype Summary = Summary(pageNumber: nat, imageSize: seq<nat>, roomCount: nat, totals: Totals)

  /** The input file as the outside world presents it. */
  datatype PdfSource = PdfSource(onDisk: bool, pageCount: nat, firstPage: Pixmap)

  /** What render_pdf_to_image returns: the size the Qt image reports and the normalised array. */
  datatype Rendered = Rendered(imageWidth: nat, imageHeight: nat, pixels: Array3)

  /**
   * The [width, height] a Qt image built over the pixmap's buffer reports.
   * Qt makes a null image when a side is 0, and a null image reports 0 x 0.
   * On a page with both sides positive whose buffer fits, the image and
   * the normalised array agree: the image is as wide as the array's second
   * dimension and as high as its first.
   */
  function QtImageSize(pm: Pixmap): (size: seq<nat>)
    ensures |size| == 2
    ensures size == [0, 0] <==> pm.width == 0 || pm.height == 0
    ensures pm.width > 0 && pm.height > 0 ==> size == [pm.width, pm.height]
    ensures LayoutFits(pm) && pm.width > 0 && pm.height > 0 ==>
              Normalize(pm).Ok? && size == [Shape(Normalize(pm).value)[1], Shape(Normalize(pm).value)[0]]
  {
    assert LayoutFits(pm) ==> Normalize(pm).Ok? && Shape(Normalize(pm).value)[..2] == [pm.height, pm.width] by {
      if LayoutFits(pm) {
        NormalizeShape(pm);
      }
    }
    if pm.width == 0 || pm.height == 0 then [0, 0] else [pm.width, pm.height]
  }

  function Plus(a: Totals, b: Totals): Totals {
    Totals(a.flooring + b.flooring, a.drywall + b.drywall, a.studs + b.studs)
  }

  // The source's sums over Python floats, with exact reals.

  function FlooringSqftSum(rooms: seq<RoomEstimate>): real {
    if rooms == [] then 0.0 else Sqft(rooms[0].flooring) + FlooringSqftSum(rooms[1..])
  }

  function DrywallSqftSum(rooms: seq<RoomEstimate>): real {
    if rooms == [] then 0.0 else Sqft(rooms[0].drywall) + DrywallSqftSum(rooms[1..])
  }

  /**
   * The totals: areas and studs summed over the rooms, in hundredths. No
   * rooms give all-zero totals.
   */
  function Aggregate(rooms: seq<RoomEstimate>): (t: Totals)
    ensures t.flooring >= 0 && t.drywall >= 0 && t.studs >= 0
    ensures rooms == [] ==> t == Totals(0, 0, 0)
  {
    if rooms == [] then Totals(0, 0, 0)
    else
      var e := rooms[0];
      Plus(Totals(e.flooring, e.drywall, e.studs), Aggregate(rooms[1..]))
  }

  /** Each area total is exactly the sum of the rooms' values in square feet. */
  lemma {:induction false} AggregateIsSum(rooms: seq<RoomEstimate>)
    ensures Sqft(Aggregate(rooms).flooring) == FlooringSqftSum(rooms)
    ensures Sqft(Aggregate(rooms).drywall) == DrywallSqftSum(rooms)
  {
    if rooms != [] {
      AggregateIsSum(rooms[1..]);
    }
  }

  /**
   * round(sum(...), 2) changes nothing: the reported area totals are the
   * sums of the rooms' areas rounded to two decimals.
   */
  lemma AggregateRounded(rooms: seq<RoomEstimate>)
    ensures Sqft(Aggregate(rooms).flooring) == Round2(FlooringSqftSum(rooms))
    ensures Sqft(Aggregate(rooms).drywall) == Round2(DrywallSqftSum(rooms))
  {
    AggregateIsSum(rooms);
    RoundHundredths(Aggregate(rooms).flooring);
    RoundHundredths(Aggregate(rooms).drywall);
  }

  /** Totals of a concatenation are the sums of the totals of its parts. */
  lemma {:induction false} AggregateAppend(a: seq<RoomEstimate>, b: seq<RoomEstimate>)
    ensures Aggregate(a + b) == Plus(Aggregate(a), Aggregate(b))
  {
    if a == [] {
      assert a + b == b;
    } else {
      assert (a + b)[0] == a[0];
      assert (a + b)[1..] == a[1..] + b;
      AggregateAppend(a[1..], b);
    }
  }

  /** Taking element j out of a list takes one copy of it out of its multiset. */
  lemma MultisetWithout<T>(b: seq<T>, j: nat)
    requires j < |b|
    ensures multiset(b[..j] + b[j + 1..]) == multiset(b) - multiset{b[j]}
  {
    assert b == b[..j] + [b[j]] + b[j + 1..];
    assert multiset(b) == multiset(b[..j]) + multiset{b[j]} + multiset(b[j + 1..]);
  }

  /** Moving one summand of a three-way sum to the front. */
  lemma PlusRotate(p: Totals, x: Totals, q: Totals)
    ensures Plus(Plus(p, x), q) == Plus(x, Plus(p, q))
  {
  }

  /** A list is what comes before room j, room j, and what comes after it. */
  lemma SplitAt(b: seq<RoomEstimate>, j: nat)
    requires j < |b|
    ensures b == (b[..j] + [b[j]]) + b[j + 1..]
  {
  }

  /** Taking room j out of a list takes its figures out of the totals. */
  lemma RemoveOneTotals(b: seq<RoomEstimate>, j: nat)
    requires j < |b|
    ensures Aggregate(b) == Plus(Aggregate([b[j]]), Aggregate(b[..j] + b[j + 1..]))
  {
    var p, x, q := b[..j], [b[j]], b[j + 1..];
    SplitAt(b, j);
    AggregateAppend(p + x, q);
    AggregateAppend(p, x);
    AggregateAppend(p, q);
    PlusRotate(Aggregate(p), Aggregate(x), Aggregate(q));
  }

  /** Totals do not depend on the order of the rooms. */
  lemma {:induction false} AggregatePermutation(a: seq<RoomEstimate>, b: seq<RoomEstimate>)
    requires multiset(a) == multiset(b)
    ensures Aggregate(a) == Aggregate(b)
    decreases |a|
  {
    if a == [] {
      assert |b| == |multiset(b)| == 0;
    } else {
      assert a[0] in multiset(b);
      var j :| 0 <= j < |b| && b[j] == a[0];
      MultisetWithout(b, j);
      RemoveOneTotals(b, j);
      assert a == [a[0]] + a[1..];
      assert multiset(a[1..]) == multiset(a) - multiset{a[0]};
      AggregatePermutation(a[1..], b[..j] + b[j + 1..]);
      AggregateAppend([a[0]], a[1..]);
    }
  }

  /**
   * render_pdf_to_image: a missing file and an empty document are refused
   * before anything is rendered; a buffer that does not fit its layout is
   * refused by the reshapes. The Qt image reports QtImageSize and the
   * array is the normalised buffer, so NormalizeAt says what each of its
   * elements is.
   */
  function RenderPdfToImage(pdf: PdfSource): (r: Result<Rendered>)
    ensures r.Ok? <==> pdf.onDisk && pdf.pageCount > 0 && LayoutFits(pdf.firstPage)
    ensures !pdf.onDisk ==> r == Err(FileNotFound)
    ensures pdf.onDisk && pdf.pageCount == 0 ==> r == Err(NoPages)
    ensures pdf.onDisk && pdf.pageCount > 0 && !LayoutFits(pdf.firstPage) ==> r == Err(ReshapeFailed)
    ensures r.Ok? ==> r.value.pixels == Normalize(pdf.firstPage).value
    ensures r.Ok? ==> [r.value.imageWidth, r.value.imageHeight] == QtImageSize(pdf.firstPage)
                      && Shape(r.value.pixels)
                         == [pdf.firstPage.height, pdf.firstPage.width, OutputDepth(pdf.firstPage.n)]
  {
    if !pdf.onDisk then Err(FileNotFound)
    else if pdf.pageCount == 0 then Err(NoPages)
    else
      var page := pdf.firstPage;
      NormalizeSucceeds(page);
      match Normalize(page)
      case Err(e) => Err(e)
      case Ok(pixels) =>
        NormalizeShape(page);
        var size := QtImageSize(page);
        Ok(Rendered(size[0], size[1], pixels))
  }

  /**
   * The rendered image and the array describe the same page: when both
   * sides are positive the image's width and height are the array's
   * second and first dimensions; on a page with a side of 0 the image is
   * the 0 x 0 null image while the array keeps the page's dimensions.
   */
  lemma ImageMatchesArray(pdf: PdfSource)
    requires RenderPdfToImage(pdf).Ok?
    ensures var out := RenderPdfToImage(pdf).value;
            if pdf.firstPage.width > 0 && pdf.firstPage.height > 0
            then out.imageWidth == Shape(out.pixels)[1] && out.imageHeight == Shape(out.pixels)[0]
            else out.imageWidth == 0 && out.imageHeight == 0
                 && Shape(out.pixels)[..2] == [pdf.firstPage.height, pdf.firstPage.width]
  {
  }

  /**
   * parse_pdf on a file whose page one has external contours with the
   * bounding boxes `rects`. It fails exactly when the file is missing, has
   * no pages, its buffer does not fit its layout, or its pixels are neither
   * grey, RGB nor RGBA; otherwise the summary reports page 1, one room per
   * box that passes the filter, and the totals of those rooms in any order.
   */
  method ParsePdf(pdf: PdfSource, rects: seq<Rect>) returns (r: Result<Summary>)
    ensures r.Ok? <==> pdf.onDisk && pdf.pageCount > 0 && LayoutFits(pdf.firstPage)
                       && pdf.firstPage.n in {1, 3, 4}
    ensures !pdf.onDisk ==> r == Err(FileNotFound)
    ensures pdf.onDisk && pdf.pageCount == 0 ==> r == Err(NoPages)
    ensures pdf.onDisk && pdf.pageCount > 0 && !LayoutFits(pdf.firstPage) ==> r == Err(ReshapeFailed)
    ensures pdf.onDisk && pdf.pageCount > 0 && LayoutFits(pdf.firstPage) && pdf.firstPage.n !in {1, 3, 4}
            ==> r == Err(InvalidImage)
    ensures r.Ok? ==>
              var kept := Kept(rects, pdf.firstPage.width, pdf.firstPage.height);
              r.value.pageNumber == 1
              && r.value.imageSize == QtImageSize(pdf.firstPage)
              && r.value.roomCount == |kept|
              && r.value.totals == Aggregate(EstimatesOf(kept))
  {
    var rendered := RenderPdfToImage(pdf);
    if rendered.Err? {
      return Err(rendered.error);
    }
    var image := rendered.value;
    var rooms := DetectRooms(Shape(image.pixels), rects);
    if rooms.Err? {
      return Err(rooms.error);
    }
    var kept := Kept(rects, pdf.firstPage.width, pdf.firstPage.height);
    AggregatePermutation(rooms.value, EstimatesOf(kept));
    assert |rooms.value| == |multiset(rooms.value)| == |EstimatesOf(kept)|;
    r := Ok(Summary(1, [image.imageWidth, image.imageHeight], |rooms.value|, Aggregate(rooms.value)));
  }
}

# Plan estimator: PDF page parsing and room estimates

This project models the engine of a construction-plan estimator
(`src/engine/pdf_parser.py`) and proves properties of that model. The
engine does four things:

1. It renders page one of a PDF and normalises the renderer's pixel
   buffer into a height x width x depth byte array. The depth is 4 for
   grey, RGB and RGBA pages; a page with any other number n of bytes per
   pixel keeps depth n (and is then refused by room detection).
2. It filters the bounding boxes of the page's external contours. Boxes
   that are too small for the image are dropped, and so is the page frame.
3. It turns each surviving box into a `RoomEstimate`: the box, its flooring
   area, its drywall area and a stud count. The estimates are then sorted,
   largest flooring area first, with a stable sort.
4. It reports a summary: page number, image size, room count and totals.

Modules, one per concern of the source:

- `Outcomes`: the error kinds and a `Result` type. Each exception the
  model keeps becomes an `Err`.
- `RoomEstimates`: the constants, `Rect`, `RoomEstimate` and the per-box
  arithmetic. The source's formulas are kept as reference functions over
  exact reals. The model itself counts areas in whole hundredths of a
  square foot. `Round2` is Python's `round(x, 2)` on exact reals, ties to
  even.
- `ContourFilter`: the filter's two tests and the filter loop, proved
  against the specification function `Kept`.
- `Ordering`: the descending sort by flooring area as a stable insertion
  sort. Proved: it is sorted, it is a permutation, it is stable, and it is
  the only list with these three properties.
- `RoomDetector`: the shape check, the estimate loop and `detect_rooms`.
- `PixelLayout`: the numpy steps of `render_pdf_to_image`, one function per
  step. Arrays carry their shape, so an empty array keeps its dimensions.
  A reshape that numpy refuses becomes `Err(ReshapeFailed)`.
- `PageSummary`: the totals, `render_pdf_to_image` and `parse_pdf`.

Two things outside the source's control enter as parameters:

- The file system and the PDF library are a `PdfSource`. It records whether
  the file exists, how many pages it has, and the pixmap that page one
  renders to. The pixmap holds its sample bytes, width, height, stride and
  bytes per pixel.
- The OpenCV contour pipeline is replaced by `rects`: the bounding boxes
  of the external contours, in the order the pipeline yields them.

## Model

| member | source | states |
|---|---|---|
| `RoomEstimates.MakeEstimate` | src/engine/pdf_parser.py:153-166 | The estimate keeps the box unchanged. Its flooring equals round(0.1w x 0.1h, 2) and its drywall equals round(2(0.1w + 0.1h) x 8, 2), both in square feet. Its studs equal max(1, ceil(perimeter / (16/12))). |
| `RoomEstimates.RoundHundredths` | src/engine/pdf_parser.py:164-165 | Rounding to two decimals leaves a whole number of hundredths unchanged. |
| `RoomEstimates.AreaInHundredths` | src/engine/pdf_parser.py:154-156 | (0.1w)(0.1h) square feet is exactly w h hundredths. |
| `RoomEstimates.DrywallInHundredths` | src/engine/pdf_parser.py:157-158 | 2(0.1w + 0.1h) x 8 square feet is exactly 160(w + h) hundredths. |
| `RoomEstimates.StudsClosedForm` | src/engine/pdf_parser.py:159 | The stud count equals max(1, ceil(3(w + h) / 20)) in whole numbers. |
| `RoomEstimates.CeilUnique` | src/engine/pdf_parser.py:159 | The ceiling (np.ceil) is the only integer c with x <= c < x + 1. |
| `RoomEstimates.StudsCoverPerimeter` | src/engine/pdf_parser.py:159 | There is at least one stud. The studs at 16-inch spacing cover the perimeter. One stud fewer would not cover it, unless the minimum of one applies. |
| `RoomEstimates.StudsMonotone` | src/engine/pdf_parser.py:159 | The stud count never decreases when w or h grows. |
| `RoomEstimates.EstimatePositive` | src/engine/pdf_parser.py:153-166 | A box with positive sides gets a positive flooring area, drywall area and stud count. |
| `ContourFilter.KeepExact` | src/engine/pdf_parser.py:105-112 | A box passes both tests exactly when three things hold: w h >= 2000; w h >= W H / 2000; and 20w < 19W or 20h < 19H. So a box wide but not tall, or tall but not wide, is kept. |
| `ContourFilter.KeptBoxPositive` | src/engine/pdf_parser.py:105-110 | A box that passes has positive sides and an area of at least 2000. |
| `ContourFilter.Kept` | src/engine/pdf_parser.py:104-114 | The survivors are drawn from the input, each one passes both tests, and there are no more of them than inputs. |
| `ContourFilter.FilterContours` | src/engine/pdf_parser.py:99-114 | The loop's `filtered` list is exactly `Kept`: the input boxes that pass both tests, in input order. |
| `ContourFilter.KeptComplete` | src/engine/pdf_parser.py:106-113 | Every input box that passes both tests survives. |
| `ContourFilter.KeptAppend` | src/engine/pdf_parser.py:106-113 | Filtering a concatenation gives the two parts' survivors concatenated, so survivors keep their relative order. |
| `ContourFilter.FrameRejected` | src/engine/pdf_parser.py:111-112 | A box covering 96% of the image in both directions is dropped as the page frame. |
| `Ordering.Insert` | src/engine/pdf_parser.py:170 | Inserting one estimate adds exactly that estimate to the list's multiset. |
| `Ordering.SortByFlooring` | src/engine/pdf_parser.py:170 | The sorted list is a permutation of the input. |
| `Ordering.InsertSorted` | src/engine/pdf_parser.py:170 | Inserting into a list ordered by flooring area keeps it ordered. |
| `Ordering.SortSorted` | src/engine/pdf_parser.py:170 | Flooring areas never increase along the sorted list. |
| `Ordering.InsertStable` | src/engine/pdf_parser.py:170 | Insertion places the new estimate before the others that have its area. |
| `Ordering.SortStable` | src/engine/pdf_parser.py:170 | For every area k, the estimates with area k keep their input order. |
| `Ordering.HeadsAgree` | src/engine/pdf_parser.py:170 | Two ordered lists that agree on each group of equal areas start with the same estimate. |
| `Ordering.StableSortUnique` | src/engine/pdf_parser.py:170 | Two lists that are both ordered by area and agree on every group of equal areas are equal. |
| `Ordering.SortIsTheStableSort` | src/engine/pdf_parser.py:170 | Any result of a stable descending sort by flooring area equals `SortByFlooring` of the input and is a permutation of it. |
| `RoomDetector.BuildEstimates` | src/engine/pdf_parser.py:151-168 | The loop yields one estimate per surviving box, in box order, and the estimate for box i is `MakeEstimate` of that box. |
| `RoomDetector.SurvivorsArePositive` | src/engine/pdf_parser.py:104-166 | A box that survives the filter is an input box that passes both tests and has positive sides. Its estimate has a flooring area of at least 2000 hundredths, a positive drywall area and at least one stud. |
| `RoomDetector.DetectRooms` | src/engine/pdf_parser.py:117-171 | It fails with `InvalidImage` exactly when the shape is not 3-dimensional with 3 or 4 channels. Otherwise the result is the stable descending sort of one estimate per surviving box: a permutation, ordered by flooring area, equal areas in discovery order. Every entry is the estimate of an input box that passes the filter, with positive figures. |
| `PixelLayout.TruncateCols` | src/engine/pdf_parser.py:72 | Slicing the columns to their first k keeps every row's prefix: the shape becomes rows x min(cols, k). |
| `PixelLayout.SplitRowsAt` | src/engine/pdf_parser.py:71 | Element (i, j) of the buffer reshaped to rows x cols is byte i cols + j. |
| `PixelLayout.SplitPixelsAt` | src/engine/pdf_parser.py:73 | Channel ch of pixel c in row i is element c n + ch of that row. |
| `PixelLayout.RepeatChannelsAt` | src/engine/pdf_parser.py:75-76 | After np.repeat along axis 2, channel j holds what channel j / k held. |
| `PixelLayout.AppendAlpha` | src/engine/pdf_parser.py:78-82 | Concatenating the alpha plane adds one channel and keeps the height and width. |
| `PixelLayout.Unpadded` | src/engine/pdf_parser.py:70-73 | When the reshapes succeed, the array is height x width x n. |
| `PixelLayout.UnpaddedSucceeds` | src/engine/pdf_parser.py:70-73 | The reshapes succeed exactly when the buffer holds height x stride bytes and, if there is any row, width x n <= stride. Otherwise they fail with `ReshapeFailed`. |
| `PixelLayout.UnpaddedAt` | src/engine/pdf_parser.py:70-73 | Channel ch of pixel (r, c) is byte r stride + c n + ch of the buffer, so row padding is never read. |
| `PixelLayout.NormalizeSucceeds` | src/engine/pdf_parser.py:69-84 | The normalisation fails, with `ReshapeFailed`, exactly when the buffer does not fit the layout. |
| `PixelLayout.NormalizeShape` | src/engine/pdf_parser.py:69-84 | The normalised array is height x width x 4 for grey and RGB input, and height x width x n otherwise. |
| `PixelLayout.NormalizeAt` | src/engine/pdf_parser.py:69-84 | Each element is the one `Expected` names. Channel 3 of grey and RGB input is 255. A grey value fills channels 0 to 2. Otherwise channel ch of pixel (r, c) is byte r stride + c n + ch. |
| `PageSummary.Aggregate` | src/engine/pdf_parser.py:180-184 | The totals are never negative, and no rooms give all-zero totals. |
| `PageSummary.AggregateIsSum` | src/engine/pdf_parser.py:181-182 | Each area total is exactly the sum of the rooms' areas in square feet. |
| `PageSummary.AggregateRounded` | src/engine/pdf_parser.py:181-182 | Each area total is that sum rounded to two decimals, as the summary reports it. |
| `PageSummary.AggregateAppend` | src/engine/pdf_parser.py:180-184 | The totals of a concatenation are the sums of the parts' totals. |
| `PageSummary.RemoveOneTotals` | src/engine/pdf_parser.py:180-184 | Taking one room out of the list takes exactly its figures out of the totals. |
| `PageSummary.AggregatePermutation` | src/engine/pdf_parser.py:180-184 | The totals do not depend on the order of the rooms. |
| `PageSummary.QtImageSize` | src/engine/pdf_parser.py:61-84 | On a page with both sides positive whose buffer fits, the Qt image is as wide as the normalised array's second dimension and as high as its first. A side of 0 gives the 0 x 0 null image. |
| `PageSummary.ImageMatchesArray` | tests/test_pdf_parser.py:26-28 | When rendering succeeds on a page with both sides positive, the image's width and height are the array's shape[1] and shape[0]. On a page with a side of 0, the image is 0 x 0 while the array keeps the page's height and width. |
| `PageSummary.RenderPdfToImage` | src/engine/pdf_parser.py:35-84 | A missing file gives `FileNotFound`, a document with no pages gives `NoPages`, and a buffer that does not fit its layout gives `ReshapeFailed`. It succeeds exactly when none of these holds. The image reports `QtImageSize`: the pixmap's width and height, or 0 x 0 when either is 0; and the array is the normalised buffer (`Normalize`, whose elements `PixelLayout.NormalizeAt` gives), of shape height x width x `OutputDepth(n)`. |
| `PageSummary.ParsePdf` | src/engine/pdf_parser.py:174-191 | It succeeds exactly when the file exists, has a page, the buffer fits and the page is grey, RGB or RGBA. Otherwise it fails with `FileNotFound`, `NoPages`, `ReshapeFailed` or `InvalidImage`, checked in that order. On success: page number 1, image size as the Qt image reports it (`QtImageSize`), one room per box that passes the filter, and totals equal to the totals of those rooms in box order. |

## Left out

- The OpenCV pipeline (src/engine/pdf_parser.py:128-148) and `cv2.boundingRect` (107, 153) are foreign library calls. The bounding boxes they would produce are an input, `rects`.
- `fitz.open`, `load_page` and `get_pixmap` (46-52) are represented by the `PdfSource` value. Its pixmap is what page one renders to at the fixed 2x zoom.
- `_ensure_path` (35-39) reads the file system. It is represented by the `onDisk` flag.
- The `QImage` built at lines 54-67 is represented only by the size it reports, `PageSummary.QtImageSize`: the pixmap's width and height, or 0 x 0 when either is 0 (Qt then builds a null image). The bytes the Qt image holds, and any other case where Qt refuses the buffer, are not modelled.
- Failures inside the PDF library are not modelled. `fitz.open` (46) raises on an existing path that is not a readable document, such as a corrupt file, a non-PDF file or a directory, and `load_page` and `get_pixmap` (50, 52) can raise too. A `PdfSource` with `onDisk` set stands for a document the library opened and rendered, so `PageSummary.RenderPdfToImage` and `PageSummary.ParsePdf` succeed "exactly when" only among such documents.
- `_qimage_to_numpy` (87-96) is not on `parse_pdf`'s path, because `detect_rooms` receives a numpy array there. Its stride stripping is the n = 4 case of `PixelLayout.Unpadded`.
- The colour conversion in `detect_rooms` (128-131) only feeds the contour pipeline, so it is not modelled.
- Failures of the OpenCV calls themselves are not modelled. For example, `cv2.cvtColor` (129, 131) raises on an array with no rows or no columns, so the source's `detect_rooms` and `parse_pdf` raise on a page of height or width 0. `RoomDetector.DetectRooms` and `PageSummary.ParsePdf` return `Ok` there (with the rooms of whatever boxes are passed in).
- Floating point is not modelled. The constants 0.1, 8.0, 16/12, 0.0005 and 0.95 are exact rationals. On inputs at an exact boundary, such as 20w = 19W or w + h a multiple of 20, binary float rounding can differ from the exact result.
- The sort algorithm is not modelled: Python's list.sort (Timsort) is replaced by a stable insertion sort. `Ordering.StableSortUnique` shows this does not change the result.
- Python raises ValueError for an empty document, for a failed reshape and for a bad shape. The model keeps these apart as `NoPages`, `ReshapeFailed` and `InvalidImage`.
- The user interface (`src/ui/app.py`) and `main.py` are not part of this model.

/**
 * The array half of render_pdf_to_image: the renderer's flat sample buffer
 * (height rows of `stride` bytes, `n` bytes per pixel) becomes a
 * height x width x 4 uint8 array. Each numpy step is one function; arrays
 * carry their shape so that an empty array keeps its dimensions.
 */
module PixelLayout {
  import opened Outcomes

  newtype byte = x: int | 0 <= x < 256

  /** The rendered page: its sample buffer and layout, as the PDF library reports them. */
  datatype Pixmap = Pixmap(samples: seq<byte>, width: nat, height: nat, stride: nat, n: nat)

  /** A two-dimensional uint8 array of shape (rows, cols). */
  datatype Array2 = Array2(rows: nat, cols: nat, cells: seq<seq<byte>>)

  /** A three-dimensional uint8 array of shape (height, width, depth). */
  datatype Array3 = Array3(height: nat, width: nat, depth: nat, cells: seq<seq<seq<byte>>>)

  predicate Valid2(a: Array2) {
    |a.cells| == a.rows && forall i :: 0 <= i < a.rows ==> |a.cells[i]| == a.cols
  }

  predicate Valid3(a: Array3) {
    |a.cells| == a.height
    && (forall r :: 0 <= r < a.height ==> |a.cells[r]| == a.width)
    && (forall r, c :: 0 <= r < a.height && 0 <= c < a.width ==> |a.cells[r][c]| == a.depth)
  }

  /** numpy's shape tuple of a three-dimensional array. */
  function Shape(a: Array3): seq<nat> { [a.height, a.width, a.depth] }

  lemma MulMonotone(a: nat, b: nat, c: nat)
    requires a <= b
    ensures a * c <= b * c
  {
  }

  /** Row i of `rows` rows of `cols` bytes ends inside the buffer. */
  lemma RowFits(i: nat, rows: nat, cols: nat)
    requires i < rows
    ensures i * cols + cols <= rows * cols
  {
    assert i * cols + cols == (i + 1) * cols;
    MulMonotone(i + 1, rows, cols);
  }

  lemma MulCancel(h: nat, x: nat, y: nat)
    requires h > 0 && h * x == h * y
    ensures x == y
  {
    if x < y {
      MulMonotone(x + 1, y, h);
    } else if y < x {
      MulMonotone(y + 1, x, h);
    }
  }

  lemma DivBelow(i: nat, d: nat, k: nat)
    requires k > 0 && i < d * k
    ensures i / k < d
  {
    if i / k >= d {
      MulMonotone(d, i / k, k);
    }
  }

  /** The rows of a flat buffer of rows x cols bytes. */
  function SplitRows(samples: seq<byte>, rows: nat, cols: nat): Array2
    requires |samples| == rows * cols
  {
    Array2(rows, cols, seq(rows, i requires 0 <= i < rows =>
      RowFits(i, rows, cols);
      samples[i * cols .. i * cols + cols]))
  }

  lemma SplitRowsValid(samples: seq<byte>, rows: nat, cols: nat)
    requires |samples| == rows * cols
    ensures Valid2(SplitRows(samples, rows, cols))
  {
    var a := SplitRows(samples, rows, cols);
    forall i | 0 <= i < rows ensures |a.cells[i]| == cols {
      RowFits(i, rows, cols);
      assert a.cells[i] == samples[i * cols .. i * cols + cols];
    }
  }

  lemma SplitRowsAt(samples: seq<byte>, rows: nat, cols: nat, i: nat, j: nat)
    requires |samples| == rows * cols && i < rows && j < cols
    ensures i * cols + j < |samples|
    ensures Valid2(SplitRows(samples, rows, cols))
    ensures SplitRows(samples, rows, cols).cells[i][j] == samples[i * cols + j]
  {
    SplitRowsValid(samples, rows, cols);
    RowFits(i, rows, cols);
    var row := samples[i * cols .. i * cols + cols];
    assert SplitRows(samples, rows, cols).cells[i] == row;
    assert row[j] == samples[i * cols + j];
  }

  /**
   * reshape((rows, cols)) of a flat buffer: numpy refuses unless the sizes
   * agree.
   */
  function ReshapeRows(samples: seq<byte>, rows: nat, cols: nat): Result<Array2> {
    if |samples| != rows * cols then Err(ReshapeFailed)
    else Ok(SplitRows(samples, rows, cols))
  }

  function MinNat(a: nat, b: nat): nat { if a < b then a else b }

  /** array[:, :k]: every row cut to its first k columns (all of them when it is shorter). */
  function TruncateCols(a: Array2, k: nat): (r: Array2)
    requires Valid2(a)
    ensures Valid2(r) && r.rows == a.rows && r.cols == MinNat(a.cols, k)
    ensures forall i, j :: 0 <= i < r.rows && 0 <= j < r.cols ==> r.cells[i][j] == a.cells[i][j]
  {
    Array2(a.rows, MinNat(a.cols, k),
      seq(a.rows, i requires 0 <= i < a.rows => a.cells[i][..MinNat(a.cols, k)]))
  }

  /** Each row of n x width bytes split into width pixels of n bytes. */
  function SplitPixels(a: Array2, width: nat, n: nat): Array3
    requires Valid2(a) && a.cols == width * n
  {
    Array3(a.rows, width, n,
      seq(a.rows, i requires 0 <= i < a.rows =>
        seq(width, c requires 0 <= c < width =>
          RowFits(c, width, n);
          a.cells[i][c * n .. c * n + n])))
  }

  lemma SplitPixelsValid(a: Array2, width: nat, n: nat)
    requires Valid2(a) && a.cols == width * n
    ensures Valid3(SplitPixels(a, width, n))
  {
    var p := SplitPixels(a, width, n);
    forall i, c | 0 <= i < a.rows && 0 <= c < width ensures |p.cells[i][c]| == n {
      RowFits(c, width, n);
      assert p.cells[i][c] == a.cells[i][c * n .. c * n + n];
    }
  }

  lemma SplitPixelsAt(a: Array2, width: nat, n: nat, i: nat, c: nat, ch: nat)
    requires Valid2(a) && a.cols == width * n && i < a.rows && c < width && ch < n
    ensures c * n + ch < a.cols
    ensures Valid3(SplitPixels(a, width, n))
    ensures SplitPixels(a, width, n).cells[i][c][ch] == a.cells[i][c * n + ch]
  {
    SplitPixelsValid(a, width, n);
    RowFits(c, width, n);
    assert SplitPixels(a, width, n).cells[i][c] == a.cells[i][c * n .. c * n + n];
  }

  /**
   * reshape((rows, width, n)) of a (rows, cols) array: numpy refuses unless
   * the sizes agree; with the leading dimension kept, each row splits into
   * `width` pixels of `n` bytes.
   */
  function ReshapePixels(a: Array2, width: nat, n: nat): Result<Array3>
    requires Valid2(a)
  {
    if a.rows * a.cols != a.rows * (width * n) then Err(ReshapeFailed)
    else if a.rows == 0 then Ok(Array3(0, width, n, []))
    else
      MulCancel(a.rows, a.cols, width * n);
      Ok(SplitPixels(a, width, n))
  }

  /** np.repeat(array, k, axis=2): each channel value repeated k times in place. */
  function RepeatChannels(a: Array3, k: nat): (r: Array3)
    requires Valid3(a) && k > 0
    ensures Valid3(r) && r.height == a.height && r.width == a.width && r.depth == a.depth * k
  {
    Array3(a.height, a.width, a.depth * k,
      seq(a.height, i requires 0 <= i < a.height =>
        seq(a.width, c requires 0 <= c < a.width =>
          seq(a.depth * k, j requires 0 <= j < a.depth * k =>
            DivBelow(j, a.depth, k);
            a.cells[i][c][j / k]))))
  }

  lemma RepeatChannelsAt(a: Array3, k: nat, i: nat, c: nat, j: nat)
    requires Valid3(a) && k > 0 && i < a.height && c < a.width && j < a.depth * k
    ensures Valid3(RepeatChannels(a, k))
    ensures j / k < a.depth
    ensures RepeatChannels(a, k).cells[i][c][j] == a.cells[i][c][j / k]
  {
    DivBelow(j, a.depth, k);
  }

  /** np.concatenate with a full(255) plane along axis 2: an opaque alpha channel after the others. */
  function AppendAlpha(a: Array3): (r: Array3)
    requires Valid3(a)
    ensures Valid3(r) && r.height == a.height && r.width == a.width && r.depth == a.depth + 1
  {
    Array3(a.height, a.width, a.depth + 1,
      seq(a.height, i requires 0 <= i < a.height =>
        seq(a.width, c requires 0 <= c < a.width => a.cells[i][c] + [255])))
  }

  /**
   * Undo the row padding: reshape the buffer into height rows of `stride`
   * bytes, crop each row to its first width x n bytes, and split each row
   * into `width` pixels of `n` bytes.
   */
  function Unpadded(pm: Pixmap): (r: Result<Array3>)
    ensures r.Ok? ==> Valid3(r.value) && r.value.height == pm.height
                      && r.value.width == pm.width && r.value.depth == pm.n
  {
    match ReshapeRows(pm.samples, pm.height, pm.stride)
    case Err(e) => Err(e)
    case Ok(rows) =>
      assert Valid2(rows) by {
        SplitRowsValid(pm.samples, pm.height, pm.stride);
      }
      var cropped := TruncateCols(rows, pm.width * pm.n);
      var pixels := ReshapePixels(cropped, pm.width, pm.n);
      assert pixels.Ok? ==> Valid3(pixels.value) by {
        if pixels.Ok? && cropped.rows > 0 {
          MulCancel(cropped.rows, cropped.cols, pm.width * pm.n);
          SplitPixelsValid(cropped, pm.width, pm.n);
        }
      }
      pixels
  }

  /**
   * Bring the pixels to RGBA: grey input is repeated into three channels,
   * then an opaque alpha channel is added to any three-channel array.
   */
  function Normalize(pm: Pixmap): Result<Array3> {
    match Unpadded(pm)
    case Err(e) => Err(e)
    case Ok(pixels) =>
      var rgb := if pm.n == 1 then RepeatChannels(pixels, 3) else pixels;
      Ok(if rgb.depth == 3 then AppendAlpha(rgb) else rgb)
  }

  /** The buffer fits the layout the pixmap reports. */
  predicate LayoutFits(pm: Pixmap) {
    |pm.samples| == pm.height * pm.stride && (pm.height == 0 || pm.width * pm.n <= pm.stride)
  }

  /** Channel count after normalisation: grey and RGB gain channels, anything else is kept. */
  function OutputDepth(n: nat): nat {
    if n == 1 || n == 3 then 4 else n
  }

  /**
   * Where each element of the normalised array comes from: the alpha plane
   * added to grey and RGB input is 255; a grey value fills channels 0 to 2;
   * otherwise channel ch of pixel (r, c) is byte r stride + c n + ch of
   * the buffer, so the padding at the end of each row is never read.
   */
  function Expected(pm: Pixmap, r: nat, c: nat, ch: nat): byte
    requires LayoutFits(pm) && r < pm.height && c < pm.width && ch < OutputDepth(pm.n)
  {
    if (pm.n == 1 || pm.n == 3) && ch == 3 then 255
    else if pm.n == 1 then InBuffer(pm, r, c, 0); pm.samples[r * pm.stride + c]
    else InBuffer(pm, r, c, ch); pm.samples[r * pm.stride + c * pm.n + ch]
  }

  /** Channel ch of pixel (r, c) lies inside row r, before its padding. */
  lemma InBuffer(pm: Pixmap, r: nat, c: nat, ch: nat)
    requires LayoutFits(pm) && r < pm.height && c < pm.width && ch < pm.n
    ensures c * pm.n + ch < pm.width * pm.n <= pm.stride
    ensures r * pm.stride + c * pm.n + ch < |pm.samples|
  {
    RowFits(r, pm.height, pm.stride);
    RowFits(c, pm.width, pm.n);
  }

  /**
   * The reshapes succeed exactly when the buffer holds height x stride
   * bytes and, if there is any row, a row has room for width x n bytes.
   */
  lemma UnpaddedSucceeds(pm: Pixmap)
    ensures Unpadded(pm).Ok? <==> LayoutFits(pm)
    ensures Unpadded(pm).Err? ==> Unpadded(pm).error == ReshapeFailed
  {
    var h, w, n, st := pm.height, pm.width, pm.n, pm.stride;
    if |pm.samples| == h * st {
      SplitRowsValid(pm.samples, h, st);
      var rows := SplitRows(pm.samples, h, st);
      assert ReshapeRows(pm.samples, h, st) == Ok(rows);
      var cropped := TruncateCols(rows, w * n);
      var k := MinNat(st, w * n);
      assert cropped.rows == h && cropped.cols == k;
      if h > 0 && h * k == h * (w * n) {
        MulCancel(h, k, w * n);
      }
      if h == 0 || k == w * n {
        assert ReshapePixels(cropped, w, n).Ok?;
      } else {
        assert ReshapePixels(cropped, w, n).Err?;
      }
    }
  }

  /** The rows of a buffer that fits its layout, cut to width x n bytes. */
  function Cropped(pm: Pixmap): (a: Array2)
    requires LayoutFits(pm)
    ensures Valid2(a) && a.rows == pm.height
    ensures pm.height > 0 ==> a.cols == pm.width * pm.n
  {
    SplitRowsValid(pm.samples, pm.height, pm.stride);
    TruncateCols(SplitRows(pm.samples, pm.height, pm.stride), pm.width * pm.n)
  }

  lemma UnpaddedIsSplit(pm: Pixmap)
    requires LayoutFits(pm) && pm.height > 0
    ensures Unpadded(pm) == Ok(SplitPixels(Cropped(pm), pm.width, pm.n))
  {
    SplitRowsValid(pm.samples, pm.height, pm.stride);
    assert ReshapeRows(pm.samples, pm.height, pm.stride) == Ok(SplitRows(pm.samples, pm.height, pm.stride));
  }

  lemma CroppedAt(pm: Pixmap, r: nat, j: nat)
    requires LayoutFits(pm) && r < pm.height && j < pm.width * pm.n
    ensures j < pm.stride && r * pm.stride + j < |pm.samples|
    ensures Cropped(pm).cells[r][j] == pm.samples[r * pm.stride + j]
  {
    var rows := SplitRows(pm.samples, pm.height, pm.stride);
    SplitRowsAt(pm.samples, pm.height, pm.stride, r, j);
    assert Cropped(pm).cells[r][j] == rows.cells[r][j];
  }

  /**
   * Channel ch of pixel (r, c) after the reshapes is byte
   * r stride + c n + ch of the buffer: the row padding is skipped.
   */
  lemma UnpaddedAt(pm: Pixmap, r: nat, c: nat, ch: nat)
    requires LayoutFits(pm) && r < pm.height && c < pm.width && ch < pm.n
    ensures Unpadded(pm).Ok?
    ensures r * pm.stride + c * pm.n + ch < |pm.samples|
    ensures Unpadded(pm).value.cells[r][c][ch] == pm.samples[r * pm.stride + c * pm.n + ch]
  {
    InBuffer(pm, r, c, ch);
    UnpaddedIsSplit(pm);
    var j := c * pm.n + ch;
    SplitPixelsAt(Cropped(pm), pm.width, pm.n, r, c, ch);
    CroppedAt(pm, r, j);
  }

  /** Normalisation fails only where the reshapes do. */
  lemma NormalizeSucceeds(pm: Pixmap)
    ensures Normalize(pm).Ok? <==> LayoutFits(pm)
    ensures Normalize(pm).Err? ==> Normalize(pm).error == ReshapeFailed
  {
    UnpaddedSucceeds(pm);
  }

  /** A normalised array is height x width x OutputDepth(n). */
  lemma NormalizeShape(pm: Pixmap)
    requires LayoutFits(pm)
    ensures Normalize(pm).Ok?
    ensures var a := Normalize(pm).value;
            Valid3(a) && a.height == pm.height && a.width == pm.width && a.depth == OutputDepth(pm.n)
  {
    UnpaddedSucceeds(pm);
  }

  /** Every element of the normalised array is the one Expected names. */
  lemma NormalizeAt(pm: Pixmap, r: nat, c: nat, ch: nat)
    requires LayoutFits(pm) && r < pm.height && c < pm.width && ch < OutputDepth(pm.n)
    ensures Normalize(pm).Ok?
    ensures Valid3(Normalize(pm).value)
    ensures Normalize(pm).value.cells[r][c][ch] == Expected(pm, r, c, ch)
  {
    NormalizeShape(pm);
    var pixels := Unpadded(pm).value;
    if pm.n == 1 {
      var rgb := RepeatChannels(pixels, 3);
      assert Normalize(pm).value == AppendAlpha(rgb);
      if ch < 3 {
        RepeatChannelsAt(pixels, 3, r, c, ch);
        UnpaddedAt(pm, r, c, 0);
      }
    } else if pm.n == 3 {
      assert Normalize(pm).value == AppendAlpha(pixels);
      if ch < 3 {
        UnpaddedAt(pm, r, c, ch);
      }
    } else {
      UnpaddedAt(pm, r, c, ch);
    }
  }
}

/** Images, screen coordinates and regions of interest, and the two
    image operations the vision system performs itself: converting a
    frame to the preprocessed grayscale image, and cropping with numpy
    slicing. Pixel values themselves are never inspected by the model. */
module Imaging {

  /** An 8-bit intensity. */
  newtype Byte = b: int | 0 <= b < 256

  /** One pixel of a captured colour frame, in OpenCV's BGR channel order. */
  datatype Bgr = Bgr(blue: Byte, green: Byte, red: Byte)

  /** A captured colour frame: its shape and its pixel at (row, column). */
  datatype Frame = Frame(height: nat, width: nat, pixel: (int, int) -> Bgr)

  /** A single-channel image (a preprocessed frame, a crop of one, or a
      template): its shape and its intensity at (row, column). */
  datatype Gray = Gray(height: nat, width: nat, pixel: (int, int) -> Byte)

  /** A screen coordinate: `x` is the column, `y` the row. */
  datatype Point = Point(x: int, y: int)

  /** An axis-aligned rectangle (left, top, right, bottom) in full-frame
      pixel coordinates; right and bottom are exclusive. */
  datatype Roi = Roi(left: int, top: int, right: int, bottom: int)

  /** The OpenCV calls whose code the model does not see: the grayscale
      conversion followed by a 5x5 Gaussian blur, as the intensity it gives
      at (row, column) of a frame; and the normalised correlation score
      (TM_CCOEFF_NORMED) of a template placed with its top-left corner at
      column x, row y of a search image. */
  datatype Cv = Cv(grayBlur: (Frame, int, int) -> Byte,
                   correlate: (Gray, Gray, int, int) -> real)

  /** The preprocessed image of a frame: grayscale then blur, which keep the
      frame's shape. */
  function Preprocess(cv: Cv, frame: Frame): (g: Gray)
    ensures g.height == frame.height && g.width == frame.width
    ensures forall r, c :: g.pixel(r, c) == cv.grayBlur(frame, r, c)
  {
    Gray(frame.height, frame.width, (r, c) => cv.grayBlur(frame, r, c))
  }

  /** numpy's `size == 0` for a two-dimensional array. */
  predicate IsEmpty(g: Gray) {
    g.height == 0 || g.width == 0
  }

  /** Python's normalisation of one bound of a slice `[start:stop]` (step 1)
      over a sequence of length `len`: a negative bound counts from the end,
      and the result is clamped into [0, len]. */
  function SliceBound(len: nat, i: int): (n: nat)
    ensures n <= len
    ensures 0 <= i <= len ==> n == i
    ensures i > len ==> n == len
    ensures i < 0 ==> n == if i + len < 0 then 0 else i + len
  {
    if i < 0 then (if i + len < 0 then 0 else i + len)
    else if i > len then len
    else i
  }

  /** The number of elements a slice `[start:stop]` selects. */
  function SliceLength(len: nat, start: int, stop: int): (n: nat)
    ensures SliceBound(len, start) + n <= len
  {
    var lo, hi := SliceBound(len, start), SliceBound(len, stop);
    if hi > lo then hi - lo else 0
  }

  /** The crop the vision system takes of a processed image:
      `image[max(0, top):min(H, bottom), max(0, left):min(W, right)]`,
      with numpy's slice semantics on both axes. */
  function Crop(image: Gray, roi: Roi): (c: Gray)
    ensures c.height <= image.height && c.width <= image.width
  {
    var rowStart := SliceBound(image.height, Max(0, roi.top));
    var colStart := SliceBound(image.width, Max(0, roi.left));
    Gray(SliceLength(image.height, Max(0, roi.top), Min(image.height, roi.bottom)),
         SliceLength(image.width, Max(0, roi.left), Min(image.width, roi.right)),
         (r, c) => image.pixel(rowStart + r, colStart + c))
  }

  function Max(a: int, b: int): int { if a < b then b else a }
  function Min(a: int, b: int): int { if a < b then a else b }

  /** With non-negative ends (as every region of the vision system has), the
      crop is exactly the part of the region that lies inside the image:
      rows [max(0, top), min(H, bottom)) and columns [max(0, left),
      min(W, right)), and its pixels are the image's pixels at that offset. */
  lemma CropIsClampedRegion(image: Gray, roi: Roi)
    requires roi.right >= 0 && roi.bottom >= 0
    ensures var c := Crop(image, roi);
      && c.height == Max(0, Min(image.height, roi.bottom) - Max(0, roi.top))
      && c.width == Max(0, Min(image.width, roi.right) - Max(0, roi.left))
      && forall r, col :: 0 <= r < c.height && 0 <= col < c.width ==>
           c.pixel(r, col) == image.pixel(Max(0, roi.top) + r, Max(0, roi.left) + col)
  {
  }

  /** numpy reads a negative end as counting back from the image's far
      edge: a region whose bottom is -e keeps all but the last e rows,
      where "clamping to the image" would keep none. */
  lemma NegativeEndCountsFromFarEdge(image: Gray, e: int)
    requires -(image.height as int) <= e < 0
    ensures Crop(image, Roi(0, 0, image.width, e)).height == image.height + e
  {
  }
}

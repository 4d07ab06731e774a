/** The region matcher (`VisionSystem._find_template`): the best-scoring
    placement of a template inside a search image, reported as the
    template's centre when its score clears a threshold. */
module Matcher {
  import opened Wrappers
  import opened Imaging

  /** The template is no taller and no wider than the search image. */
  predicate Fits(image: Gray, template: Gray) {
    template.height <= image.height && template.width <= image.width
  }

  /** `p` is a top-left corner at which the whole template lies inside the
      image: a cell of the correlation grid. */
  predicate IsAlignment(image: Gray, template: Gray, p: Point) {
    && Fits(image, template)
    && 0 <= p.x <= image.width - template.width
    && 0 <= p.y <= image.height - template.height
  }

  function Score(cv: Cv, image: Gray, template: Gray, p: Point): real {
    cv.correlate(image, template, p.x, p.y)
  }

  /** `a` is a cell of the correlation grid with the highest score. */
  ghost predicate IsBestAlignment(cv: Cv, image: Gray, template: Gray, a: Point) {
    && IsAlignment(image, template, a)
    && forall p :: IsAlignment(image, template, p) ==>
         Score(cv, image, template, p) <= Score(cv, image, template, a)
  }

  /** `p` is one of the columns 0..x of row y. */
  predicate InRow(p: Point, y: nat, x: nat) {
    p.y == y && 0 <= p.x <= x
  }

  /** `p` is one of the columns 0..xMax of the rows 0..y. */
  predicate InRows(p: Point, y: nat, xMax: nat) {
    0 <= p.y <= y && 0 <= p.x <= xMax
  }

  /** The best column among 0..x of row y. */
  function BestInRow(cv: Cv, image: Gray, template: Gray, y: nat, x: nat): (best: Point)
    ensures InRow(best, y, x)
    ensures forall p {:trigger InRow(p, y, x)} :: InRow(p, y, x) ==>
      Score(cv, image, template, p) <= Score(cv, image, template, best)
  {
    if x == 0 then Point(0, y)
    else
      var left := BestInRow(cv, image, template, y, x - 1);
      assert forall p :: InRow(p, y, x) ==> InRow(p, y, x - 1) || p == Point(x, y);
      if Score(cv, image, template, Point(x, y)) > Score(cv, image, template, left)
      then Point(x, y) else left
  }

  /** The best cell among columns 0..xMax of rows 0..y. */
  function BestInRows(cv: Cv, image: Gray, template: Gray, y: nat, xMax: nat): (best: Point)
    ensures InRows(best, y, xMax)
    ensures forall p {:trigger InRows(p, y, xMax)} :: InRows(p, y, xMax) ==>
      Score(cv, image, template, p) <= Score(cv, image, template, best)
  {
    var row := BestInRow(cv, image, template, y, xMax);
    if y == 0 then
      assert forall p :: InRows(p, 0, xMax) ==> InRow(p, 0, xMax);
      row
    else
      var above := BestInRows(cv, image, template, y - 1, xMax);
      assert forall p :: InRows(p, y, xMax) ==> InRow(p, y, xMax) || InRows(p, y - 1, xMax);
      if Score(cv, image, template, row) > Score(cv, image, template, above)
      then row else above
  }

  /** `cv2.minMaxLoc`'s maximum location over the correlation grid. Ties
      are resolved here by a row-major scan keeping the first maximum; the
      contract promises only some highest-scoring cell, since the library's
      own tie-breaking is not part of the source. */
  function BestAlignment(cv: Cv, image: Gray, template: Gray): (a: Point)
    requires Fits(image, template)
    ensures IsBestAlignment(cv, image, template, a)
  {
    var a := BestInRows(cv, image, template, image.height - template.height,
                        image.width - template.width);
    assert forall p :: IsAlignment(image, template, p) ==>
      InRows(p, image.height - template.height, image.width - template.width);
    a
  }

  /** The template's centre when its top-left corner is at `a`. */
  function Centre(a: Point, template: Gray): Point {
    Point(a.x + template.width / 2, a.y + template.height / 2)
  }

  /** `_find_template`: "not found" when either image is missing or the
      template does not fit; otherwise the centre of the best placement
      when its score reaches the threshold. */
  function FindTemplate(cv: Cv, image: Option<Gray>, template: Option<Gray>, threshold: real)
    : (r: Option<Point>)
    ensures image.None? || template.None? ==> r.None?
    ensures image.Some? && template.Some? && !Fits(image.value, template.value) ==> r.None?
    ensures r.Some? <==>
      && image.Some? && template.Some?
      && exists p :: IsAlignment(image.value, template.value, p)
                     && Score(cv, image.value, template.value, p) >= threshold
    ensures r.Some? ==> exists a :: IsBestAlignment(cv, image.value, template.value, a)
                                    && r.value == Centre(a, template.value)
    ensures r.Some? && template.value.height >= 1 && template.value.width >= 1 ==>
      0 <= r.value.x < image.value.width && 0 <= r.value.y < image.value.height
  {
    if template.None? || image.None? then None
    else if template.value.height > image.value.height
         || template.value.width > image.value.width then None
    else
      var a := BestAlignment(cv, image.value, template.value);
      if Score(cv, image.value, template.value, a) >= threshold
      then Some(Centre(a, template.value))
      else None
  }
}

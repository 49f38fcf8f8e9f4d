/** Values shared by every part of the attribute bounding-box head:
    optional and fallible results, 4-column rows, score matrices and the
    box coder the head is configured with. */
module Common {

  datatype Option<+T> = None | Some(value: T)

  datatype Result<+T, +E> = Success(value: T) | Failure(error: E)

  /** One row of four reals: box corners (x1, y1, x2, y2), the four
      regression deltas of one class, or the four per-coordinate weights. */
  datatype Quad = Quad(x1: real, y1: real, x2: real, y2: real)

  const ZeroQuad := Quad(0.0, 0.0, 0.0, 0.0)
  const OneQuad := Quad(1.0, 1.0, 1.0, 1.0)

  /** A region of interest: its four corners, with the index of the image
      it belongs to in front when the tensor has five columns. */
  datatype Roi = Plain(box: Quad) | Indexed(imgId: real, box: Quad)

  /** The image size that decoded boxes are clipped to. */
  datatype ImgShape = ImgShape(height: int, width: int)

  /** The external box coder: `encode(src, gt)` gives the regression delta
      that moves `src` onto `gt`; `decode(src, delta, maxShape)` applies a
      delta to `src` and clips to `maxShape` when one is given. */
  datatype BoxCoder = BoxCoder(
    encode: (Quad, Quad) -> Quad,
    decode: (Quad, Quad, Option<ImgShape>) -> Quad)

  /** A two-dimensional score or prediction tensor of `|rows|` rows and
      `cols` columns. */
  datatype Matrix = Matrix(rows: seq<seq<real>>, cols: nat) {
    ghost predicate Wf() {
      forall r :: 0 <= r < |rows| ==> |rows[r]| == cols
    }

    /** Number of elements, as `numel()` reports it. */
    function Numel(): nat {
      |rows| * cols
    }
  }

  /** The four reals of column group `g` of a row: columns 4g .. 4g+3. */
  function Group(row: seq<real>, g: nat): (q: Quad)
    requires 4 * g + 3 < |row|
  {
    Quad(row[4 * g], row[4 * g + 1], row[4 * g + 2], row[4 * g + 3])
  }

  function QuadToSeq(q: Quad): (s: seq<real>)
    ensures |s| == 4 && Group(s, 0) == q
  {
    [q.x1, q.y1, q.x2, q.y2]
  }
}

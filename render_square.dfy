/** `buildSquareVertexXYPositions` (src/app/render/renderSquare.ts): the clip-space
    positions of the two triangles covering a `width` × `height` pixel rectangle whose
    top-left corner is at pixel `(x, y)` of the canvas. */
module RenderSquare {

  datatype CanvasSize = CanvasSize(width: real, height: real)

  /** The unit square as two triangles, six `(x, y)` pairs. */
  const Template: seq<real> := [-1.0, 1.0, 1.0, 1.0, 1.0, -1.0, 1.0, -1.0, -1.0, -1.0, -1.0, 1.0]

  /** `v < 0 ? 0 : (v > size ? size : v)`. */
  function ClampToCanvas(v: real, size: real): (r: real)
    ensures 0.0 <= size ==> 0.0 <= r <= size
    ensures 0.0 <= v <= size ==> r == v
  {
    if v < 0.0 then 0.0 else if v > size then size else v
  }

  /** The first `map`: odd entries are scaled to the rectangle's height and pushed to the
      top edge, even entries scaled to its width and pushed to the left edge. */
  function Scaled(canvas: CanvasSize, width: real, height: real, i: nat): real
    requires canvas.width != 0.0 && canvas.height != 0.0 && i < 12
  {
    if i % 2 == 1 then (height / canvas.height) * Template[i] + (1.0 - height / canvas.height)
    else (width / canvas.width) * Template[i] - (1.0 - width / canvas.width)
  }

  /** `buildSquareVertexXYPositions(canvasSize, width, height, x, y)`: the second `map`
      shifts by the clamped corner. */
  function BuildSquareVertexXYPositions(canvas: CanvasSize, width: real, height: real, x: real, y: real): (r: seq<real>)
    requires canvas.width != 0.0 && canvas.height != 0.0
    ensures |r| == 12
  {
    var clX := ClampToCanvas(x, canvas.width);
    var clY := ClampToCanvas(y, canvas.height);
    seq(12, i requires 0 <= i < 12 =>
      if i % 2 == 1 then Scaled(canvas, width, height, i) - (clY / canvas.height) * 2.0
      else Scaled(canvas, width, height, i) + (clX / canvas.width) * 2.0)
  }

  /** Clip-space x of pixel column `px`: the canvas spans `[-1, 1]` left to right. */
  function ClipX(canvas: CanvasSize, px: real): real
    requires canvas.width != 0.0
  {
    2.0 * (px / canvas.width) - 1.0
  }

  /** Clip-space y of pixel row `py`: rows grow downwards, clip space upwards. */
  function ClipY(canvas: CanvasSize, py: real): real
    requires canvas.height != 0.0
  {
    1.0 - 2.0 * (py / canvas.height)
  }

  lemma DivideSum(a: real, b: real, d: real)
    requires d != 0.0
    ensures (a + b) / d == a / d + b / d
  {
  }

  /** The six points are the rectangle's corners in clip space: top-left, top-right,
      bottom-right twice, bottom-left, top-left again, with the corner clamped into the
      canvas first. */
  lemma SquareCorners(canvas: CanvasSize, width: real, height: real, x: real, y: real)
    requires canvas.width != 0.0 && canvas.height != 0.0
    ensures var r := BuildSquareVertexXYPositions(canvas, width, height, x, y);
            var clX, clY := ClampToCanvas(x, canvas.width), ClampToCanvas(y, canvas.height);
            var left, right := ClipX(canvas, clX), ClipX(canvas, clX + width);
            var top, bottom := ClipY(canvas, clY), ClipY(canvas, clY + height);
            r[0] == left && r[1] == top && r[2] == right && r[3] == top &&
            r[4] == right && r[5] == bottom && r[6] == right && r[7] == bottom &&
            r[8] == left && r[9] == bottom && r[10] == left && r[11] == top
  {
    var clX, clY := ClampToCanvas(x, canvas.width), ClampToCanvas(y, canvas.height);
    DivideSum(clX, width, canvas.width);
    DivideSum(clY, height, canvas.height);
  }

  /** A rectangle the size of the canvas at the origin is the template itself. */
  lemma FullCanvasIsTemplate(canvas: CanvasSize)
    requires canvas.width > 0.0 && canvas.height > 0.0
    ensures BuildSquareVertexXYPositions(canvas, canvas.width, canvas.height, 0.0, 0.0) == Template
  {
    var r := BuildSquareVertexXYPositions(canvas, canvas.width, canvas.height, 0.0, 0.0);
    assert canvas.width / canvas.width == 1.0 && canvas.height / canvas.height == 1.0;
    forall i | 0 <= i < 12
      ensures r[i] == Template[i]
    {
    }
  }

  /** A corner outside the canvas is drawn where the nearest point of the canvas is. */
  lemma OutsideCornerIsClamped(canvas: CanvasSize, width: real, height: real, x: real, y: real)
    requires canvas.width > 0.0 && canvas.height > 0.0
    ensures BuildSquareVertexXYPositions(canvas, width, height, x, y)
         == BuildSquareVertexXYPositions(canvas, width, height,
              ClampToCanvas(x, canvas.width), ClampToCanvas(y, canvas.height))
  {
  }
}

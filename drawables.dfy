/**
 * The shapes of the drawing program (js/drawables.js).
 *
 * A drawable keeps the click position in vertex slot 0 and, in the slots after
 * it, offsets that are scaled by the canvas height. On the first buffer build it
 * turns the click position into a ratio of the canvas size (`locRatio`), fixed
 * from then on, so that a resize moves the shape with the canvas. Its vertex
 * buffer is either not built (`null` in the program) or holds the coordinates
 * computed for the canvas size at the time it was built.
 */
module Drawables {
  import opened Utils
  import opened WebGl

  type Positive = r: real | r > 0.0 witness 1.0

  /** `Math.sqrt(3)`: nothing is assumed of it but that it is positive. */
  const Sqrt3: Positive

  datatype Vec2 = Vec2(x: real, y: real)

  /** The length-1 value `locRatio` holds until the first buffer build. */
  const Unset: seq<real> := [-1.0]

  /** `vertices_buffer`: `null`, or a buffer holding the uploaded coordinates. */
  datatype VertexBuffer = Null | Built(coords: seq<real>)

  /** The five shape classes the program exports. */
  datatype ShapeKind = PointShape | TriangleShape | SquareShape | HLineShape | VLineShape

  /** The `switch` in `render`: the draw mode for a primitive tag. */
  function PrimitiveOf(tag: string): (mode: Primitive)
    ensures mode == Points <==> tag == "p"
    ensures mode == TriangleStrip <==> tag == "s"
    ensures mode == Triangles <==> tag == "t"
    ensures mode == LineLoop <==> tag != "p" && tag != "s" && tag != "t"
  {
    if tag == "p" then Points
    else if tag == "s" then TriangleStrip
    else if tag == "t" then Triangles
    else LineLoop
  }

  /** The ratio `createBuffer` stores: the click position over the canvas size. */
  function AnchorRatio(click: Vec2, width: real, height: real): seq<real>
    requires width > 0.0 && height > 0.0
  {
    [click.x / width, click.y / height]
  }

  /**
   * What `CollapseVariables` returns: one (x, y) pair per offset, the anchor
   * placed at `locRatio` on a `w` by `h` canvas plus the offset times `h`.
   */
  function Collapse(locRatio: seq<real>, offsets: seq<Vec2>, w: real, h: real): (coords: seq<real>)
    requires |locRatio| == 2
    ensures |coords| == 2 * |offsets|
  {
    if offsets == [] then []
    else
      Collapse(locRatio, offsets[..|offsets| - 1], w, h) + Place(locRatio, offsets[|offsets| - 1], w, h)
  }

  /** The (x, y) pair one offset contributes. */
  function Place(locRatio: seq<real>, offset: Vec2, w: real, h: real): seq<real>
    requires |locRatio| == 2
  {
    [locRatio[0] * w + offset.x * h, locRatio[1] * h + offset.y * h]
  }

  /** Appending an offset appends its pair. */
  lemma CollapseSnoc(locRatio: seq<real>, offsets: seq<Vec2>, v: Vec2, w: real, h: real)
    requires |locRatio| == 2
    ensures Collapse(locRatio, offsets + [v], w, h) == Collapse(locRatio, offsets, w, h) + Place(locRatio, v, w, h)
  {
    assert (offsets + [v])[..|offsets|] == offsets;
  }

  /** Pair `k` of the coordinates is offset `k` placed around the anchor. */
  lemma {:induction false} CollapsePair(locRatio: seq<real>, offsets: seq<Vec2>, w: real, h: real, k: nat)
    requires |locRatio| == 2 && k < |offsets|
    ensures Collapse(locRatio, offsets, w, h)[2 * k] == locRatio[0] * w + offsets[k].x * h
    ensures Collapse(locRatio, offsets, w, h)[2 * k + 1] == locRatio[1] * h + offsets[k].y * h
  {
    var init := offsets[..|offsets| - 1];
    if k < |init| {
      CollapsePair(locRatio, init, w, h, k);
      assert init[k] == offsets[k];
    }
  }

  /** An offset of (0, 0) lands exactly on the anchor, whatever the canvas size. */
  lemma AnchorSlot(locRatio: seq<real>, offsets: seq<Vec2>, w: real, h: real, k: nat)
    requires |locRatio| == 2 && k < |offsets| && offsets[k] == Vec2(0.0, 0.0)
    ensures Collapse(locRatio, offsets, w, h)[2 * k] == locRatio[0] * w
    ensures Collapse(locRatio, offsets, w, h)[2 * k + 1] == locRatio[1] * h
  {
    CollapsePair(locRatio, offsets, w, h, k);
  }

  /**
   * Resize-stable placement: an anchor slot of a shape clicked at `click` on a
   * `w0` by `h0` canvas is drawn, on any later `w1` by `h1` canvas, at the same
   * fraction of the canvas as the click was.
   */
  lemma ResizeStablePlacement(click: Vec2, w0: real, h0: real, offsets: seq<Vec2>, k: nat, w1: real, h1: real)
    requires w0 > 0.0 && h0 > 0.0 && k < |offsets| && offsets[k] == Vec2(0.0, 0.0)
    ensures Collapse(AnchorRatio(click, w0, h0), offsets, w1, h1)[2 * k] == click.x / w0 * w1
    ensures Collapse(AnchorRatio(click, w0, h0), offsets, w1, h1)[2 * k + 1] == click.y / h0 * h1
  {
    AnchorSlot(AnchorRatio(click, w0, h0), offsets, w1, h1, k);
  }

  /** A point clicked at the centre of an 800 by 600 canvas is drawn at the centre of a 1000 by 500 one. */
  lemma CentredPointAfterResize()
    ensures Collapse(AnchorRatio(Vec2(400.0, 300.0), 800.0, 600.0), PointVertices(Vec2(400.0, 300.0))[1..], 1000.0, 500.0)
            == [500.0, 250.0]
  {
    var coords := Collapse(AnchorRatio(Vec2(400.0, 300.0), 800.0, 600.0), [Vec2(0.0, 0.0)], 1000.0, 500.0);
    assert PointVertices(Vec2(400.0, 300.0))[1..] == [Vec2(0.0, 0.0)];
    assert coords[0] == 500.0 && coords[1] == 250.0;
  }

  // ---------------------------------------------------------------------------
  // Vertex templates: slot 0 is the click, the rest are offsets.

  function PointVertices(click: Vec2): seq<Vec2>
  {
    [click, Vec2(0.0, 0.0)]
  }

  const TriangleBottomLeft := Vec2(-1.0 / 16.0, Sqrt3 / 32.0)
  const TriangleTop := Vec2(0.0, -(Sqrt3 as real) / 32.0)
  const TriangleBottomRight := Vec2(1.0 / 16.0, Sqrt3 / 32.0)

  function TriangleVertices(center: Vec2, drawType: string): seq<Vec2>
  {
    if drawType == "outline" then [center, TriangleBottomLeft, TriangleTop, TriangleBottomRight, TriangleBottomLeft]
    else [center, TriangleBottomLeft, TriangleTop, TriangleBottomRight]
  }

  function TriangleTag(drawType: string): string
  {
    if drawType == "outline" then "to" else "t"
  }

  const SquareBottomLeft := Vec2(-0.05, 0.05)
  const SquareTopLeft := Vec2(-0.05, -0.05)
  const SquareTopRight := Vec2(0.05, -0.05)
  const SquareBottomRight := Vec2(0.05, 0.05)

  function SquareVertices(center: Vec2, drawType: string): seq<Vec2>
  {
    if drawType == "outline" then [center, SquareBottomLeft, SquareTopLeft, SquareTopRight, SquareBottomRight, SquareBottomLeft]
    else [center, SquareBottomLeft, SquareTopLeft, SquareBottomRight, SquareTopRight]
  }

  function SquareTag(drawType: string): string
  {
    if drawType == "outline" then "so" else "s"
  }

  function LineVertices(click: Vec2, end: Vec2): seq<Vec2>
  {
    [click, Vec2(0.0, 0.0), end]
  }

  const HLineEnd := Vec2(0.25, 0.0)
  const VLineEnd := Vec2(0.0, 0.25)

  /** The vertex list of each shape class, as its constructor builds it. */
  function VerticesOf(kind: ShapeKind, click: Vec2, drawType: string): seq<Vec2>
  {
    match kind
    case PointShape => PointVertices(click)
    case TriangleShape => TriangleVertices(click, drawType)
    case SquareShape => SquareVertices(click, drawType)
    case HLineShape => LineVertices(click, HLineEnd)
    case VLineShape => LineVertices(click, VLineEnd)
  }

  /** The primitive tag each shape class hands to the base constructor. */
  function TagOf(kind: ShapeKind, drawType: string): string
  {
    match kind
    case PointShape => "p"
    case TriangleShape => TriangleTag(drawType)
    case SquareShape => SquareTag(drawType)
    case HLineShape => "l"
    case VLineShape => "l"
  }

  /** Every template keeps the click in slot 0. */
  lemma ClickInSlotZero(kind: ShapeKind, click: Vec2, drawType: string)
    ensures |VerticesOf(kind, click, drawType)| >= 2 && VerticesOf(kind, click, drawType)[0] == click
  {
  }

  /** The number of vertices drawn (`vertices.length - 1`) for each class and style. */
  lemma DrawCounts(click: Vec2, drawType: string)
    ensures |PointVertices(click)| - 1 == 1
    ensures |TriangleVertices(click, "outline")| - 1 == 4
    ensures drawType != "outline" ==> |TriangleVertices(click, drawType)| - 1 == 3
    ensures |SquareVertices(click, "outline")| - 1 == 5
    ensures drawType != "outline" ==> |SquareVertices(click, drawType)| - 1 == 4
    ensures |LineVertices(click, HLineEnd)| - 1 == 2 && |LineVertices(click, VLineEnd)| - 1 == 2
  {
  }

  /** The draw mode each class and style ends up with. */
  lemma TemplatePrimitives(drawType: string)
    ensures PrimitiveOf(TagOf(PointShape, drawType)) == Points
    ensures PrimitiveOf(TagOf(TriangleShape, drawType)) == if drawType == "outline" then LineLoop else Triangles
    ensures PrimitiveOf(TagOf(SquareShape, drawType)) == if drawType == "outline" then LineLoop else TriangleStrip
    ensures PrimitiveOf(TagOf(HLineShape, drawType)) == LineLoop
    ensures PrimitiveOf(TagOf(VLineShape, drawType)) == LineLoop
  {
  }

  /**
   * Outline templates close their loop by repeating the first offset last;
   * any style other than "outline" gives the filled template.
   */
  lemma OutlinesClose(click: Vec2, drawType: string)
    ensures var t := TriangleVertices(click, "outline"); t[1] == t[|t| - 1]
    ensures var s := SquareVertices(click, "outline"); s[1] == s[|s| - 1]
    ensures drawType != "outline" ==>
              TriangleVertices(click, drawType) == TriangleVertices(click, "filled") &&
              SquareVertices(click, drawType) == SquareVertices(click, "filled")
  {
  }

  /** The point and both lines draw their first vertex on the anchor itself. */
  lemma AnchoredFirstVertex(kind: ShapeKind, click: Vec2, drawType: string)
    requires kind == PointShape || kind == HLineShape || kind == VLineShape
    ensures VerticesOf(kind, click, drawType)[1] == Vec2(0.0, 0.0)
  {
  }

  function DistanceSquared(a: Vec2, b: Vec2): real
  {
    (a.x - b.x) * (a.x - b.x) + (a.y - b.y) * (a.y - b.y)
  }

  /** With the true square root of 3 the triangle template is equilateral, of side 1/8. */
  lemma TriangleIsEquilateral()
    requires Sqrt3 * Sqrt3 == 3.0
    ensures DistanceSquared(TriangleBottomLeft, TriangleTop) == 1.0 / 64.0
    ensures DistanceSquared(TriangleTop, TriangleBottomRight) == 1.0 / 64.0
    ensures DistanceSquared(TriangleBottomRight, TriangleBottomLeft) == 1.0 / 64.0
  {
  }

  // ---------------------------------------------------------------------------

  class Drawable {
    const vertices: seq<Vec2>   // slot 0: click position; then offsets scaled by canvas height
    const color: Color
    const primitiveType: string // "p", "t", "to", "s", "so" or "l"
    const pointSize: real
    var verticesBuffer: VertexBuffer
    var locRatio: seq<real>     // Unset, or the click as a fraction of the canvas size

    ghost predicate Valid()
      reads this
    {
      |vertices| >= 1 &&
      (locRatio == Unset || |locRatio| == 2) &&
      (verticesBuffer.Built? ==> |locRatio| == 2)
    }

    /** The built buffer, if any, holds the coordinates for a `w` by `h` canvas. */
    ghost predicate UpToDate(w: nat, h: nat)
      reads this
    {
      Valid() &&
      (verticesBuffer.Built? ==> verticesBuffer.coords == Collapse(locRatio, vertices[1..], w as real, h as real))
    }

    /** The draw call `render` issues once the buffer is built for a `w` by `h` canvas. */
    ghost function Drawn(w: nat, h: nat): DrawCall
      reads this
      requires Valid() && |locRatio| == 2
    {
      DrawCall(PrimitiveOf(primitiveType), 0, |vertices| - 1, Collapse(locRatio, vertices[1..], w as real, h as real),
               color, h as real / 100.0, Resolution(w, h))
    }

    constructor (vertices: seq<Vec2>, color: Color, primitiveType: string, pointSize: real)
      requires |vertices| >= 1
      ensures Valid()
      ensures this.vertices == vertices && this.color == color
      ensures this.primitiveType == primitiveType && this.pointSize == pointSize
      ensures verticesBuffer == Null && locRatio == Unset
    {
      this.vertices := vertices;
      this.verticesBuffer := Null;
      this.color := color;
      this.primitiveType := primitiveType;
      this.pointSize := pointSize;
      this.locRatio := Unset;
    }

    /**
     * `createBuffer`: fixes `locRatio` on the first build only, then fills the
     * buffer with the coordinates for the current canvas.
     */
    method CreateBuffer(gl: GlContext)
      requires Valid() && gl.width > 0 && gl.height > 0
      modifies this
      ensures Valid()
      ensures old(|locRatio|) == 1 ==> locRatio == AnchorRatio(vertices[0], gl.width as real, gl.height as real)
      ensures old(|locRatio|) != 1 ==> locRatio == old(locRatio)
      ensures verticesBuffer == Built(Collapse(locRatio, vertices[1..], gl.width as real, gl.height as real))
    {
      if |locRatio| == 1 {
        locRatio := [vertices[0].x / gl.width as real, vertices[0].y / gl.height as real];
      }
      var coords := CollapseVariables(gl.width as real, gl.height as real);
      verticesBuffer := Built(coords);
    }

    /**
     * `render`: builds the buffer if it is not built, then issues one draw call
     * of `vertices.length - 1` vertices in the mode the tag selects, with the
     * point size taken from the resolution's height.
     */
    method Render(gl: GlContext, resolution: Resolution)
      requires Valid() && gl.width > 0 && gl.height > 0
      modifies this, gl`draws
      ensures Valid() && verticesBuffer.Built?
      ensures old(verticesBuffer.Built?) ==> verticesBuffer == old(verticesBuffer) && locRatio == old(locRatio)
      ensures old(verticesBuffer.Null?) ==> UpToDate(gl.width, gl.height)
      ensures old(|locRatio|) == 1 ==> locRatio == AnchorRatio(vertices[0], gl.width as real, gl.height as real)
      ensures old(|locRatio|) != 1 ==> locRatio == old(locRatio)
      ensures gl.draws == old(gl.draws) + [DrawCall(PrimitiveOf(primitiveType), 0, |vertices| - 1, verticesBuffer.coords,
                                                    color, resolution.height as real / 100.0, resolution)]
    {
      if verticesBuffer == Null {
        CreateBuffer(gl);
      }
      var primType := LineLoop;
      if primitiveType == "p" {
        primType := Points;
      } else if primitiveType == "s" {
        primType := TriangleStrip;
      } else if primitiveType == "t" {
        primType := Triangles;
      }
      gl.DrawArrays(DrawCall(primType, 0, |vertices| - 1, verticesBuffer.coords,
                             color, resolution.height as real / 100.0, resolution));
    }

    /** `CollapseVariables`: the loop that pushes one (x, y) pair per offset. */
    method CollapseVariables(width: real, height: real) returns (coords: seq<real>)
      requires |vertices| >= 1 && |locRatio| == 2
      ensures coords == Collapse(locRatio, vertices[1..], width, height)
      ensures |coords| == 2 * (|vertices| - 1)
    {
      coords := [];
      for i := 1 to |vertices|
        invariant coords == Collapse(locRatio, vertices[1..i], width, height)
      {
        var newPointX := locRatio[0] * width + vertices[i].x * height;
        var newPointY := locRatio[1] * height + vertices[i].y * height;
        assert vertices[1..i + 1] == vertices[1..i] + [vertices[i]];
        CollapseSnoc(locRatio, vertices[1..i], vertices[i], width, height);
        assert Place(locRatio, vertices[i], width, height)[0] == newPointX;
        assert Place(locRatio, vertices[i], width, height)[1] == newPointY;
        coords := coords + [newPointX, newPointY];
      }
      assert vertices[1..|vertices|] == vertices[1..];
    }

    /** `resize`: drops the buffer so the next render rebuilds it; nothing else changes. */
    method Resize()
      requires Valid()
      modifies this`verticesBuffer
      ensures Valid() && verticesBuffer == Null
    {
      verticesBuffer := Null;
    }

    /** A freshly constructed shape of the given vertices, colour and tag. */
    ghost predicate IsNew(vs: seq<Vec2>, c: Color, tag: string)
      reads this
    {
      Valid() && vertices == vs && color == c && primitiveType == tag && pointSize == 0.0 &&
      verticesBuffer == Null && locRatio == Unset
    }
  }

  // ---------------------------------------------------------------------------
  // The subclasses' constructors: each builds its vertex list and calls the base constructor.

  method NewPoint(click: Vec2, color: Color) returns (d: Drawable)
    ensures fresh(d) && d.IsNew(PointVertices(click), color, "p")
  {
    d := new Drawable([click, Vec2(0.0, 0.0)], color, "p", 0.0);
  }

  method NewTriangle(centerCoords: Vec2, color: Color, drawType: string) returns (d: Drawable)
    ensures fresh(d) && d.IsNew(TriangleVertices(centerCoords, drawType), color, TriangleTag(drawType))
  {
    var vertices := [centerCoords];
    var outline := "";
    if drawType == "outline" {
      vertices := vertices + [Vec2(-1.0 / 16.0, Sqrt3 / 32.0)]; // bottom-left
      vertices := vertices + [Vec2(0.0, -(Sqrt3 as real) / 32.0)];       // top
      vertices := vertices + [Vec2(1.0 / 16.0, Sqrt3 / 32.0)];  // bottom-right
      vertices := vertices + [Vec2(-1.0 / 16.0, Sqrt3 / 32.0)]; // bottom-left
      outline := "o";
    } else {
      vertices := vertices + [Vec2(-1.0 / 16.0, Sqrt3 / 32.0)]; // bottom-left
      vertices := vertices + [Vec2(0.0, -(Sqrt3 as real) / 32.0)];       // top
      vertices := vertices + [Vec2(1.0 / 16.0, Sqrt3 / 32.0)];  // bottom-right
    }
    d := new Drawable(vertices, color, "t" + outline, 0.0);
  }

  method NewSquare(centerCoords: Vec2, color: Color, drawType: string) returns (d: Drawable)
    ensures fresh(d) && d.IsNew(SquareVertices(centerCoords, drawType), color, SquareTag(drawType))
  {
    var vertices := [centerCoords];
    var outline := "";
    if drawType == "outline" {
      vertices := vertices + [Vec2(-0.05, 0.05)];  // bottom-left
      vertices := vertices + [Vec2(-0.05, -0.05)]; // top-left
      vertices := vertices + [Vec2(0.05, -0.05)];  // top-right
      vertices := vertices + [Vec2(0.05, 0.05)];   // bottom-right
      vertices := vertices + [Vec2(-0.05, 0.05)];  // bottom-left
      outline := "o";
    } else {
      vertices := vertices + [Vec2(-0.05, 0.05)];  // bottom-left
      vertices := vertices + [Vec2(-0.05, -0.05)]; // top-left
      vertices := vertices + [Vec2(0.05, 0.05)];   // bottom-right
      vertices := vertices + [Vec2(0.05, -0.05)];  // top-right
    }
    d := new Drawable(vertices, color, "s" + outline, 0.0);
  }

  method NewLine(clickCoords: Vec2, endCoords: Vec2, color: Color) returns (d: Drawable)
    ensures fresh(d) && d.IsNew(LineVertices(clickCoords, endCoords), color, "l")
  {
    d := new Drawable([clickCoords, Vec2(0.0, 0.0), endCoords], color, "l", 0.0);
  }

  method NewHLine(startCoords: Vec2, color: Color) returns (d: Drawable)
    ensures fresh(d) && d.IsNew(LineVertices(startCoords, HLineEnd), color, "l")
  {
    d := NewLine(startCoords, Vec2(0.25, 0.0), color);
  }

  method NewVLine(startCoords: Vec2, color: Color) returns (d: Drawable)
    ensures fresh(d) && d.IsNew(LineVertices(startCoords, VLineEnd), color, "l")
  {
    d := NewLine(startCoords, Vec2(0.0, 0.25), color);
  }
}

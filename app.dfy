/**
 * The scene (js/app.js): the ordered list of drawables, appended to by the
 * click handler, emptied by the clear key, invalidated on resize and drawn in
 * insertion order every frame.
 */
module Scene {
  import opened Utils
  import opened WebGl
  import opened Drawables

  class App {
    const gl: GlContext
    var objs: seq<Drawable>

    /**
     * The canvas has a positive size, every drawable is well formed, and every
     * built buffer holds the coordinates for the current canvas size: resizing
     * invalidates every buffer, so no stale one survives.
     */
    ghost predicate Valid()
      reads this, gl, objs
    {
      gl.width > 0 && gl.height > 0 &&
      forall o :: o in objs ==> o.UpToDate(gl.width, gl.height)
    }

    /** Starts with no objects and sizes the canvas to the display. */
    constructor (gl: GlContext, width: nat, height: nat)
      requires width > 0 && height > 0
      modifies gl
      ensures Valid() && this.gl == gl && objs == []
      ensures gl.width == width && gl.height == height && gl.draws == old(gl.draws)
    {
      this.gl := gl;
      objs := [];
      new;
      ResizeToDisplay(width, height);
    }

    /**
     * `resizeToDisplay`: takes the new canvas size and drops every object's
     * buffer; the list, its order and every `locRatio` stay as they were.
     */
    method ResizeToDisplay(width: nat, height: nat)
      requires width > 0 && height > 0
      requires forall o :: o in objs ==> o.Valid()
      modifies gl`width, gl`height, objs
      ensures Valid()
      ensures gl.width == width && gl.height == height
      ensures forall o :: o in objs ==> o.verticesBuffer == Null && o.locRatio == old(o.locRatio)
    {
      gl.width := width;
      gl.height := height;
      for i := 0 to |objs|
        invariant gl.width == width && gl.height == height
        invariant forall o :: o in objs ==> o.Valid() && o.locRatio == old(o.locRatio)
        invariant forall j :: 0 <= j < i ==> objs[j].verticesBuffer == Null
      {
        objs[i].Resize();
      }
    }

    /** `addObject`: appends at the end, leaving the earlier objects in place. */
    method AddObject(obj: Drawable)
      requires Valid() && obj.UpToDate(gl.width, gl.height)
      modifies this`objs
      ensures Valid() && objs == old(objs) + [obj]
    {
      objs := objs + [obj];
    }

    /** `clearCanvas`: empties the scene. */
    method ClearCanvas()
      requires Valid()
      modifies this`objs
      ensures Valid() && objs == []
    {
      objs := [];
    }

    /**
     * `render`: renders every object exactly once, in insertion order, with the
     * canvas size as resolution. Afterwards every object has a built buffer,
     * and the draw calls appended are, one per object, its primitive, its
     * vertex count and its coordinates for the current canvas. A shape drawn
     * for the first time takes its anchor ratio from the current canvas.
     */
    method Render()
      requires Valid()
      modifies gl`draws, objs
      ensures Valid()
      ensures |gl.draws| == |old(gl.draws)| + |objs|
      ensures gl.draws[..|old(gl.draws)|] == old(gl.draws)
      ensures forall i :: 0 <= i < |objs| ==>
                objs[i].Valid() && objs[i].verticesBuffer.Built? &&
                gl.draws[|old(gl.draws)| + i] == objs[i].Drawn(gl.width, gl.height)
      ensures forall o :: o in objs ==> old(o.locRatio) == Unset || o.locRatio == old(o.locRatio)
      ensures forall o :: o in objs && old(o.locRatio) == Unset ==>
                o.locRatio == AnchorRatio(o.vertices[0], gl.width as real, gl.height as real)
    {
      var resolution := Resolution(gl.width, gl.height);
      for i := 0 to |objs|
        invariant Valid()
        invariant |gl.draws| == |old(gl.draws)| + i
        invariant gl.draws[..|old(gl.draws)|] == old(gl.draws)
        invariant forall j :: 0 <= j < i ==>
                    objs[j].Valid() && objs[j].verticesBuffer.Built? &&
                    gl.draws[|old(gl.draws)| + j] == objs[j].Drawn(gl.width, gl.height)
        invariant forall o :: o in objs ==> old(o.locRatio) == Unset || o.locRatio == old(o.locRatio)
        invariant forall o :: o in objs && old(o.locRatio) == Unset ==>
                    o.locRatio == Unset || o.locRatio == AnchorRatio(o.vertices[0], gl.width as real, gl.height as real)
      {
        assert objs[i] in objs;
        objs[i].Render(gl, resolution);
      }
    }
  }

  /** The coordinates `Drawn` gives the point of `ResizeScenario` on the second frame. */
  lemma CentredCoords(locRatio: seq<real>, vertices: seq<Vec2>)
    requires locRatio == AnchorRatio(Vec2(400.0, 300.0), 800.0, 600.0)
    requires vertices == PointVertices(Vec2(400.0, 300.0))
    ensures Collapse(locRatio, vertices[1..], 1000 as real, 500 as real) == [500.0, 250.0]
  {
    CentredPointAfterResize();
  }

  /** The first frame of `ResizeScenario`: one point clicked at the centre and drawn. */
  method FirstFrame() returns (app: App, d: Drawable)
    ensures fresh(app) && fresh(app.gl) && fresh(d)
    ensures app.Valid() && app.objs == [d] && app.gl.width == 800 && app.gl.height == 600
    ensures d.Valid() && d.locRatio == AnchorRatio(Vec2(400.0, 300.0), 800.0, 600.0)
    ensures d.vertices == PointVertices(Vec2(400.0, 300.0))
  {
    var gl := new GlContext(1, 1);
    app := new App(gl, 800, 600);
    d := NewPoint(Vec2(400.0, 300.0), Hex2Rgb("#022851"));
    app.AddObject(d);
    assert app.objs == [d] && d in app.objs;
    app.Render();
  }

  /**
   * A point clicked at the centre of an 800 by 600 canvas, drawn, then
   * redrawn after the display becomes 1000 by 500: the second frame draws it
   * at the same fraction of the new canvas.
   */
  method ResizeScenario() returns (coords: seq<real>)
    ensures coords == [500.0, 250.0]
  {
    var app, d := FirstFrame();
    app.ResizeToDisplay(1000, 500);
    var before := |app.gl.draws|;
    app.Render();
    assert app.objs[0] == d && |app.objs| == 1;
    assert app.gl.draws[before + 0] == d.Drawn(1000, 500);
    coords := app.gl.draws[before].coords;
    CentredCoords(d.locRatio, d.vertices);
  }
}

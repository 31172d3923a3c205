/**
 * An abstraction of the WebGL2 context the drawing code talks to: the canvas
 * size it reads and the log of `drawArrays` calls it issues, each with the
 * uniforms and buffer contents that were bound when it was issued.
 */
module WebGl {
  import opened Utils

  /** The draw modes used by the program. */
  datatype Primitive = Points | LineLoop | TriangleStrip | Triangles

  /** The `[width, height]` pair handed to each drawable's render call. */
  datatype Resolution = Resolution(width: nat, height: nat)

  /** One `gl.drawArrays(mode, first, count)` call together with what it draws. */
  datatype DrawCall = DrawCall(
    mode: Primitive,
    first: int,
    count: int,
    coords: seq<real>,     // contents of the bound vertex buffer
    color: Color,          // u_color
    pointSize: real,       // u_pointSize
    resolution: Resolution // u_resolution
  )

  class GlContext {
    var width: nat           // gl.canvas.width
    var height: nat          // gl.canvas.height
    var draws: seq<DrawCall> // every drawArrays call so far, oldest first

    constructor (width: nat, height: nat)
      ensures this.width == width && this.height == height && draws == []
    {
      this.width := width;
      this.height := height;
      draws := [];
    }

    method DrawArrays(call: DrawCall)
      modifies this`draws
      ensures draws == old(draws) + [call]
    {
      draws := draws + [call];
    }
  }
}

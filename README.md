# Interactive 2D drawing app: shape model and scene bookkeeping

This project models the core of a browser drawing demo. A click on the canvas
places a point, a triangle, a square, or a horizontal or vertical line. Keyboard
shortcuts pick the shape, the colour (blue or gold) and the style (filled or
outline), and the `c` key clears the scene. Every frame draws each shape once,
in insertion order.

The model follows the program's three core files:

- `drawables.dfy` (module `Drawables`) covers `js/drawables.js`. A `Drawable`
  class holds the vertex list, colour, primitive tag and point size, which never
  change after construction. It also holds the two fields that do change:
  `locRatio` and `verticesBuffer`.
  - Slot 0 of the vertex list is the click position. The other slots are offsets
    scaled by the canvas height.
  - `locRatio` starts as the length-1 sentinel `[-1]`. The first buffer build
    sets it, once, to the click position divided by the canvas size.
  - `verticesBuffer` is `Null` or `Built(coords)`. `Render` builds it lazily and
    `Resize` drops it.
  - `Collapse` is a recursive definition of what `CollapseVariables` computes.
    The method keeps the source's loop and is proved equal to it.
  - The subclasses become the factory methods `NewPoint`, `NewTriangle`,
    `NewSquare`, `NewLine`, `NewHLine` and `NewVLine`, each specified by a
    template function. `NewTriangle` and `NewSquare` build their vertex lists by
    appending, as their constructors do. `NewPoint` and `NewLine` pass a literal
    list (js/drawables.js:146 and :222). `NewHLine` and `NewVLine` call `NewLine`
    with their end offset.
- `app.dfy` (module `Scene`) covers `js/app.js`. The class `App` holds the ordered
  list `objs`, with append, clear, resize and render. Its invariant says every
  built buffer holds the coordinates for the current canvas size. A resize
  empties every buffer, so no stale buffer is ever drawn.
- `appstate.dfy` (module `State`) covers `js/appstate.js`. The class `AppState`
  holds three mode fields and the frame handler `Update`:
  - `UpdateKeys` is the if/else-if key chain.
  - `CreateShape` is the click handler's `switch`.
  - `Update` runs the two in the source's order.

Three small modules stand in for code outside this core:

- `webgl.dfy` (module `WebGl`) models the WebGL context. It records the canvas
  size and a log of draw calls. Each call holds its mode, first vertex, vertex
  count, buffer contents, colour, point size and resolution.
- `utils.dfy` (module `Utils`) models `hex2rgb` as an opaque colour built from
  its hex string.
- `wrappers.dfy` (module `Wrappers`) defines `Option`.

Numbers are reals. `Math.sqrt(3)` is the constant `Sqrt3`, and the model assumes
only that it is positive.

Two details of the program shape what the model states:

- A Point carries one offset, `[0, 0]`, so it draws one vertex
  (js/drawables.js:146).
- The anchor ratio is fixed at the first buffer build, which happens at the first
  render, not when the shape is created (js/drawables.js:36-41). If a resize
  happens between the click and the first render, the ratio uses the new canvas
  size.

The click guard at js/appstate.js:125 tests `mouseX` (capital X) instead of the
`mousex` the shape is built from. The model records that guard as written, but
`Update` guards on `mousex` and `mousey`. See Findings.

## Model

| member | source | states |
|---|---|---|
| `Drawables.Drawable.constructor` | js/drawables.js:11-27 | A new drawable has a null buffer and the length-1 sentinel `[-1]` as `locRatio`, and keeps the vertices, colour, tag and point size it was given |
| `Drawables.Drawable.CreateBuffer` | js/drawables.js:33-56 | `locRatio` is set to click / canvas size only when its length is 1, and is otherwise unchanged. The buffer then holds `Collapse` of the offsets at the current canvas size |
| `Drawables.Drawable.Render` | js/drawables.js:64-98 | Builds the buffer only when it is null, so the buffer is built afterwards. An already built buffer and its `locRatio` are untouched. Appends exactly one draw call: mode `PrimitiveOf(tag)`, first 0, count `vertices.length - 1`, the buffer's coordinates, the colour, point size `resolution[1] / 100`, and the resolution |
| `Drawables.Drawable.CollapseVariables` | js/drawables.js:113-127 | The loop returns exactly `Collapse(locRatio, offsets, width, height)`, which has `2 * (vertices.length - 1)` numbers. It reads state only |
| `Drawables.Drawable.Resize` | js/drawables.js:133-136 | Sets the buffer back to null and changes nothing else; `locRatio` is outside its frame |
| `Drawables.PrimitiveOf` | js/drawables.js:82-94 | Tag `"p"` gives POINTS, `"s"` gives TRIANGLE_STRIP, `"t"` gives TRIANGLES, and every other tag gives LINE_LOOP, each as an if-and-only-if |
| `Drawables.Collapse` | js/drawables.js:113-127 | The coordinate list has exactly two numbers per offset |
| `Drawables.CollapsePair` | js/drawables.js:117-124 | Pair k is `(locRatio[0]*w + offset[k].x*h, locRatio[1]*h + offset[k].y*h)` |
| `Drawables.CollapseSnoc` | js/drawables.js:117-124 | Pushing one more offset appends exactly its pair to the coordinates |
| `Drawables.AnchorSlot` | js/drawables.js:120-122 | An offset of (0, 0) maps to exactly `(locRatio[0]*width, locRatio[1]*height)` for any canvas size |
| `Drawables.ResizeStablePlacement` | js/drawables.js:36-41 | An anchor slot of a shape clicked at (x, y) on a w0 by h0 canvas is drawn at `(x/w0*w1, y/h0*h1)` on any later w1 by h1 canvas |
| `Drawables.CentredPointAfterResize` | js/drawables.js:146 | A point clicked at (400, 300) on an 800x600 canvas is drawn at (500, 250) on a 1000x500 canvas |
| `Drawables.ClickInSlotZero` | js/drawables.js:142-251 | Every shape class keeps the click in slot 0 and has at least one offset |
| `Drawables.DrawCounts` | js/drawables.js:97 | Drawn vertex counts: Point 1, Triangle 3 filled and 4 outline, Square 4 filled and 5 outline, each line 2 |
| `Drawables.TemplatePrimitives` | js/drawables.js:174 | Draw modes: Point gives POINTS; filled Triangle gives TRIANGLES; filled Square gives TRIANGLE_STRIP; outline shapes and lines give LINE_LOOP |
| `Drawables.OutlinesClose` | js/drawables.js:160-207 | Outline triangle and outline square repeat their first offset as their last. Any draw type other than "outline" gives the filled template |
| `Drawables.AnchoredFirstVertex` | js/drawables.js:222 | Point and both lines draw their first vertex at offset (0, 0), the anchor itself |
| `Drawables.TriangleIsEquilateral` | js/drawables.js:162-164 | If `Sqrt3` squared is 3, the three triangle offsets are pairwise 1/8 apart |
| `Drawables.NewPoint` | js/drawables.js:142-148 | A fresh, unbuilt drawable with vertices `[click, [0,0]]`, tag "p" and point size 0 |
| `Drawables.NewTriangle` | js/drawables.js:154-177 | A fresh, unbuilt drawable with the triangle template: outline when `drawType == "outline"` (tag "to"), filled otherwise (tag "t") |
| `Drawables.NewSquare` | js/drawables.js:182-213 | A fresh, unbuilt drawable with the square template: perimeter order plus a closing point when outline (tag "so"), strip order otherwise (tag "s") |
| `Drawables.NewLine` | js/drawables.js:218-225 | A fresh, unbuilt drawable with vertices `[click, [0,0], end]` and tag "l" |
| `Drawables.NewHLine` | js/drawables.js:230-238 | A line whose end offset is (0.25, 0) |
| `Drawables.NewVLine` | js/drawables.js:243-251 | A line whose end offset is (0, 0.25) |
| `Scene.App.constructor` | js/app.js:26-30 | `objs` starts empty and the canvas takes the display size |
| `Scene.App.ResizeToDisplay` | js/app.js:41-55 | Afterwards the canvas has the new size and every object's buffer is null. The list and each `locRatio` are unchanged. The scene invariant holds again |
| `Scene.App.AddObject` | js/app.js:61-64 | Appends at the end; earlier elements and their order are unchanged |
| `Scene.App.ClearCanvas` | js/app.js:69-74 | `objs` is empty afterwards |
| `Scene.App.Render` | js/app.js:129-143 | Appends exactly one draw call per object, in insertion order. Call i is object i's draw at the current canvas size, with point size `height/100`. Every object is built afterwards. A `locRatio` that was already set is unchanged. A shape drawn for the first time gets its click position divided by the current canvas size |
| `Scene.ResizeScenario` | js/app.js:41-55 | Worked example through the API: a point clicked at (400, 300) on an 800x600 canvas is drawn, the display becomes 1000x500, and the next frame draws it at (500, 250) |
| `State.FirstPressed` | js/appstate.js:71-119 | Returns the first pressed key of the list: none pressed gives None; otherwise the key is pressed and no earlier key is |
| `State.PriorityChain` | js/appstate.js:71-119 | Over the order p,t,s,h,v,b,g,f,o,c, `FirstPressed` is exactly the if/else-if chain |
| `State.ApplyKey` | js/appstate.js:71-115 | Each mode key changes only its own field: `object_to_draw` only for p/t/s/h/v, `color_mode` only for b/g, `draw_mode` only for f/o. `c` and no key change none of them |
| `State.KindOf` | js/appstate.js:128-145 | The factory's `switch` picks a shape class exactly for "point", "triangle", "square", "hLine" and "vLine" |
| `State.ClickPosition` | js/appstate.js:125-131 | A position exists exactly when both coordinates the shape is built from (`mousex`, `mousey`) are finite, and it is those coordinates |
| `State.GuardAsWrittenAdmitsInfiniteX` | js/appstate.js:125 | The guard as written accepts a click whose `mousex` is infinite when `mouseX` is undefined |
| `State.GuardsAgreeOnConsistentInput` | js/appstate.js:125 | When `mouseX` equals `mousex` and neither coordinate is NaN, the written guard and `ClickPosition` accept the same clicks |
| `State.AppState.constructor` | js/appstate.js:59-61 | Initial modes: object "point", colour "#022851", draw mode "filled" |
| `State.AppState.CreateShape` | js/appstate.js:128-145 | A fresh, unbuilt shape of the class `object_to_draw` names, in `hex2rgb(color_mode)`. `draw_mode` is passed only to triangle and square |
| `State.AppState.UpdateKeys` | js/appstate.js:71-119 | The modes become `ApplyKey` of the first pressed key in priority order, so at most one key acts. `c` empties the scene; any other outcome leaves the scene unchanged |
| `State.AppState.Update` | js/appstate.js:67-151 | Key handling runs first. Then a click at a finite position appends exactly one fresh shape of the selected class to what the keys left, so `c` plus a click leaves exactly the new shape. Without a click, or at an infinite coordinate, no shape is added |

## Left out

- WebGL buffer objects, `bindBuffer`, `bufferData`, `vertexAttribPointer`, `viewport`, `clear` and `shader.use` are not modelled as calls. A built buffer is its coordinate list, and each `drawArrays` is one entry in the draw-call log.
- The `Shader` class (js/shader.js) and `numItems = 1` (js/drawables.js:51) are not part of this model. Their effect lies in the shader program, which this model does not cover.
- The `Input` module (js/input.js) is not part of this model. One frame's input is a parameter record: the pressed keys, the button-0 click and the `mouseX`, `mousex` and `mousey` values.
- `hex2rgb` (js/utils.js) is not part of this model. A colour is an opaque value determined by its hex string. In the model, distinct strings give distinct colours, whereas the real conversion maps "#ffbf00" and "#FFBF00" to the same colour. Nothing in the model depends on this.
- DOM work is left out: the `ui_categories` lookups, `updateUI` and `updateUIElement` class toggling, `getBoundingClientRect`, `window.onresize` and `contextmenu`. `ResizeToDisplay` and the `App` constructor take the new canvas size as a parameter.
- The canvas width and height must be positive. A zero size would divide by zero at js/drawables.js:40.
- The `requestAnimationFrame` loop in `App.start` and `App.update` (js/app.js:96-124) is left out: it is unbounded frame scheduling.
- `Scene.App.constructor` does not create the `AppState` (js/app.js:34): in the model `AppState` depends on `App`, not the reverse. `State.AppState.constructor` takes the `App` instead.
- `initGl` and its failure when no WebGL2 context is available (js/app.js:80-91) are left out, and so is every `console.log`.
- IEEE-754 and `Float32Array` rounding are left out: coordinates are reals, and `Math.sqrt(3)` is a positive constant with no other property.
- `Drawables.Drawable.constructor` requires at least one vertex, because `createBuffer` reads `vertices[0]`. Every subclass passes two or more.
- `Scene.App.AddObject` requires that a built buffer on the new object match the current canvas. Its only caller passes a freshly constructed, unbuilt shape.
- `State.ClickPosition` also rejects NaN coordinates (an undefined property). The source would build a shape at NaN, which the real-valued model cannot represent.
- `State.AppState.Update` guards on the coordinates the shape is built from, not on the `mouseX` the source tests. See Findings.

## Findings

| source | as written | input that shows it | evidently intended | confidence | as-written member | corrected member |
|---|---|---|---|---|---|---|
| js/appstate.js:125 | The guard tests `Math.abs(Input.mouseX)`, but the shape is built from `Input.mousex`. If `mouseX` is undefined, `Math.abs` gives NaN, which passes, so only `mousey` is checked | `mouseX` undefined, `mousex = Infinity`, `mousey = 100`: the guard passes and a shape is built at x = Infinity | Reject the click when either coordinate the shape is built from is infinite | medium; not executed (js/input.js is not part of this model, so which property exists is not certain) | `State.GuardAsWrittenAdmitsInfiniteX` | `State.ClickPosition` |

/**
 * The per-frame input handling (js/appstate.js): keyboard shortcuts that pick
 * the shape, the colour and the fill style, the clear key, and the click that
 * adds a shape to the scene.
 *
 * The input module (js/input.js) is not part of this model: what it reports in
 * one frame is the `Input` record passed to `Update`.
 */
module State {
  import opened Wrappers
  import opened Utils
  import opened Drawables
  import opened Scene

  /** A JavaScript number, as far as the click guard tells them apart (`undefined` reads as NaN). */
  datatype JsNumber = Finite(value: real) | Infinity(negative: bool) | NaN

  /** `Math.abs(n) != Infinity`. */
  predicate AbsIsNotInfinity(n: JsNumber)
  {
    !n.Infinity?
  }

  /**
   * One frame of input: the keys held down, whether mouse button 0 was clicked,
   * and the three mouse properties the handler reads (`Input.mouseX` in the
   * guard, `Input.mousex` and `Input.mousey` for the position).
   */
  datatype Input = Input(pressed: set<char>, mouseClicked: bool, mouseX: JsNumber, mousex: JsNumber, mousey: JsNumber)

  const Blue := "#022851"  // Aggie Blue
  const Gold := "#FFBF00"

  /** The order in which `update` tests the keys. */
  const KeyPriority := "ptshvbgfoc"

  /** The first key of `keys` that is pressed, if any. */
  function FirstPressed(keys: seq<char>, pressed: set<char>): (r: Option<char>)
    ensures r.None? <==> forall j :: 0 <= j < |keys| ==> keys[j] !in pressed
    ensures r.Some? ==> exists i :: 0 <= i < |keys| && keys[i] == r.value && r.value in pressed &&
                                    forall j :: 0 <= j < i ==> keys[j] !in pressed
  {
    if keys == [] then None
    else if keys[0] in pressed then Some(keys[0])
    else
      var r := FirstPressed(keys[1..], pressed);
      assert r.Some? ==> exists i :: 0 <= i < |keys[1..]| && keys[1..][i] == r.value && r.value in pressed &&
                                     forall j :: 0 <= j < i ==> keys[1..][j] !in pressed;
      r
  }

  /** The if/else-if chain of `update`, unrolled over `KeyPriority`. */
  lemma {:induction false} PriorityChain(pressed: set<char>)
    ensures FirstPressed(KeyPriority, pressed) ==
      if 'p' in pressed then Some('p')
      else if 't' in pressed then Some('t')
      else if 's' in pressed then Some('s')
      else if 'h' in pressed then Some('h')
      else if 'v' in pressed then Some('v')
      else if 'b' in pressed then Some('b')
      else if 'g' in pressed then Some('g')
      else if 'f' in pressed then Some('f')
      else if 'o' in pressed then Some('o')
      else if 'c' in pressed then Some('c')
      else None
  {
    assert FirstPressed("ptshvbgfoc", pressed) == if 'p' in pressed then Some('p') else FirstPressed("tshvbgfoc", pressed);
    assert FirstPressed("tshvbgfoc", pressed) == if 't' in pressed then Some('t') else FirstPressed("shvbgfoc", pressed);
    assert FirstPressed("shvbgfoc", pressed) == if 's' in pressed then Some('s') else FirstPressed("hvbgfoc", pressed);
    assert FirstPressed("hvbgfoc", pressed) == if 'h' in pressed then Some('h') else FirstPressed("vbgfoc", pressed);
    assert FirstPressed("vbgfoc", pressed) == if 'v' in pressed then Some('v') else FirstPressed("bgfoc", pressed);
    assert FirstPressed("bgfoc", pressed) == if 'b' in pressed then Some('b') else FirstPressed("gfoc", pressed);
    assert FirstPressed("gfoc", pressed) == if 'g' in pressed then Some('g') else FirstPressed("foc", pressed);
    assert FirstPressed("foc", pressed) == if 'f' in pressed then Some('f') else FirstPressed("oc", pressed);
    assert FirstPressed("oc", pressed) == if 'o' in pressed then Some('o') else FirstPressed("c", pressed);
    assert FirstPressed("c", pressed) == if 'c' in pressed then Some('c') else FirstPressed("", pressed);
  }

  /** The three fields `update` may change. */
  datatype Modes = Modes(objectToDraw: string, colorMode: string, drawMode: string)

  /** The effect of the key `update` acts on, if any. */
  function ApplyKey(m: Modes, key: Option<char>): (r: Modes)
    ensures r.objectToDraw != m.objectToDraw ==> key.Some? && key.value in {'p', 't', 's', 'h', 'v'}
    ensures r.colorMode != m.colorMode ==> key.Some? && key.value in {'b', 'g'}
    ensures r.drawMode != m.drawMode ==> key.Some? && key.value in {'f', 'o'}
  {
    if key == Some('p') then m.(objectToDraw := "point")
    else if key == Some('t') then m.(objectToDraw := "triangle")
    else if key == Some('s') then m.(objectToDraw := "square")
    else if key == Some('h') then m.(objectToDraw := "hLine")
    else if key == Some('v') then m.(objectToDraw := "vLine")
    else if key == Some('b') then m.(colorMode := Blue)
    else if key == Some('g') then m.(colorMode := Gold)
    else if key == Some('f') then m.(drawMode := "filled")
    else if key == Some('o') then m.(drawMode := "outline")
    else m
  }

  /** The shape class the click handler's `switch` picks for `object_to_draw`. */
  function KindOf(objectToDraw: string): (k: Option<ShapeKind>)
    ensures k.Some? <==> objectToDraw in {"point", "triangle", "square", "hLine", "vLine"}
  {
    if objectToDraw == "point" then Some(PointShape)
    else if objectToDraw == "triangle" then Some(TriangleShape)
    else if objectToDraw == "square" then Some(SquareShape)
    else if objectToDraw == "hLine" then Some(HLineShape)
    else if objectToDraw == "vLine" then Some(VLineShape)
    else None
  }

  /** The click guard as written: it tests `mouseX`, a property the shape is not built from. */
  predicate GuardAsWritten(input: Input)
  {
    AbsIsNotInfinity(input.mouseX) && AbsIsNotInfinity(input.mousey)
  }

  /**
   * With `Input.mouseX` undefined, the guard as written lets a click at an
   * infinite `mousex` through, and the shape would be built at that position.
   */
  lemma GuardAsWrittenAdmitsInfiniteX()
    ensures var input := Input({}, true, NaN, Infinity(false), Finite(100.0));
            GuardAsWritten(input) && !input.mousex.Finite?
  {
  }

  /**
   * The click position the shape is built from, present exactly when both
   * coordinates it is built from are finite: the guard tests the properties
   * it uses.
   */
  function ClickPosition(input: Input): (p: Option<Vec2>)
    ensures p.Some? <==> input.mousex.Finite? && input.mousey.Finite?
    ensures p.Some? ==> p.value == Vec2(input.mousex.value, input.mousey.value)
  {
    if input.mousex.Finite? && input.mousey.Finite? then Some(Vec2(input.mousex.value, input.mousey.value)) else None
  }

  /** Where both guards look at the same finite-or-infinite coordinates, they agree. */
  lemma GuardsAgreeOnConsistentInput(input: Input)
    requires input.mouseX == input.mousex && !input.mousex.NaN? && !input.mousey.NaN?
    ensures GuardAsWritten(input) <==> ClickPosition(input).Some?
  {
  }

  class AppState {
    const app: App
    var objectToDraw: string
    var colorMode: string
    var drawMode: string

    ghost function CurrentModes(): Modes
      reads this
    {
      Modes(objectToDraw, colorMode, drawMode)
    }

    /** `object_to_draw` always names one of the five shape classes. */
    ghost predicate Valid()
      reads this
    {
      KindOf(objectToDraw).Some?
    }

    /** The defaults: draw points, in blue, filled. */
    constructor (app: App)
      ensures Valid() && this.app == app
      ensures CurrentModes() == Modes("point", Blue, "filled")
    {
      this.app := app;
      objectToDraw := "point";
      colorMode := Blue;
      drawMode := "filled";
    }

    /** The drawable a valid click creates, in the current modes: `draw_mode` matters only to triangles and squares. */
    ghost predicate IsCreated(d: Drawable, click: Vec2)
      reads this, d
      requires Valid()
    {
      var kind := KindOf(objectToDraw).value;
      d.IsNew(VerticesOf(kind, click, drawMode), Hex2Rgb(colorMode), TagOf(kind, drawMode))
    }

    /**
     * The `switch` of the click handler: a new shape of the class `object_to_draw`
     * names, in the current colour, with `draw_mode` passed to triangles and
     * squares only.
     */
    method CreateShape(click: Vec2) returns (d: Drawable)
      requires Valid()
      ensures fresh(d) && IsCreated(d, click)
    {
      var color := Hex2Rgb(colorMode);
      if objectToDraw == "point" {
        d := NewPoint(click, color);
      } else if objectToDraw == "hLine" {
        d := NewHLine(click, color);
      } else if objectToDraw == "vLine" {
        d := NewVLine(click, color);
      } else if objectToDraw == "triangle" {
        d := NewTriangle(click, color, drawMode);
      } else {
        d := NewSquare(click, color, drawMode);
      }
    }

    /**
     * The keyboard half of `update`: acts on the first pressed key in priority
     * order only. A mode key changes its own field; `c` clears the scene.
     */
    method UpdateKeys(pressed: set<char>)
      requires Valid() && app.Valid()
      modifies this, app
      ensures Valid() && app.Valid()
      ensures CurrentModes() == ApplyKey(old(CurrentModes()), FirstPressed(KeyPriority, pressed))
      ensures app.objs == if FirstPressed(KeyPriority, pressed) == Some('c') then [] else old(app.objs)
    {
      PriorityChain(pressed);
      if 'p' in pressed {
        objectToDraw := "point";
      } else if 't' in pressed {
        objectToDraw := "triangle";
      } else if 's' in pressed {
        objectToDraw := "square";
      } else if 'h' in pressed {
        objectToDraw := "hLine";
      } else if 'v' in pressed {
        objectToDraw := "vLine";
      } else if 'b' in pressed {
        colorMode := Blue;
      } else if 'g' in pressed {
        colorMode := Gold;
      } else if 'f' in pressed {
        drawMode := "filled";
      } else if 'o' in pressed {
        drawMode := "outline";
      } else if 'c' in pressed {
        app.ClearCanvas();
      }
    }

    /**
     * `update`: the key handling, then, on a click at a finite position, exactly
     * one new shape of the selected class appended to what the keys left.
     */
    method Update(input: Input)
      requires Valid() && app.Valid()
      modifies this, app
      ensures Valid() && app.Valid()
      ensures CurrentModes() == ApplyKey(old(CurrentModes()), FirstPressed(KeyPriority, input.pressed))
      ensures var kept := if FirstPressed(KeyPriority, input.pressed) == Some('c') then [] else old(app.objs);
              if input.mouseClicked && ClickPosition(input).Some? then
                |app.objs| == |kept| + 1 && app.objs[..|kept|] == kept &&
                fresh(app.objs[|kept|]) && IsCreated(app.objs[|kept|], ClickPosition(input).value)
              else
                app.objs == kept
    {
      UpdateKeys(input.pressed);
      if input.mouseClicked {
        if input.mousex.Finite? && input.mousey.Finite? {
          var click := Vec2(input.mousex.value, input.mousey.value);
          var d := CreateShape(click);
          app.AddObject(d);
        }
      }
    }
  }
}

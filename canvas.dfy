/**
 * An abstract 2D drawing surface: the `<canvas>` element together with its
 * 2D context. Instead of pixels it records the primitive calls made on it, so
 * that what a drawing routine paints, and in which order, can be stated.
 *
 * Points are polar, relative to the canvas centre: `Polar(j, d)` lies at
 * distance `d` on axis `j`, whose angle is 2π·j/N − π/2 for a chart of N axes
 * (axis 0 points straight up). No trigonometry is computed.
 */
module Canvas2D {

  datatype Point = Centre | Polar(axis: nat, dist: real)

  datatype Cmd =
    | Clear                           // clearRect over the whole canvas
    | SetStroke(colour: string)       // strokeStyle
    | SetFill(colour: string)         // fillStyle
    | SetLineWidth(width: nat)        // lineWidth
    | BeginPath
    | MoveTo(to: Point)
    | LineTo(to: Point)
    | ClosePath
    | Stroke
    | Fill
    | Arc(at: Point, size: real)      // a full circle of radius `size`
    | Text(caption: string, at: Point)  // fillText, centred on the point

  /** The part of the log that is still visible: everything since the last `Clear`. */
  function Visible(log: seq<Cmd>): (v: seq<Cmd>)
    ensures |v| <= |log| && v == log[|log| - |v|..]
    ensures forall k :: 0 < k < |v| ==> v[k] != Clear
    ensures (v != [] && v[0] == Clear) || (v == log && Clear !in log)
  {
    if log == [] then []
    else if log[|log| - 1] == Clear then [Clear]
    else
      var front := log[..|log| - 1];
      assert log == front + [log[|log| - 1]];
      Visible(front) + [log[|log| - 1]]
  }

  /**
   * A drawing that starts with its only `Clear` replaces whatever was on the
   * canvas before it.
   */
  lemma {:induction false} ClearedDrawingIsVisible(log: seq<Cmd>, drawing: seq<Cmd>)
    requires drawing != [] && drawing[0] == Clear
    requires forall k :: 0 < k < |drawing| ==> drawing[k] != Clear
    ensures Visible(log + drawing) == drawing
    decreases |drawing|
  {
    if |drawing| > 1 {
      var front := drawing[..|drawing| - 1];
      var last := drawing[|drawing| - 1];
      ClearedDrawingIsVisible(log, front);
      var whole := log + drawing;
      assert whole == (log + front) + [last];
      assert whole[..|whole| - 1] == log + front && whole[|whole| - 1] == last;
      assert last != Clear;
      assert Visible(whole) == Visible(log + front) + [last];
      assert front + [last] == drawing;
    } else {
      assert log + drawing == log + [Clear];
    }
  }

  // ---------------------------------------------------------------------
  // The context state a drawing relies on

  /**
   * Which parts of the context state have been set. `clearRect` erases pixels
   * only: the stroke and fill styles, the line width and the current path
   * outlive a `Clear`, so what a drawing paints also depends on them.
   */
  datatype Ready = Ready(stroke: bool, fill: bool, width: bool, path: bool)

  const Fresh: Ready := Ready(false, false, false, false)

  /** What one command sets. */
  function Establish(r: Ready, c: Cmd): Ready
  {
    match c
    case SetStroke(_) => r.(stroke := true)
    case SetFill(_) => r.(fill := true)
    case SetLineWidth(_) => r.(width := true)
    case BeginPath => r.(path := true)
    case _ => r
  }

  /** What is set after `cmds`, starting from `r`. */
  function ReadyAfter(r: Ready, cmds: seq<Cmd>): Ready
    decreases |cmds|
  {
    if cmds == [] then r else ReadyAfter(Establish(r, cmds[0]), cmds[1..])
  }

  /**
   * What a command relies on: a stroke on the stroke style, the line width
   * and a begun path; a fill on the fill style and a begun path; a label on
   * the fill style; path building on a begun path.
   */
  predicate Meets(r: Ready, c: Cmd)
  {
    match c
    case Stroke => r.stroke && r.width && r.path
    case Fill => r.fill && r.path
    case Text(_, _) => r.fill
    case MoveTo(_) => r.path
    case LineTo(_) => r.path
    case ClosePath => r.path
    case Arc(_, _) => r.path
    case _ => true
  }

  /** Starting from `r`, every command of `cmds` finds what it relies on already set. */
  predicate Prepared(r: Ready, cmds: seq<Cmd>)
    decreases |cmds|
  {
    cmds == [] || (Meets(r, cmds[0]) && Prepared(Establish(r, cmds[0]), cmds[1..]))
  }

  /** Every command of the drawing relies only on state that the drawing itself set earlier. */
  predicate SetsBeforeUse(cmds: seq<Cmd>)
  {
    Prepared(Fresh, cmds)
  }

  /** One command, then the rest. */
  lemma PreparedCons(r: Ready, c: Cmd, rest: seq<Cmd>)
    ensures Prepared(r, [c] + rest) <==> Meets(r, c) && Prepared(Establish(r, c), rest)
    ensures ReadyAfter(r, [c] + rest) == ReadyAfter(Establish(r, c), rest)
  {
    assert ([c] + rest)[0] == c && ([c] + rest)[1..] == rest;
  }

  lemma {:induction false} PreparedAppend(r: Ready, a: seq<Cmd>, b: seq<Cmd>)
    ensures ReadyAfter(r, a + b) == ReadyAfter(ReadyAfter(r, a), b)
    ensures Prepared(r, a + b) <==> Prepared(r, a) && Prepared(ReadyAfter(r, a), b)
    decreases |a|
  {
    if a == [] {
      assert a + b == b;
    } else {
      PreparedAppend(Establish(r, a[0]), a[1..], b);
      assert (a + b)[0] == a[0] && (a + b)[1..] == a[1..] + b;
    }
  }

  /** `Prepared` read position by position: command `k` meets what the commands before it set. */
  lemma {:induction false} PreparedAt(r: Ready, cmds: seq<Cmd>)
    ensures Prepared(r, cmds) <==> forall k :: 0 <= k < |cmds| ==> Meets(ReadyAfter(r, cmds[..k]), cmds[k])
    decreases |cmds|
  {
    if cmds != [] {
      var r1 := Establish(r, cmds[0]);
      var rest := cmds[1..];
      PreparedAt(r1, rest);
      assert ReadyAfter(r, cmds[..0]) == r;
      forall k | 1 <= k < |cmds|
        ensures ReadyAfter(r, cmds[..k]) == ReadyAfter(r1, rest[..k - 1]) && cmds[k] == rest[k - 1]
      {
        assert cmds[..k][0] == cmds[0] && cmds[..k][1..] == rest[..k - 1];
      }
      if Prepared(r, cmds) {
        forall k | 0 <= k < |cmds|
          ensures Meets(ReadyAfter(r, cmds[..k]), cmds[k])
        {
          if k > 0 {
            assert Meets(ReadyAfter(r1, rest[..k - 1]), rest[k - 1]);
          }
        }
      }
      if forall k :: 0 <= k < |cmds| ==> Meets(ReadyAfter(r, cmds[..k]), cmds[k]) {
        forall k | 0 <= k < |rest|
          ensures Meets(ReadyAfter(r1, rest[..k]), rest[k])
        {
          assert Meets(ReadyAfter(r, cmds[..k + 1]), cmds[k + 1]);
        }
      }
    }
  }

  /** A part of the context state, and the command that sets it. */
  datatype Setting = StrokeStyle | FillStyle | LineWidth | CurrentPath

  predicate Has(r: Ready, p: Setting)
  {
    match p
    case StrokeStyle => r.stroke
    case FillStyle => r.fill
    case LineWidth => r.width
    case CurrentPath => r.path
  }

  predicate Sets(c: Cmd, p: Setting)
  {
    match p
    case StrokeStyle => c.SetStroke?
    case FillStyle => c.SetFill?
    case LineWidth => c.SetLineWidth?
    case CurrentPath => c.BeginPath?
  }

  /** A part of the state is set after `cmds` exactly when it was set before or some command of `cmds` sets it. */
  lemma {:induction false} ReadyAfterMeansSet(r: Ready, cmds: seq<Cmd>, p: Setting)
    ensures Has(ReadyAfter(r, cmds), p) <==> Has(r, p) || exists j :: 0 <= j < |cmds| && Sets(cmds[j], p)
    decreases |cmds|
  {
    if cmds != [] {
      var rest := cmds[1..];
      ReadyAfterMeansSet(Establish(r, cmds[0]), rest, p);
      assert Has(Establish(r, cmds[0]), p) <==> Has(r, p) || Sets(cmds[0], p);
      assert forall j :: 1 <= j < |cmds| ==> cmds[j] == rest[j - 1];
      assert forall j :: 0 <= j < |rest| ==> rest[j] == cmds[j + 1];
    }
  }

  /** How many commands of `cmds` satisfy `p`. */
  function CountOf(cmds: seq<Cmd>, p: Cmd -> bool): nat
  {
    if cmds == [] then 0
    else CountOf(cmds[..|cmds| - 1], p) + (if p(cmds[|cmds| - 1]) then 1 else 0)
  }

  lemma {:induction false} CountOfAppend(a: seq<Cmd>, b: seq<Cmd>, p: Cmd -> bool)
    ensures CountOf(a + b, p) == CountOf(a, p) + CountOf(b, p)
    decreases |b|
  {
    if b != [] {
      var front := b[..|b| - 1];
      CountOfAppend(a, front, p);
      assert (a + b)[..|a + b| - 1] == a + front;
    } else {
      assert a + b == a;
    }
  }

  /** No command satisfies `p` exactly when none is counted. */
  lemma {:induction false} CountOfAbsent(cmds: seq<Cmd>, p: Cmd -> bool)
    ensures CountOf(cmds, p) == 0 <==> forall k :: 0 <= k < |cmds| ==> !p(cmds[k])
    decreases |cmds|
  {
    if cmds != [] {
      var front := cmds[..|cmds| - 1];
      CountOfAbsent(front, p);
      assert forall k :: 0 <= k < |front| ==> front[k] == cmds[k];
    }
  }

  lemma CountOfSingle(c: Cmd, p: Cmd -> bool)
    ensures CountOf([c], p) == if p(c) then 1 else 0
  {
    assert [c][..0] == [];
  }

  class Canvas {
    const width: nat
    const height: nat
    /** Every call made on the 2D context, oldest first. */
    var log: seq<Cmd>

    constructor (width: nat, height: nat)
      ensures this.width == width && this.height == height && log == []
    {
      this.width := width;
      this.height := height;
      log := [];
    }

    /** One call on the 2D context. */
    method Draw(c: Cmd)
      modifies this
      ensures log == old(log) + [c]
    {
      log := log + [c];
    }
  }
}

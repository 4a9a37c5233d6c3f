/**
 * The skills view: the category buttons, the skill list under the selected
 * button, the at most eight skills plotted on the radar chart, the radar
 * chart itself as the sequence of calls it makes on the canvas, the guard
 * that decides when it is drawn, and the percentages of the level dial.
 */
module Skills {
  import opened Catalog
  import opened Canvas2D

  /** A skill record; `level` is a score, meant to lie in 0..100. */
  datatype Skill = Skill(name: string, category: string, level: int)

  function CategoryOf(s: Skill): string
  {
    s.category
  }

  // ---------------------------------------------------------------------
  // Categories, the list view and the radar series

  /** The category buttons: the "all" tag, then each distinct category of the skills. */
  function SkillCategories(skills: seq<Skill>): (r: seq<string>)
    ensures |r| >= 1 && r[0] == All
    ensures forall i :: 0 <= i < |skills| ==> skills[i].category in r[1..]
    ensures forall c :: c in r[1..] ==> exists i :: 0 <= i < |skills| && skills[i].category == c
    ensures NoDuplicates(r[1..])
    ensures NoDuplicates(r) <==> forall i :: 0 <= i < |skills| ==> skills[i].category != All
  {
    var ks := Keys(skills, CategoryOf);
    var r := CategoryList(ks);
    assert forall i :: 0 <= i < |skills| ==> skills[i].category == ks[i];
    r
  }

  /** The buttons appear in the order in which their categories first occur among the skills. */
  lemma SkillCategoriesInFirstOccurrenceOrder(skills: seq<Skill>, i: nat, j: nat)
    requires 1 <= i < j < |SkillCategories(skills)|
    ensures OccursBefore(Keys(skills, CategoryOf), SkillCategories(skills)[i], SkillCategories(skills)[j])
  {
    CategoryListInFirstOccurrenceOrder(Keys(skills, CategoryOf), i, j);
  }

  /** The skills listed under the selected button (the list and the card grid). */
  function ListedSkills(skills: seq<Skill>, selected: string): (r: seq<Skill>)
    ensures selected == All ==> r == skills
    ensures selected != All ==> IsSubsequence(r, skills)
    ensures selected != All ==> forall s :: multiset(r)[s] ==
                                            if s.category == selected then multiset(skills)[s] else 0
  {
    ViewFilterSpec(skills, CategoryOf, selected);
    ViewFilter(skills, CategoryOf, selected)
  }

  /** At most this many skills are plotted. */
  const MaxAxes: nat := 8

  /** The skills plotted on the radar chart. */
  function RadarSeries(skills: seq<Skill>, selected: string): (r: seq<Skill>)
    ensures |r| == Min(MaxAxes, |ListedSkills(skills, selected)|)
    ensures r == ListedSkills(skills, selected)[..|r|]
    ensures selected != All ==> forall i :: 0 <= i < |r| ==> r[i].category == selected
  {
    if selected == All then Take(skills, MaxAxes)
    else Take(Filter(skills, CategoryOf, selected), MaxAxes)
  }

  /** The drawing effect's condition: data loaded, at least one skill, canvas attached. */
  predicate ShouldDraw(isLoading: bool, skills: seq<Skill>, canvasAttached: bool)
  {
    !isLoading && |skills| > 0 && canvasAttached
  }

  /**
   * Whenever the chart is drawn there is at least one axis, so the angle step
   * 2π / N never divides by zero.
   */
  lemma DrawnSeriesNonEmpty(skills: seq<Skill>, selected: string, isLoading: bool, canvasAttached: bool)
    requires ShouldDraw(isLoading, skills, canvasAttached)
    requires selected in SkillCategories(skills)
    ensures |RadarSeries(skills, selected)| >= 1
  {
    ViewEmptyOnlyWithoutRecords(skills, CategoryOf, selected);
  }

  // ---------------------------------------------------------------------
  // Radar chart geometry

  const GridRings: nat := 5
  /** The space between the outer ring and the canvas edge, kept for the labels. */
  const Margin: real := 60.0
  /** How far beyond the outer ring the labels sit. */
  const LabelGap: real := 30.0
  const MarkerSize: real := 5.0

  const GridColour: string := "rgba(142, 68, 173, 0.2)"
  const AxisColour: string := "rgba(189, 195, 199, 0.3)"
  const LabelColour: string := "#00ff41"
  const RegionColour: string := "rgba(142, 68, 173, 0.3)"
  const Accent: string := "#8E44AD"
  const MarkerColour: string := "#BDC3C7"

  /** The outer radius: the smaller half-side of the canvas, less the margin. */
  function Radius(width: nat, height: nat): (r: real)
    ensures r + Margin <= width as real / 2.0 && r + Margin <= height as real / 2.0
    ensures r + Margin == width as real / 2.0 || r + Margin == height as real / 2.0
  {
    var cx := width as real / 2.0;
    var cy := height as real / 2.0;
    (if cx <= cy then cx else cy) - Margin
  }

  /** The 500 by 500 canvas of the view: centre (250, 250), radius 190. */
  lemma ViewCanvasGeometry()
    ensures 500 as real / 2.0 == 250.0 && Radius(500, 500) == 190.0
  {
  }

  /** The radius of grid ring `i`: `(radius / 5) * i`. */
  function RingRadius(radius: real, i: nat): (r: real)
    ensures r == radius * (i as real) / (GridRings as real)
    ensures i == GridRings ==> r == radius
  {
    (radius / 5.0) * (i as real)
  }

  /** The distance from the centre at which a level is plotted: `radius * level / 100`. */
  function LevelDistance(radius: real, level: int): (d: real)
    ensures level == 0 ==> d == 0.0
    ensures level == 100 ==> d == radius
    ensures radius >= 0.0 && 0 <= level <= 100 ==> 0.0 <= d <= radius
  {
    var d := (radius * (level as real)) / 100.0;
    assert radius >= 0.0 && 0 <= level <= 100 ==> d <= radius by {
      if radius >= 0.0 && 0 <= level <= 100 {
        assert radius * (level as real) <= radius * 100.0;
      }
    }
    d
  }

  /** The plotted level can be read back from the vertex's distance. */
  lemma LevelRoundTrip(radius: real, level: int)
    requires radius != 0.0
    ensures 100.0 * LevelDistance(radius, level) / radius == level as real
  {
    var d := LevelDistance(radius, level);
    assert 100.0 * d == radius * (level as real);
  }

  /** A higher level is plotted further out. */
  lemma LevelDistanceMonotonic(radius: real, low: int, high: int)
    requires radius > 0.0 && low <= high
    ensures LevelDistance(radius, low) <= LevelDistance(radius, high)
  {
    assert radius * ((high - low) as real) >= 0.0;
    assert radius * (high as real) - radius * (low as real) == radius * ((high - low) as real);
  }

  // ---------------------------------------------------------------------
  // The radar chart as the sequence of calls it makes on the canvas

  /** Point `j` of a closed path: the first one moves there, the others draw a line to it. */
  function Vertex(j: nat, d: real): Cmd
  {
    if j == 0 then MoveTo(Polar(j, d)) else LineTo(Polar(j, d))
  }

  /** The first `k` points of a grid ring at distance `d`. */
  function RingPoints(d: real, k: nat): seq<Cmd>
  {
    seq(k, j requires 0 <= j < k => Vertex(j, d))
  }

  /** Grid ring `i` of a chart with `n` axes; point `n` repeats point 0. */
  function Ring(i: nat, n: nat, radius: real): seq<Cmd>
  {
    [BeginPath] + RingPoints(RingRadius(radius, i), n + 1) + [ClosePath, Stroke]
  }

  /** Grid rings 1 to `k`, innermost first. */
  function Grid(k: nat, n: nat, radius: real): seq<Cmd>
  {
    if k == 0 then [] else Grid(k - 1, n, radius) + Ring(k, n, radius)
  }

  /** The spoke of axis `i` and the skill's label beyond its end. */
  function Axis(s: Skill, i: nat, radius: real): seq<Cmd>
  {
    [BeginPath, MoveTo(Centre), LineTo(Polar(i, radius)), Stroke,
     SetFill(LabelColour), Text(s.name, Polar(i, radius + LabelGap))]
  }

  /** Spokes and labels of the first `k` skills. */
  function Axes(series: seq<Skill>, radius: real, k: nat): seq<Cmd>
    requires k <= |series|
  {
    if k == 0 then [] else Axes(series, radius, k - 1) + Axis(series[k - 1], k - 1, radius)
  }

  /** The first `k` vertices of the data region. */
  function RegionPoints(series: seq<Skill>, radius: real, k: nat): seq<Cmd>
    requires k <= |series|
  {
    seq(k, i requires 0 <= i < k => Vertex(i, LevelDistance(radius, series[i].level)))
  }

  /** The marker on the data vertex of axis `i`. */
  function Marker(s: Skill, i: nat, radius: real): seq<Cmd>
  {
    [BeginPath, Arc(Polar(i, LevelDistance(radius, s.level)), MarkerSize),
     SetFill(MarkerColour), Fill, SetStroke(Accent), SetLineWidth(2), Stroke]
  }

  /** Markers of the first `k` skills. */
  function Markers(series: seq<Skill>, radius: real, k: nat): seq<Cmd>
    requires k <= |series|
  {
    if k == 0 then [] else Markers(series, radius, k - 1) + Marker(series[k - 1], k - 1, radius)
  }

  const ChartHead: seq<Cmd> := [Clear, SetStroke(GridColour), SetLineWidth(1)]
  const AxesHead: seq<Cmd> := [SetStroke(AxisColour), SetLineWidth(1)]
  const RegionHead: seq<Cmd> := [SetFill(RegionColour), SetStroke(Accent), SetLineWidth(2), BeginPath]
  const RegionTail: seq<Cmd> := [ClosePath, Fill, Stroke]

  /** The data region: filled, then outlined. */
  function Region(series: seq<Skill>, radius: real): seq<Cmd>
  {
    RegionHead + RegionPoints(series, radius, |series|) + RegionTail
  }

  /** Everything the chart draws before its markers. */
  function ChartFront(series: seq<Skill>, radius: real): seq<Cmd>
  {
    var n := |series|;
    ChartHead + Grid(GridRings, n, radius) + AxesHead + Axes(series, radius, n)
      + RegionHead + RegionPoints(series, radius, n) + RegionTail
  }

  /** Everything one drawing of the chart does to the canvas, in order. */
  function Chart(series: seq<Skill>, radius: real): seq<Cmd>
  {
    ChartFront(series, radius) + Markers(series, radius, |series|)
  }

  // ---------------------------------------------------------------------
  // What the chart draws

  /** Each grid ring is one closed path through `n + 1` points at the ring's radius. */
  lemma RingShape(i: nat, n: nat, radius: real)
    ensures |Ring(i, n, radius)| == n + 4
    ensures Ring(i, n, radius)[0] == BeginPath
    ensures Ring(i, n, radius)[1] == MoveTo(Polar(0, radius * (i as real) / 5.0))
    ensures forall j :: 2 <= j <= n + 1 ==> Ring(i, n, radius)[j] == LineTo(Polar(j - 1, radius * (i as real) / 5.0))
    ensures Ring(i, n, radius)[n + 2] == ClosePath && Ring(i, n, radius)[n + 3] == Stroke
  {
  }

  /** A grid ring of a chart with `n` axes passes through `n + 1` points. */
  lemma RingPointCount(i: nat, n: nat, radius: real)
    ensures CountOf(Ring(i, n, radius), IsPathPoint) == n + 1
  {
    var pts := RingPoints(RingRadius(radius, i), n + 1);
    PathPointsCount(RingRadius(radius, i), n + 1);
    CountOfSingle(BeginPath, IsPathPoint);
    CountOfSingle(ClosePath, IsPathPoint);
    CountOfSingle(Stroke, IsPathPoint);
    CountOfAppend([BeginPath], pts, IsPathPoint);
    CountOfAppend([BeginPath] + pts, [ClosePath], IsPathPoint);
    CountOfAppend([BeginPath] + pts + [ClosePath], [Stroke], IsPathPoint);
    assert Ring(i, n, radius) == [BeginPath] + pts + [ClosePath] + [Stroke];
  }

  predicate IsPathPoint(c: Cmd)
  {
    c.MoveTo? || c.LineTo?
  }

  lemma {:induction false} PathPointsCount(d: real, k: nat)
    ensures CountOf(RingPoints(d, k), IsPathPoint) == k
  {
    if k > 0 {
      PathPointsCount(d, k - 1);
      assert RingPoints(d, k) == RingPoints(d, k - 1) + [Vertex(k - 1, d)];
      CountOfAppend(RingPoints(d, k - 1), [Vertex(k - 1, d)], IsPathPoint);
    }
  }

  /** The spoke of axis `i` goes from the centre to the outer radius; the label sits 30 beyond it. */
  lemma AxisShape(s: Skill, i: nat, radius: real)
    ensures |Axis(s, i, radius)| == 6
    ensures Axis(s, i, radius)[1] == MoveTo(Centre) && Axis(s, i, radius)[2] == LineTo(Polar(i, radius))
    ensures Axis(s, i, radius)[3] == Stroke
    ensures Axis(s, i, radius)[5] == Text(s.name, Polar(i, radius + 30.0))
  {
  }

  /** Vertex `i` of the data region lies at distance `radius * level / 100` on axis `i`. */
  lemma RegionShape(series: seq<Skill>, radius: real)
    ensures |Region(series, radius)| == |series| + 7
    ensures Region(series, radius)[..4] == RegionHead
    ensures forall i :: 0 <= i < |series| ==>
              Region(series, radius)[4 + i] == Vertex(i, radius * (series[i].level as real) / 100.0)
    ensures Region(series, radius)[|series| + 4..] == [ClosePath, Fill, Stroke]
  {
  }

  /** The marker of axis `i` is a filled and outlined circle on the data vertex of axis `i`. */
  lemma MarkerShape(s: Skill, i: nat, radius: real)
    ensures |Marker(s, i, radius)| == 7
    ensures Marker(s, i, radius)[1] == Arc(Polar(i, radius * (s.level as real) / 100.0), 5.0)
    ensures Marker(s, i, radius)[3] == Fill && Marker(s, i, radius)[6] == Stroke
  {
    assert LevelDistance(radius, s.level) == radius * (s.level as real) / 100.0;
  }

  // Counting what the pieces contain

  predicate IsClear(c: Cmd)
  {
    c.Clear?
  }

  predicate IsText(c: Cmd)
  {
    c.Text?
  }

  predicate IsArc(c: Cmd)
  {
    c.Arc?
  }

  predicate IsClosePath(c: Cmd)
  {
    c.ClosePath?
  }

  /** A piece of the chart that holds `clears` clearings, `texts` labels, `arcs` markers and `closes` closed paths. */
  ghost predicate Holds(cmds: seq<Cmd>, clears: nat, texts: nat, arcs: nat, closes: nat)
  {
    && CountOf(cmds, IsClear) == clears
    && CountOf(cmds, IsText) == texts
    && CountOf(cmds, IsArc) == arcs
    && CountOf(cmds, IsClosePath) == closes
  }

  lemma HoldsAppend(a: seq<Cmd>, b: seq<Cmd>, c1: nat, t1: nat, a1: nat, p1: nat, c2: nat, t2: nat, a2: nat, p2: nat)
    requires Holds(a, c1, t1, a1, p1) && Holds(b, c2, t2, a2, p2)
    ensures Holds(a + b, c1 + c2, t1 + t2, a1 + a2, p1 + p2)
  {
    CountOfAppend(a, b, IsClear);
    CountOfAppend(a, b, IsText);
    CountOfAppend(a, b, IsArc);
    CountOfAppend(a, b, IsClosePath);
  }

  lemma HoldsSingle(c: Cmd)
    ensures Holds([c], if c.Clear? then 1 else 0, if c.Text? then 1 else 0,
                       if c.Arc? then 1 else 0, if c.ClosePath? then 1 else 0)
  {
    CountOfSingle(c, IsClear);
    CountOfSingle(c, IsText);
    CountOfSingle(c, IsArc);
    CountOfSingle(c, IsClosePath);
  }

  /** A piece made only of path points, strokes, fills and style changes holds nothing that is counted. */
  lemma HoldsNothing(cmds: seq<Cmd>)
    requires forall k :: 0 <= k < |cmds| ==> !cmds[k].Clear? && !cmds[k].Text? && !cmds[k].Arc? && !cmds[k].ClosePath?
    ensures Holds(cmds, 0, 0, 0, 0)
  {
    CountOfAbsent(cmds, IsClear);
    CountOfAbsent(cmds, IsText);
    CountOfAbsent(cmds, IsArc);
    CountOfAbsent(cmds, IsClosePath);
  }

  /** A grid ring is one closed path and nothing else that is counted. */
  lemma RingHolds(i: nat, n: nat, radius: real)
    ensures Holds(Ring(i, n, radius), 0, 0, 0, 1)
  {
    var pts := RingPoints(RingRadius(radius, i), n + 1);
    HoldsNothing([BeginPath] + pts);
    HoldsSingle(ClosePath);
    HoldsSingle(Stroke);
    HoldsAppend([BeginPath] + pts, [ClosePath], 0, 0, 0, 0, 0, 0, 0, 1);
    HoldsAppend([BeginPath] + pts + [ClosePath], [Stroke], 0, 0, 0, 1, 0, 0, 0, 0);
    assert Ring(i, n, radius) == [BeginPath] + pts + [ClosePath] + [Stroke];
  }

  /** The grid: `k` closed paths, no label, no marker, no clearing. */
  lemma {:induction false} GridHolds(k: nat, n: nat, radius: real)
    ensures Holds(Grid(k, n, radius), 0, 0, 0, k)
  {
    if k == 0 {
      HoldsNothing([]);
    } else {
      GridHolds(k - 1, n, radius);
      RingHolds(k, n, radius);
      HoldsAppend(Grid(k - 1, n, radius), Ring(k, n, radius), 0, 0, 0, k - 1, 0, 0, 0, 1);
    }
  }

  /** Spokes and labels: one label per skill, nothing else that is counted. */
  lemma {:induction false} AxesHold(series: seq<Skill>, radius: real, k: nat)
    requires k <= |series|
    ensures Holds(Axes(series, radius, k), 0, k, 0, 0)
  {
    if k == 0 {
      HoldsNothing([]);
    } else {
      AxesHold(series, radius, k - 1);
      var a := Axis(series[k - 1], k - 1, radius);
      HoldsNothing(a[..5]);
      HoldsSingle(a[5]);
      assert a == a[..5] + [a[5]];
      HoldsAppend(a[..5], [a[5]], 0, 0, 0, 0, 0, 1, 0, 0);
      HoldsAppend(Axes(series, radius, k - 1), a, 0, k - 1, 0, 0, 0, 1, 0, 0);
    }
  }

  /** Markers: one circle per skill, nothing else that is counted. */
  lemma {:induction false} MarkersHold(series: seq<Skill>, radius: real, k: nat)
    requires k <= |series|
    ensures Holds(Markers(series, radius, k), 0, 0, k, 0)
  {
    if k == 0 {
      HoldsNothing([]);
    } else {
      MarkersHold(series, radius, k - 1);
      var m := Marker(series[k - 1], k - 1, radius);
      HoldsSingle(m[0]);
      HoldsSingle(m[1]);
      HoldsNothing(m[2..]);
      assert m == [m[0]] + [m[1]] + m[2..];
      HoldsAppend([m[0]], [m[1]], 0, 0, 0, 0, 0, 0, 1, 0);
      HoldsAppend([m[0]] + [m[1]], m[2..], 0, 0, 1, 0, 0, 0, 0, 0);
      HoldsAppend(Markers(series, radius, k - 1), m, 0, 0, k - 1, 0, 0, 0, 1, 0);
    }
  }

  /** The fixed pieces of the chart. */
  lemma FixedPiecesHold()
    ensures Holds(ChartHead, 1, 0, 0, 0)
    ensures Holds(ChartHead[1..], 0, 0, 0, 0)
    ensures Holds(AxesHead, 0, 0, 0, 0) && Holds(RegionHead, 0, 0, 0, 0)
    ensures Holds(RegionTail, 0, 0, 0, 1)
  {
    HoldsSingle(Clear);
    HoldsNothing(ChartHead[1..]);
    assert ChartHead == [Clear] + ChartHead[1..];
    HoldsAppend([Clear], ChartHead[1..], 1, 0, 0, 0, 0, 0, 0, 0);
    HoldsNothing(AxesHead);
    HoldsNothing(RegionHead);
    HoldsSingle(ClosePath);
    HoldsNothing(RegionTail[1..]);
    assert RegionTail == [ClosePath] + RegionTail[1..];
    HoldsAppend([ClosePath], RegionTail[1..], 0, 0, 0, 1, 0, 0, 0, 0);
  }

  /**
   * The chart clears the canvas once, first; then it draws one label and one
   * marker per plotted skill, and six closed paths: five grid rings and the
   * data region.
   */
  lemma ChartCounts(series: seq<Skill>, radius: real)
    ensures Chart(series, radius)[0] == Clear
    ensures forall k :: 0 < k < |Chart(series, radius)| ==> Chart(series, radius)[k] != Clear
    ensures CountOf(Chart(series, radius), IsText) == |series|
    ensures CountOf(Chart(series, radius), IsArc) == |series|
    ensures CountOf(Chart(series, radius), IsClosePath) == GridRings + 1
  {
    var n := |series|;
    FrontHolds(series, radius);
    MarkersHold(series, radius, n);
    HoldsAppend(ChartFront(series, radius), Markers(series, radius, n), 1, n, 0, GridRings + 1, 0, 0, n, 0);
    var c := Chart(series, radius);
    assert c[0] == ChartFront(series, radius)[0] == Clear;
    OnlyFirstCounted(c, IsClear);
  }

  /** Before the markers: one clearing, one label per skill, no marker, six closed paths. */
  lemma FrontHolds(series: seq<Skill>, radius: real)
    ensures Holds(ChartFront(series, radius), 1, |series|, 0, GridRings + 1)
  {
    var n := |series|;
    var s4 := ChartHead + Grid(GridRings, n, radius) + AxesHead + Axes(series, radius, n);
    UpToAxesHold(series, radius);
    RegionHolds(series, radius);
    assert ChartFront(series, radius) == s4 + Region(series, radius);
    HoldsAppend(s4, Region(series, radius), 1, n, 0, GridRings, 0, 0, 0, 1);
  }

  /** Clearing, grid, spokes and labels: one clearing, five closed paths, one label per skill. */
  lemma UpToAxesHold(series: seq<Skill>, radius: real)
    ensures var n := |series|;
            Holds(ChartHead + Grid(GridRings, n, radius) + AxesHead + Axes(series, radius, n), 1, n, 0, GridRings)
  {
    var n := |series|;
    FixedPiecesHold();
    GridHolds(GridRings, n, radius);
    AxesHold(series, radius, n);
    var s1 := ChartHead + Grid(GridRings, n, radius);
    HoldsAppend(ChartHead, Grid(GridRings, n, radius), 1, 0, 0, 0, 0, 0, 0, GridRings);
    var s2 := s1 + AxesHead;
    HoldsAppend(s1, AxesHead, 1, 0, 0, GridRings, 0, 0, 0, 0);
    HoldsAppend(s2, Axes(series, radius, n), 1, 0, 0, GridRings, 0, n, 0, 0);
  }

  /** The data region is one closed path and nothing else that is counted. */
  lemma RegionHolds(series: seq<Skill>, radius: real)
    ensures Holds(Region(series, radius), 0, 0, 0, 1)
  {
    var pts := RegionPoints(series, radius, |series|);
    FixedPiecesHold();
    HoldsNothing(pts);
    HoldsAppend(RegionHead, pts, 0, 0, 0, 0, 0, 0, 0, 0);
    HoldsAppend(RegionHead + pts, RegionTail, 0, 0, 0, 0, 0, 0, 0, 1);
  }

  /** When the first command is the only one counted, no later command satisfies `p`. */
  lemma OnlyFirstCounted(s: seq<Cmd>, p: Cmd -> bool)
    requires |s| > 0 && p(s[0]) && CountOf(s, p) == 1
    ensures forall k :: 0 < k < |s| ==> !p(s[k])
  {
    assert s == [s[0]] + s[1..];
    CountOfAppend([s[0]], s[1..], p);
    CountOfSingle(s[0], p);
    CountOfAbsent(s[1..], p);
    assert forall k :: 0 < k < |s| ==> s[k] == s[1..][k - 1];
  }

  // Where each piece sits: the paint order

  /** The five grid rings, innermost first. */
  lemma GridRingsInOrder(n: nat, radius: real)
    ensures Grid(GridRings, n, radius) ==
              Ring(1, n, radius) + Ring(2, n, radius) + Ring(3, n, radius) + Ring(4, n, radius) + Ring(5, n, radius)
  {
    assert Grid(1, n, radius) == [] + Ring(1, n, radius);
    assert Grid(2, n, radius) == Grid(1, n, radius) + Ring(2, n, radius);
    assert Grid(3, n, radius) == Grid(2, n, radius) + Ring(3, n, radius);
    assert Grid(4, n, radius) == Grid(3, n, radius) + Ring(4, n, radius);
    assert Grid(5, n, radius) == Grid(4, n, radius) + Ring(5, n, radius);
  }

  /** The spoke and label of skill `i` occupy the `i`-th block of six commands. */
  lemma AxesLayout(series: seq<Skill>, radius: real, k: nat)
    requires k <= |series|
    ensures |Axes(series, radius, k)| == 6 * k
    ensures forall i :: 0 <= i < k ==> Axes(series, radius, k)[6 * i .. 6 * i + 6] == Axis(series[i], i, radius)
  {
    AxesLength(series, radius, k);
    forall i | 0 <= i < k
      ensures Axes(series, radius, k)[6 * i .. 6 * i + 6] == Axis(series[i], i, radius)
    {
      AxesBlock(series, radius, k, i);
    }
  }

  lemma {:induction false} AxesLength(series: seq<Skill>, radius: real, k: nat)
    requires k <= |series|
    ensures |Axes(series, radius, k)| == 6 * k
  {
    if k > 0 {
      AxesLength(series, radius, k - 1);
    }
  }

  lemma {:induction false} AxesBlock(series: seq<Skill>, radius: real, k: nat, i: nat)
    requires i < k <= |series|
    ensures |Axes(series, radius, k)| == 6 * k
    ensures Axes(series, radius, k)[6 * i .. 6 * i + 6] == Axis(series[i], i, radius)
  {
    AxesLength(series, radius, k);
    AxesLength(series, radius, k - 1);
    var a := Axes(series, radius, k - 1);
    var last := Axis(series[k - 1], k - 1, radius);
    assert Axes(series, radius, k) == a + last;
    if i < k - 1 {
      AxesBlock(series, radius, k - 1, i);
      PrefixSlice(a, last, 6 * i, 6 * i + 6);
    } else {
      SuffixSlice(a, last);
    }
  }

  /** The marker of skill `i` occupies the `i`-th block of seven commands. */
  lemma MarkersLayout(series: seq<Skill>, radius: real, k: nat)
    requires k <= |series|
    ensures |Markers(series, radius, k)| == 7 * k
    ensures forall i :: 0 <= i < k ==> Markers(series, radius, k)[7 * i .. 7 * i + 7] == Marker(series[i], i, radius)
  {
    MarkersLength(series, radius, k);
    forall i | 0 <= i < k
      ensures Markers(series, radius, k)[7 * i .. 7 * i + 7] == Marker(series[i], i, radius)
    {
      MarkersBlock(series, radius, k, i);
    }
  }

  lemma {:induction false} MarkersLength(series: seq<Skill>, radius: real, k: nat)
    requires k <= |series|
    ensures |Markers(series, radius, k)| == 7 * k
  {
    if k > 0 {
      MarkersLength(series, radius, k - 1);
    }
  }

  lemma {:induction false} MarkersBlock(series: seq<Skill>, radius: real, k: nat, i: nat)
    requires i < k <= |series|
    ensures |Markers(series, radius, k)| == 7 * k
    ensures Markers(series, radius, k)[7 * i .. 7 * i + 7] == Marker(series[i], i, radius)
  {
    MarkersLength(series, radius, k);
    MarkersLength(series, radius, k - 1);
    var m := Markers(series, radius, k - 1);
    var last := Marker(series[k - 1], k - 1, radius);
    assert Markers(series, radius, k) == m + last;
    if i < k - 1 {
      MarkersBlock(series, radius, k - 1, i);
      PrefixSlice(m, last, 7 * i, 7 * i + 7);
    } else {
      SuffixSlice(m, last);
    }
  }

  lemma PrefixSlice(a: seq<Cmd>, b: seq<Cmd>, lo: nat, hi: nat)
    requires lo <= hi <= |a|
    ensures (a + b)[lo..hi] == a[lo..hi]
  {
    assert forall t :: 0 <= t < hi - lo ==> (a + b)[lo..hi][t] == a[lo..hi][t];
  }

  lemma SuffixSlice(a: seq<Cmd>, b: seq<Cmd>)
    ensures (a + b)[|a|..|a| + |b|] == b
  {
    assert forall t :: 0 <= t < |b| ==> (a + b)[|a|..|a| + |b|][t] == b[t];
  }

  /**
   * The paint order: after the clearing and the grid style come the grid rings
   * (innermost first, see GridRingsInOrder); then the spoke style and the
   * spokes and labels; then the data region; then the markers.
   */
  lemma PaintOrder(series: seq<Skill>, radius: real)
    ensures var n := |series|;
            Chart(series, radius) ==
              ChartHead + Grid(GridRings, n, radius) + AxesHead + Axes(series, radius, n)
              + Region(series, radius) + Markers(series, radius, n)
  {
    var n := |series|;
    var s4 := ChartHead + Grid(GridRings, n, radius) + AxesHead + Axes(series, radius, n);
    assert ChartFront(series, radius) == s4 + Region(series, radius);
  }

  /** Every label is painted before every marker. */
  lemma LabelsBeforeMarkers(series: seq<Skill>, radius: real, a: nat, b: nat)
    requires a < |Chart(series, radius)| && b < |Chart(series, radius)|
    requires Chart(series, radius)[a].Text? && Chart(series, radius)[b].Arc?
    ensures a < b
  {
    var front := ChartFront(series, radius);
    var mk := Markers(series, radius, |series|);
    var c := Chart(series, radius);
    FrontHolds(series, radius);
    MarkersHold(series, radius, |series|);
    CountOfAbsent(front, IsArc);
    CountOfAbsent(mk, IsText);
  }

  /** The first fill of the chart is the data region's; the spokes, labels and grid lie before it. */
  lemma FirstFillIsRegions(series: seq<Skill>, radius: real)
    ensures var c := Chart(series, radius);
            var f := |ChartFront(series, radius)| - 2;
            0 <= f < |c| && c[f] == Fill && forall k :: 0 <= k < f ==> !c[k].Fill?
  {
    var n := |series|;
    var c := Chart(series, radius);
    var p := UpToAxes(series, radius);
    var pts := RegionPoints(series, radius, n);
    var front := ChartFront(series, radius);
    var before := p + RegionHead + pts + [ClosePath];
    PrefixHasNoFill(series, radius);
    assert front == before + [Fill, Stroke];
    var f := |front| - 2;
    assert f == |before|;
    assert c == front + Markers(series, radius, n);
    assert c[f] == front[f] == Fill;
    forall k | 0 <= k < f
      ensures !c[k].Fill?
    {
      assert c[k] == before[k];
      if k < |p| {
        assert before[k] == p[k];
      } else if k < |p| + 4 {
        assert before[k] == RegionHead[k - |p|];
      } else if k < |p| + 4 + |pts| {
        assert before[k] == pts[k - |p| - 4];
      } else {
        assert before[k] == ClosePath;
      }
    }
  }

  /** Clearing, grid, spokes and labels: everything before the data region. */
  function UpToAxes(series: seq<Skill>, radius: real): seq<Cmd>
  {
    ChartHead + Grid(GridRings, |series|, radius) + AxesHead + Axes(series, radius, |series|)
  }

  /** Before the data region nothing is filled. */
  lemma PrefixHasNoFill(series: seq<Skill>, radius: real)
    ensures forall k :: 0 <= k < |UpToAxes(series, radius)| ==> !UpToAxes(series, radius)[k].Fill?
  {
    GridHasNoFill(GridRings, |series|, radius);
    AxesHaveNoFill(series, radius, |series|);
  }

  lemma {:induction false} GridHasNoFill(k: nat, n: nat, radius: real)
    ensures forall j :: 0 <= j < |Grid(k, n, radius)| ==> !Grid(k, n, radius)[j].Fill?
  {
    if k > 0 {
      GridHasNoFill(k - 1, n, radius);
      var ring := Ring(k, n, radius);
      var pts := RingPoints(RingRadius(radius, k), n + 1);
      assert ring == [BeginPath] + pts + [ClosePath, Stroke];
      assert forall j :: 0 <= j < |ring| ==> !ring[j].Fill?;
    }
  }

  lemma {:induction false} AxesHaveNoFill(series: seq<Skill>, radius: real, k: nat)
    requires k <= |series|
    ensures forall j :: 0 <= j < |Axes(series, radius, k)| ==> !Axes(series, radius, k)[j].Fill?
  {
    if k > 0 {
      AxesHaveNoFill(series, radius, k - 1);
    }
  }

  /** A spoke's start at the centre, or a label. */
  predicate IsSpokeOrLabel(c: Cmd)
  {
    c == MoveTo(Centre) || c.Text?
  }

  /** The data region starts no spoke and writes no label. */
  lemma RegionHasNoSpokeOrLabel(series: seq<Skill>, radius: real)
    ensures forall k :: 0 <= k < |Region(series, radius)| ==> !IsSpokeOrLabel(Region(series, radius)[k])
  {
    var pts := RegionPoints(series, radius, |series|);
    assert forall k :: 0 <= k < |pts| ==> !IsSpokeOrLabel(pts[k]);
  }

  lemma {:induction false} MarkersHaveNoSpokeOrLabel(series: seq<Skill>, radius: real, k: nat)
    requires k <= |series|
    ensures forall j :: 0 <= j < |Markers(series, radius, k)| ==> !IsSpokeOrLabel(Markers(series, radius, k)[j])
  {
    if k > 0 {
      MarkersHaveNoSpokeOrLabel(series, radius, k - 1);
    }
  }

  /** The data region is filled over the spokes and the labels: every spoke and label is painted before every fill. */
  lemma SpokesAndLabelsBeforeFills(series: seq<Skill>, radius: real, a: nat, b: nat)
    requires a < |Chart(series, radius)| && b < |Chart(series, radius)|
    requires IsSpokeOrLabel(Chart(series, radius)[a]) && Chart(series, radius)[b].Fill?
    ensures a < b
  {
    var n := |series|;
    var c := Chart(series, radius);
    var p := UpToAxes(series, radius);
    var reg := Region(series, radius);
    var mk := Markers(series, radius, n);
    PaintOrder(series, radius);
    assert c == p + reg + mk;
    PrefixHasNoFill(series, radius);
    RegionHasNoSpokeOrLabel(series, radius);
    MarkersHaveNoSpokeOrLabel(series, radius, n);
    forall k | |p| <= k < |c|
      ensures !IsSpokeOrLabel(c[k])
    {
      if k < |p| + |reg| {
        assert c[k] == reg[k - |p|];
      } else {
        assert c[k] == mk[k - |p| - |reg|];
      }
    }
    assert forall k :: 0 <= k < |p| ==> c[k] == p[k];
  }

  /** The markers are painted over the data region: its fill, the chart's first, comes before every marker circle. */
  lemma RegionFillBeforeMarkers(series: seq<Skill>, radius: real, a: nat, b: nat)
    requires a < |Chart(series, radius)| && b < |Chart(series, radius)|
    requires Chart(series, radius)[a].Fill? && forall k :: 0 <= k < a ==> !Chart(series, radius)[k].Fill?
    requires Chart(series, radius)[b].Arc?
    ensures a == |ChartFront(series, radius)| - 2 && a < b
  {
    var front := ChartFront(series, radius);
    FirstFillIsRegions(series, radius);
    FrontHolds(series, radius);
    CountOfAbsent(front, IsArc);
    assert forall k :: 0 <= k < |front| ==> Chart(series, radius)[k] == front[k];
  }

  // What the chart relies on: every use after the chart's own setter

  /** The stroke style and the line width are set. */
  predicate StrokeSet(r: Ready)
  {
    r.stroke && r.width
  }

  const AllSet: Ready := Ready(true, true, true, true)

  /** Path points extend the current path and set nothing. */
  lemma {:induction false} PointsPrepared(r: Ready, pts: seq<Cmd>)
    requires r.path
    requires forall k :: 0 <= k < |pts| ==> pts[k].MoveTo? || pts[k].LineTo?
    ensures Prepared(r, pts) && ReadyAfter(r, pts) == r
    decreases |pts|
  {
    if pts != [] {
      PointsPrepared(r, pts[1..]);
    }
  }

  lemma RingPrepared(r: Ready, i: nat, n: nat, radius: real)
    requires StrokeSet(r)
    ensures Prepared(r, Ring(i, n, radius)) && ReadyAfter(r, Ring(i, n, radius)) == r.(path := true)
  {
    var pts := RingPoints(RingRadius(radius, i), n + 1);
    var r1 := r.(path := true);
    PointsPrepared(r1, pts);
    assert [ClosePath, Stroke][1..] == [Stroke];
    PreparedAppend(r, [BeginPath], pts);
    PreparedAppend(r, [BeginPath] + pts, [ClosePath, Stroke]);
  }

  lemma {:induction false} GridPrepared(r: Ready, k: nat, n: nat, radius: real)
    requires StrokeSet(r)
    ensures Prepared(r, Grid(k, n, radius))
    ensures ReadyAfter(r, Grid(k, n, radius)) == if k == 0 then r else r.(path := true)
  {
    if k > 0 {
      GridPrepared(r, k - 1, n, radius);
      var r1 := ReadyAfter(r, Grid(k - 1, n, radius));
      RingPrepared(r1, k, n, radius);
      PreparedAppend(r, Grid(k - 1, n, radius), Ring(k, n, radius));
    }
  }

  lemma AxisPrepared(r: Ready, s: Skill, i: nat, radius: real)
    requires StrokeSet(r)
    ensures Prepared(r, Axis(s, i, radius)) && ReadyAfter(r, Axis(s, i, radius)) == r.(path := true, fill := true)
  {
    var rp := r.(path := true);
    var a2 := [LineTo(Polar(i, radius)), Stroke];
    var a1 := [MoveTo(Centre)] + a2;
    var spoke := [BeginPath] + a1;
    var tag := [SetFill(LabelColour), Text(s.name, Polar(i, radius + LabelGap))];
    assert Axis(s, i, radius) == spoke + tag;
    PreparedCons(rp, Stroke, []);
    PreparedCons(rp, LineTo(Polar(i, radius)), [Stroke]);
    PreparedCons(rp, MoveTo(Centre), a2);
    PreparedCons(r, BeginPath, a1);
    LabelPrepared(rp, tag[1]);
    PreparedAppend(r, spoke, tag);
  }

  /** A label sets its own fill style. */
  lemma LabelPrepared(r: Ready, t: Cmd)
    ensures Prepared(r, [SetFill(LabelColour), t]) <==> Meets(r.(fill := true), t)
    ensures ReadyAfter(r, [SetFill(LabelColour), t]) == Establish(r.(fill := true), t)
  {
    PreparedCons(r.(fill := true), t, []);
    PreparedCons(r, SetFill(LabelColour), [t]);
  }

  lemma {:induction false} AxesPrepared(r: Ready, series: seq<Skill>, radius: real, k: nat)
    requires StrokeSet(r) && k <= |series|
    ensures Prepared(r, Axes(series, radius, k)) && StrokeSet(ReadyAfter(r, Axes(series, radius, k)))
  {
    if k > 0 {
      AxesPrepared(r, series, radius, k - 1);
      AxisPrepared(ReadyAfter(r, Axes(series, radius, k - 1)), series[k - 1], k - 1, radius);
      PreparedAppend(r, Axes(series, radius, k - 1), Axis(series[k - 1], k - 1, radius));
    }
  }

  /** The data region sets every style it uses, whatever was set before. */
  lemma RegionPrepared(r: Ready, series: seq<Skill>, radius: real)
    ensures Prepared(r, Region(series, radius)) && ReadyAfter(r, Region(series, radius)) == AllSet
  {
    var pts := RegionPoints(series, radius, |series|);
    RegionHeadPrepared(r);
    PointsPrepared(AllSet, pts);
    PreparedCons(AllSet, Stroke, []);
    PreparedCons(AllSet, Fill, [Stroke]);
    PreparedCons(AllSet, ClosePath, [Fill, Stroke]);
    PreparedAppend(r, RegionHead, pts);
    PreparedAppend(r, RegionHead + pts, RegionTail);
  }

  lemma RegionHeadPrepared(r: Ready)
    ensures Prepared(r, RegionHead) && ReadyAfter(r, RegionHead) == AllSet
  {
    var rf := r.(fill := true);
    var rs := rf.(stroke := true);
    var rw := rs.(width := true);
    PreparedCons(rw, BeginPath, []);
    PreparedCons(rs, SetLineWidth(2), [BeginPath]);
    PreparedCons(rf, SetStroke(Accent), [SetLineWidth(2), BeginPath]);
    PreparedCons(r, SetFill(RegionColour), [SetStroke(Accent), SetLineWidth(2), BeginPath]);
  }

  /** A marker sets every style it uses, whatever was set before. */
  lemma MarkerPrepared(r: Ready, s: Skill, i: nat, radius: real)
    ensures Prepared(r, Marker(s, i, radius)) && ReadyAfter(r, Marker(s, i, radius)) == AllSet
  {
    var rp := r.(path := true);
    var rf := rp.(fill := true);
    var m2 := [SetFill(MarkerColour)];
    var m1 := [Arc(Polar(i, LevelDistance(radius, s.level)), MarkerSize)] + m2;
    var circle := [BeginPath] + m1;
    assert Marker(s, i, radius) == circle + MarkerOutline;
    PreparedCons(rp, SetFill(MarkerColour), []);
    PreparedCons(rp, m1[0], m2);
    PreparedCons(r, BeginPath, m1);
    MarkerOutlinePrepared(rf);
    PreparedAppend(r, circle, MarkerOutline);
  }

  /** The second half of a marker: filled, then outlined in its own style. */
  const MarkerOutline: seq<Cmd> := [Fill, SetStroke(Accent), SetLineWidth(2), Stroke]

  lemma MarkerOutlinePrepared(r: Ready)
    requires r.fill && r.path
    ensures Prepared(r, MarkerOutline) && ReadyAfter(r, MarkerOutline) == AllSet
  {
    var rs := r.(stroke := true);
    PreparedCons(AllSet, Stroke, []);
    PreparedCons(rs, SetLineWidth(2), [Stroke]);
    PreparedCons(r, SetStroke(Accent), [SetLineWidth(2), Stroke]);
    PreparedCons(r, Fill, [SetStroke(Accent), SetLineWidth(2), Stroke]);
  }

  lemma {:induction false} MarkersPrepared(r: Ready, series: seq<Skill>, radius: real, k: nat)
    requires k <= |series|
    ensures Prepared(r, Markers(series, radius, k))
    ensures ReadyAfter(r, Markers(series, radius, k)) == if k == 0 then r else AllSet
  {
    if k > 0 {
      MarkersPrepared(r, series, radius, k - 1);
      MarkerPrepared(ReadyAfter(r, Markers(series, radius, k - 1)), series[k - 1], k - 1, radius);
      PreparedAppend(r, Markers(series, radius, k - 1), Marker(series[k - 1], k - 1, radius));
    }
  }

  /**
   * Every stroke, fill, label and path command of the chart comes after the
   * chart's own setter of the style it uses and after its own `beginPath`.
   */
  lemma ChartSetsBeforeUse(series: seq<Skill>, radius: real)
    ensures SetsBeforeUse(Chart(series, radius))
  {
    var n := |series|;
    var h := ChartHead;
    var g := Grid(GridRings, n, radius);
    var ax := Axes(series, radius, n);
    var r1 := Ready(true, false, true, false);
    PreparedCons(Fresh.(stroke := true), SetLineWidth(1), []);
    PreparedCons(Fresh, SetStroke(GridColour), [SetLineWidth(1)]);
    PreparedCons(Fresh, Clear, [SetStroke(GridColour), SetLineWidth(1)]);
    GridPrepared(r1, GridRings, n, radius);
    var r2 := r1.(path := true);
    PreparedCons(r2, SetLineWidth(1), []);
    PreparedCons(r2, SetStroke(AxisColour), [SetLineWidth(1)]);
    AxesPrepared(r2, series, radius, n);
    var r4 := ReadyAfter(r2, ax);
    RegionPrepared(r4, series, radius);
    MarkersPrepared(AllSet, series, radius, n);
    PreparedAppend(Fresh, h, g);
    PreparedAppend(Fresh, h + g, AxesHead);
    PreparedAppend(Fresh, h + g + AxesHead, ax);
    PreparedAppend(Fresh, h + g + AxesHead + ax, Region(series, radius));
    PreparedAppend(Fresh, h + g + AxesHead + ax + Region(series, radius), Markers(series, radius, n));
    PaintOrder(series, radius);
  }

  /**
   * Drawing the chart replaces the previous picture, and the result does not
   * depend on what earlier drawings left in the context: after the chart only
   * the chart's calls leave marks, a redraw leaves the same calls, and each of
   * those calls relies only on styles and a path that the chart itself set.
   */
  lemma RedrawIsIdempotent(log: seq<Cmd>, series: seq<Skill>, radius: real)
    ensures Visible(log + Chart(series, radius)) == Chart(series, radius)
    ensures Visible(log + Chart(series, radius) + Chart(series, radius)) == Visible(log + Chart(series, radius))
    ensures SetsBeforeUse(Chart(series, radius))
  {
    ChartCounts(series, radius);
    ClearedDrawingIsVisible(log, Chart(series, radius));
    ClearedDrawingIsVisible(log + Chart(series, radius), Chart(series, radius));
    ChartSetsBeforeUse(series, radius);
  }

  // ---------------------------------------------------------------------
  // The level dial of a skill card: a clip polygon in percentages

  /** A polygon vertex in percent of the dial's box: `x% y%`. */
  datatype ClipVertex = ClipVertex(x: int, y: int)

  /** The nine vertices of the dial's clip polygon for a level. */
  function ClipPolygon(level: int): seq<ClipVertex>
  {
    var upper := level >= 50;
    [ClipVertex(50, 50), ClipVertex(50, 0),
     ClipVertex(if upper then 100 else 50, 0),
     ClipVertex(if upper then 100 else 50, if upper then (level - 50) * 2 else 0),
     ClipVertex(if upper then 100 else 50 + level, 100),
     ClipVertex(50, 100), ClipVertex(50, 100), ClipVertex(0, 100), ClipVertex(0, 0)]
  }

  ghost predicate InBox(p: seq<ClipVertex>)
  {
    forall k :: 0 <= k < |p| ==> 0 <= p[k].x <= 100 && 0 <= p[k].y <= 100
  }

  /**
   * The polygon stays inside the dial's box exactly for levels from -50 to
   * 100; every level of the intended range 0..100 is among them.
   */
  lemma ClipPolygonInBox(level: int)
    ensures |ClipPolygon(level)| == 9
    ensures InBox(ClipPolygon(level)) <==> -50 <= level <= 100
  {
    var p := ClipPolygon(level);
    if level > 100 {
      assert p[3].y > 100;
    } else if level < -50 {
      assert p[4].x < 0;
    }
  }

  /** Raising the level never moves a vertex left or up. */
  lemma ClipPolygonMonotonic(low: int, high: int)
    requires low <= high
    ensures forall k :: 0 <= k < 9 ==>
              ClipPolygon(low)[k].x <= ClipPolygon(high)[k].x && ClipPolygon(low)[k].y <= ClipPolygon(high)[k].y
  {
  }

  /**
   * The two vertices that follow the level meet the box corners at the ends
   * of the range: at 50 the lower edge is reached on the right, at 100 the
   * right edge is covered to the bottom.
   */
  lemma ClipPolygonEnds()
    ensures ClipPolygon(0)[4] == ClipVertex(50, 100) && ClipPolygon(0)[3] == ClipVertex(50, 0)
    ensures ClipPolygon(50)[4] == ClipVertex(100, 100) && ClipPolygon(50)[3] == ClipVertex(100, 0)
    ensures ClipPolygon(100)[3] == ClipVertex(100, 100)
  {
  }

  // ---------------------------------------------------------------------
  // The view's state and its effects

  /** Six pieces appended one after the other to a log append the whole chart. */
  lemma ChartAssembled(series: seq<Skill>, radius: real, l0: seq<Cmd>, l1: seq<Cmd>, l2: seq<Cmd>,
                       l3: seq<Cmd>, l4: seq<Cmd>, l5: seq<Cmd>, l6: seq<Cmd>)
    requires l1 == l0 + ChartHead && l2 == l1 + Grid(GridRings, |series|, radius)
    requires l3 == l2 + AxesHead && l4 == l3 + Axes(series, radius, |series|)
    requires l5 == l4 + Region(series, radius) && l6 == l5 + Markers(series, radius, |series|)
    ensures l6 == l0 + Chart(series, radius)
  {
    PaintOrder(series, radius);
  }

  /** Grid ring `i`: one closed path through the `n` axes and back to the first. */
  method DrawRing(canvas: Canvas, i: nat, n: nat, radius: real)
    modifies canvas
    ensures canvas.log == old(canvas.log) + Ring(i, n, radius)
  {
    ghost var before := canvas.log;
    canvas.Draw(BeginPath);
    var r := (radius / 5.0) * (i as real);
    for j := 0 to n + 1
      invariant canvas.log == before + [BeginPath] + RingPoints(r, j)
    {
      if j == 0 {
        canvas.Draw(MoveTo(Polar(j, r)));
      } else {
        canvas.Draw(LineTo(Polar(j, r)));
      }
      assert RingPoints(r, j + 1) == RingPoints(r, j) + [Vertex(j, r)];
    }
    canvas.Draw(ClosePath);
    canvas.Draw(Stroke);
  }

  /** The background grid: rings 1 to 5, innermost first. */
  method DrawGrid(canvas: Canvas, n: nat, radius: real)
    modifies canvas
    ensures canvas.log == old(canvas.log) + Grid(GridRings, n, radius)
  {
    ghost var before := canvas.log;
    for i := 1 to GridRings + 1
      invariant canvas.log == before + Grid(i - 1, n, radius)
    {
      DrawRing(canvas, i, n, radius);
    }
  }

  /** One spoke per skill, each followed by the skill's label. */
  method DrawAxes(canvas: Canvas, series: seq<Skill>, radius: real)
    modifies canvas
    ensures canvas.log == old(canvas.log) + Axes(series, radius, |series|)
  {
    ghost var before := canvas.log;
    for k := 0 to |series|
      invariant canvas.log == before + Axes(series, radius, k)
    {
      canvas.Draw(BeginPath);
      canvas.Draw(MoveTo(Centre));
      canvas.Draw(LineTo(Polar(k, radius)));
      canvas.Draw(Stroke);
      canvas.Draw(SetFill(LabelColour));
      canvas.Draw(Text(series[k].name, Polar(k, radius + LabelGap)));
    }
  }

  /** The data region through every skill's level, filled and then outlined. */
  method DrawRegion(canvas: Canvas, series: seq<Skill>, radius: real)
    modifies canvas
    ensures canvas.log == old(canvas.log) + Region(series, radius)
  {
    ghost var before := canvas.log;
    canvas.Draw(SetFill(RegionColour));
    canvas.Draw(SetStroke(Accent));
    canvas.Draw(SetLineWidth(2));
    canvas.Draw(BeginPath);
    for k := 0 to |series|
      invariant canvas.log == before + RegionHead + RegionPoints(series, radius, k)
    {
      var d := (radius * (series[k].level as real)) / 100.0;
      assert d == LevelDistance(radius, series[k].level);
      if k == 0 {
        canvas.Draw(MoveTo(Polar(k, d)));
      } else {
        canvas.Draw(LineTo(Polar(k, d)));
      }
      assert RegionPoints(series, radius, k + 1) == RegionPoints(series, radius, k) + [Vertex(k, d)];
    }
    canvas.Draw(ClosePath);
    canvas.Draw(Fill);
    canvas.Draw(Stroke);
  }

  /** A round marker on every data vertex. */
  method DrawMarkers(canvas: Canvas, series: seq<Skill>, radius: real)
    modifies canvas
    ensures canvas.log == old(canvas.log) + Markers(series, radius, |series|)
  {
    ghost var before := canvas.log;
    for k := 0 to |series|
      invariant canvas.log == before + Markers(series, radius, k)
    {
      var d := (radius * (series[k].level as real)) / 100.0;
      assert d == LevelDistance(radius, series[k].level);
      ghost var start := canvas.log;
      canvas.Draw(BeginPath);
      canvas.Draw(Arc(Polar(k, d), MarkerSize));
      canvas.Draw(SetFill(MarkerColour));
      canvas.Draw(Fill);
      canvas.Draw(SetStroke(Accent));
      canvas.Draw(SetLineWidth(2));
      canvas.Draw(Stroke);
      assert canvas.log == start + Marker(series[k], k, radius);
    }
  }

  /** The whole chart of a series: clear, grid, spokes and labels, data region, markers. */
  method DrawChart(canvas: Canvas, series: seq<Skill>, radius: real)
    modifies canvas
    ensures canvas.log == old(canvas.log) + Chart(series, radius)
  {
    var n := |series|;
    ghost var l0 := canvas.log;
    canvas.Draw(Clear);
    canvas.Draw(SetStroke(GridColour));
    canvas.Draw(SetLineWidth(1));
    ghost var l1 := canvas.log;
    DrawGrid(canvas, n, radius);
    ghost var l2 := canvas.log;
    canvas.Draw(SetStroke(AxisColour));
    canvas.Draw(SetLineWidth(1));
    ghost var l3 := canvas.log;
    DrawAxes(canvas, series, radius);
    ghost var l4 := canvas.log;
    DrawRegion(canvas, series, radius);
    ghost var l5 := canvas.log;
    DrawMarkers(canvas, series, radius);
    ChartAssembled(series, radius, l0, l1, l2, l3, l4, l5, canvas.log);
  }

  class SkillsView {
    var skills: seq<Skill>
    var isLoading: bool
    var selectedCategory: string
    /** The category buttons, empty until the data have arrived. */
    var categories: seq<string>

    ghost predicate Valid()
      reads this
    {
      && (categories == [] || categories == SkillCategories(skills))
      && (categories == [] ==> selectedCategory == All)
      && selectedCategory in SkillCategories(skills)
    }

    /** The state on mount. */
    constructor ()
      ensures Valid()
      ensures skills == [] && isLoading && selectedCategory == All && categories == []
    {
      skills := [];
      isLoading := true;
      selectedCategory := All;
      categories := [];
    }

    /** The mount effect once its data have arrived: store them, build the buttons, stop loading. */
    method FinishLoading(data: seq<Skill>)
      requires Valid() && categories == []
      modifies this
      ensures Valid()
      ensures skills == data && categories == SkillCategories(data) && !isLoading
      ensures selectedCategory == old(selectedCategory) == All
    {
      skills := data;
      categories := SkillCategories(data);
      isLoading := false;
    }

    /** The loading overlay gave up waiting. */
    method Timeout()
      requires Valid()
      modifies this
      ensures Valid() && !isLoading
      ensures skills == old(skills) && categories == old(categories) && selectedCategory == old(selectedCategory)
    {
      isLoading := false;
    }

    /** A category button was clicked. */
    method SelectCategory(c: string)
      requires Valid() && c in categories
      modifies this
      ensures Valid() && selectedCategory == c
      ensures skills == old(skills) && categories == old(categories) && isLoading == old(isLoading)
    {
      selectedCategory := c;
    }

    /** Draws the radar chart of the current selection on the canvas, if there is one. */
    method DrawRadarChart(canvas: Canvas?)
      modifies canvas
      ensures canvas != null ==>
                canvas.log == old(canvas.log) + Chart(RadarSeries(skills, selectedCategory), Radius(canvas.width, canvas.height))
    {
      if canvas == null {
        return;
      }
      DrawChart(canvas, RadarSeries(skills, selectedCategory), Radius(canvas.width, canvas.height));
    }

    /**
     * The effect that runs after every change of the skills, the loading flag
     * or the selection: it draws only once loading is over, there is at least
     * one skill and the canvas is attached; and then the series has at least
     * one entry, so the angle step never divides by zero.
     */
    method DrawEffect(canvas: Canvas?) returns (drew: bool)
      requires Valid()
      modifies canvas
      ensures drew <==> ShouldDraw(isLoading, skills, canvas != null)
      ensures drew ==> |RadarSeries(skills, selectedCategory)| >= 1
      ensures drew ==> canvas.log == old(canvas.log)
                         + Chart(RadarSeries(skills, selectedCategory), Radius(canvas.width, canvas.height))
      ensures !drew && canvas != null ==> canvas.log == old(canvas.log)
    {
      drew := !isLoading && |skills| > 0 && canvas != null;
      if drew {
        DrawnSeriesNonEmpty(skills, selectedCategory, isLoading, true);
        DrawRadarChart(canvas);
      }
    }
  }
}

# Skills and projects views of a cyberpunk portfolio, in Dafny

This project models the two views of the portfolio front end that carry logic.

The **skills view** does the following:
- It builds its category buttons: the "all" tag `全部`, then each distinct skill category in first-occurrence order.
- It lists the skills of the selected category.
- It plots at most eight of them on a radar chart drawn on a 500 by 500 canvas.
- It draws a level dial on every skill card, clipped by a polygon whose vertices are computed from the level.

The **projects view** does the following:
- It builds the same kind of buttons over project categories and filters the project cards.
- On each card it shows at most three technology badges, followed by a `+k` counter.
- It shows a notice when no card is left.
- It opens a detail dialog that locks page scrolling through the page's `overflow` style.
- The dialog shows the demo and source links only when they are not the placeholder `#`.

Files:

- `catalog.dfy` (module `Catalog`):
  - the category list of a view, with `Distinct` giving the iteration order of a JavaScript `Set` (first occurrence);
  - the category filter;
  - `slice(0, n)`.
  - It is generic in the record type and shared by both views, because the two views repeat the same code.
- `canvas.dfy` (module `Canvas2D`): the canvas and its 2D context, as a class that records every call made on it.
  - Points are polar: `Polar(j, d)` lies at distance `d` on axis `j`, whose angle is 2π·j/N − π/2.
  - `Visible` is the calls whose marks remain on screen: every command since the last `Clear`. The context state (stroke and fill style, line width, current path) outlives a `Clear`; `Ready` records which parts of it a drawing has set, and `SetsBeforeUse` says that every command of a drawing relies only on parts the drawing itself set earlier.
- `skills.dfy` (module `Skills`):
  - the skill record, the buttons, the list and the radar series;
  - the chart as a function from the series to its command sequence, with lemmas about that sequence (shape, counts, paint order, redrawing);
  - the drawing methods, whose loops are proved to append exactly that sequence;
  - the draw effect and its guard;
  - the view's state as a class;
  - the clip-polygon arithmetic.
- `projects.dfy` (module `Projects`):
  - the project record, the buttons and the filter;
  - the badges, the link buttons and the empty-state notice;
  - the dialog as a step function over open and close clicks;
  - the view's state as a class whose methods are proved against that step function.
- `option.dfy` (module `Option`): an optional value, standing for a value that may be `null`.

What the timer-driven loading leaves behind is modelled as method calls:
- `FinishLoading` combines the state the effect stores once its data arrive with the end of loading.
- `Timeout` is the loading overlay giving up.

Both views handle an empty data set, and both methods accept one.

## Model

| member | source | states |
|---|---|---|
| Catalog.Distinct | cyberpunk-resume-portfolio-102053/frontend/src/Skills.jsx:18 | `[...new Set(xs)]`: exactly the values of the input, with no repetition, never longer than the input |
| Catalog.DistinctInFirstOccurrenceOrder | cyberpunk-resume-portfolio-102053/frontend/src/Skills.jsx:18 | the distinct values keep the order in which each first occurs in the input |
| Catalog.CategoryList | cyberpunk-resume-portfolio-102053/frontend/src/Projects.jsx:18 | the button list starts with `全部` and then holds exactly the categories, each once; the whole list is free of duplicates if and only if no record's category is itself `全部` |
| Catalog.CategoryListInFirstOccurrenceOrder | cyberpunk-resume-portfolio-102053/frontend/src/Projects.jsx:18 | the buttons after `全部` follow the order of first occurrence: the category of an earlier button occurs in the records before every occurrence of a later button's category |
| Catalog.Filter | cyberpunk-resume-portfolio-102053/frontend/src/Skills.jsx:140 | `filter` keeps exactly the records of the category: every kept record matches, and every matching record is kept |
| Catalog.FilterIsSubsequence | cyberpunk-resume-portfolio-102053/frontend/src/Skills.jsx:140 | the filtered list is an order-preserving subsequence of the input |
| Catalog.FilterMultiplicity | cyberpunk-resume-portfolio-102053/frontend/src/Skills.jsx:140 | each matching record appears in the filtered list as often as in the input, and no other record appears |
| Catalog.ViewFilterSpec | cyberpunk-resume-portfolio-102053/frontend/src/Projects.jsx:34-36 | under `全部` the view shows the input unchanged; under any other tag, exactly the matching records in their order and multiplicity |
| Catalog.ViewEmptyOnlyWithoutRecords | cyberpunk-resume-portfolio-102053/frontend/src/Skills.jsx:138-140 | with a tag taken from the buttons built from the records, the filtered view is empty if and only if there are no records |
| Catalog.Take | cyberpunk-resume-portfolio-102053/frontend/src/Skills.jsx:45-47 | `slice(0, n)` is the prefix of length min(n, length) |
| Canvas2D.Visible | cyberpunk-resume-portfolio-102053/frontend/src/Skills.jsx:51 | what `clearRect` over the whole canvas leaves: a suffix of the log that starts at the last clearing, or the whole log if it was never cleared |
| Canvas2D.ClearedDrawingIsVisible | cyberpunk-resume-portfolio-102053/frontend/src/Skills.jsx:51 | a drawing that starts with its only clearing is exactly what is visible after it, whatever was drawn before |
| Canvas2D.PreparedAppend | cyberpunk-resume-portfolio-102053/frontend/src/Skills.jsx:51-131 | a fact about the model's own readiness record, not about these lines: a drawing made of two parts is prepared exactly when the first is, and the second is from what the first leaves set; `ChartSetsBeforeUse` rests on it |
| Canvas2D.PreparedAt | cyberpunk-resume-portfolio-102053/frontend/src/Skills.jsx:51-131 | being prepared means, position by position, that command k finds what it relies on set by the commands before k |
| Canvas2D.ReadyAfterMeansSet | cyberpunk-resume-portfolio-102053/frontend/src/Skills.jsx:51-131 | a part of the context state is set after a sequence exactly when it was set before or some command of the sequence sets it (`strokeStyle`, `fillStyle`, `lineWidth`, `beginPath`) |
| Canvas2D.CountOfAppend | cyberpunk-resume-portfolio-102053/frontend/src/Skills.jsx:36-132 | a fact about the model's own command counter, not about these lines: counting distributes over concatenation; `ChartCounts` and `LabelsBeforeMarkers` rest on it |
| Canvas2D.CountOfAbsent | cyberpunk-resume-portfolio-102053/frontend/src/Skills.jsx:36-132 | a fact about the model's own command counter, not about these lines: a count is zero if and only if no command has the property; `ChartCounts` and `LabelsBeforeMarkers` rest on it |
| Canvas2D.Canvas.Draw | cyberpunk-resume-portfolio-102053/frontend/src/Skills.jsx:53-131 | one call on the 2D context appends exactly that command to the log |
| Skills.SkillCategories | cyberpunk-resume-portfolio-102053/frontend/src/Skills.jsx:18 | the buttons start with `全部`; every skill's category appears after it, once; every button after it is some skill's category; no duplicates if and only if no skill has category `全部` |
| Skills.SkillCategoriesInFirstOccurrenceOrder | cyberpunk-resume-portfolio-102053/frontend/src/Skills.jsx:18 | the category of an earlier button occurs among the skills before every occurrence of a later button's category |
| Skills.ListedSkills | cyberpunk-resume-portfolio-102053/frontend/src/Skills.jsx:138-140 | under `全部` the list is all skills; otherwise the order-preserving subsequence of skills of that category, each with its multiplicity |
| Skills.RadarSeries | cyberpunk-resume-portfolio-102053/frontend/src/Skills.jsx:45-47 | the plotted skills are the first min(8, n) entries of the listed skills; under a tag other than `全部` each has that category |
| Skills.DrawnSeriesNonEmpty | cyberpunk-resume-portfolio-102053/frontend/src/Skills.jsx:31-49 | when the effect's guard holds and the selection comes from the buttons, at least one skill is plotted, so the angle step 2π/N is never divided by zero |
| Skills.Radius | cyberpunk-resume-portfolio-102053/frontend/src/Skills.jsx:41-43 | the radius plus the 60 margin is the smaller of the two half-sides |
| Skills.ViewCanvasGeometry | cyberpunk-resume-portfolio-102053/frontend/src/Skills.jsx:190-192 | the 500 by 500 canvas has its centre at 250 and a radius of 190 |
| Skills.RingRadius | cyberpunk-resume-portfolio-102053/frontend/src/Skills.jsx:58 | ring i lies at radius·i/5, and the fifth ring at the full radius |
| Skills.LevelDistance | cyberpunk-resume-portfolio-102053/frontend/src/Skills.jsx:103 | level 0 is plotted at the centre, level 100 at the full radius, and any level in 0..100 within the radius |
| Skills.LevelRoundTrip | cyberpunk-resume-portfolio-102053/frontend/src/Skills.jsx:103 | the level can be recovered from its plotted distance: 100·d/radius = level |
| Skills.LevelDistanceMonotonic | cyberpunk-resume-portfolio-102053/frontend/src/Skills.jsx:103 | a higher level is never plotted nearer the centre |
| Skills.RingShape | cyberpunk-resume-portfolio-102053/frontend/src/Skills.jsx:56-71 | each ring is a beginPath, a moveTo on axis 0, lineTo on axes 1..N (axis N repeating axis 0), then closePath and stroke, all at radius·i/5 |
| Skills.RingPointCount | cyberpunk-resume-portfolio-102053/frontend/src/Skills.jsx:59 | each ring passes through exactly N+1 points |
| Skills.GridRingsInOrder | cyberpunk-resume-portfolio-102053/frontend/src/Skills.jsx:56 | the grid is rings 1, 2, 3, 4, 5 in that order |
| Skills.AxisShape | cyberpunk-resume-portfolio-102053/frontend/src/Skills.jsx:76-94 | spoke i runs from the centre to the full radius on axis i, and the skill's name is written on axis i at radius+30 |
| Skills.AxesLayout | cyberpunk-resume-portfolio-102053/frontend/src/Skills.jsx:76 | the spokes and labels come one block per skill, in series order |
| Skills.RegionShape | cyberpunk-resume-portfolio-102053/frontend/src/Skills.jsx:97-115 | the data region sets its styles and begins a path; vertex i lies at radius·level/100 on axis i (moveTo first, lineTo after); then it closes, fills and strokes |
| Skills.MarkerShape | cyberpunk-resume-portfolio-102053/frontend/src/Skills.jsx:118-131 | marker i is a circle of radius 5 on the data vertex of axis i, filled and then stroked |
| Skills.MarkersLayout | cyberpunk-resume-portfolio-102053/frontend/src/Skills.jsx:118 | the markers come one block per skill, in series order |
| Skills.ChartCounts | cyberpunk-resume-portfolio-102053/frontend/src/Skills.jsx:51-131 | the chart clears once and first; it writes exactly one label and one marker per plotted skill, and closes exactly six paths (five rings and the region) |
| Skills.PaintOrder | cyberpunk-resume-portfolio-102053/frontend/src/Skills.jsx:51-131 | the chart regrouped into its layers: the clearing and grid style, the grid, the spoke style with spokes and labels, the data region, then the markers (the occlusion order itself is stated by the precedence lemmas below) |
| Skills.FirstFillIsRegions | cyberpunk-resume-portfolio-102053/frontend/src/Skills.jsx:97-115 | the chart's first fill is the data region's, right before its outline; nothing before it is filled |
| Skills.SpokesAndLabelsBeforeFills | cyberpunk-resume-portfolio-102053/frontend/src/Skills.jsx:76-131 | every spoke start at the centre and every label comes before every fill, so the region and markers are painted over them |
| Skills.RegionFillBeforeMarkers | cyberpunk-resume-portfolio-102053/frontend/src/Skills.jsx:97-131 | the first fill is the region's and it comes before every marker circle, so the markers are painted over the region |
| Skills.LabelsBeforeMarkers | cyberpunk-resume-portfolio-102053/frontend/src/Skills.jsx:76-131 | every label is painted before every marker |
| Skills.RedrawIsIdempotent | cyberpunk-resume-portfolio-102053/frontend/src/Skills.jsx:30-34 | after a drawing only its calls leave marks, a redraw leaves the same calls, and each of those calls relies only on styles and a path the chart set itself, so nothing an earlier drawing left in the context shows through |
| Skills.ChartSetsBeforeUse | cyberpunk-resume-portfolio-102053/frontend/src/Skills.jsx:51-131 | every stroke comes after the chart's own stroke style, line width and `beginPath`; every fill and label after its own fill style; every path command after its own `beginPath` |
| Skills.RingPrepared | cyberpunk-resume-portfolio-102053/frontend/src/Skills.jsx:54-71 | with the grid style set, a ring uses nothing else and leaves a path begun |
| Skills.AxisPrepared | cyberpunk-resume-portfolio-102053/frontend/src/Skills.jsx:76-93 | with the spoke style set, a spoke and its label use nothing else; the label sets its own fill style |
| Skills.RegionPrepared | cyberpunk-resume-portfolio-102053/frontend/src/Skills.jsx:97-115 | the data region sets every style it uses, whatever was set before |
| Skills.MarkerPrepared | cyberpunk-resume-portfolio-102053/frontend/src/Skills.jsx:118-131 | a marker sets every style it uses, whatever was set before |
| Skills.DrawRing | cyberpunk-resume-portfolio-102053/frontend/src/Skills.jsx:57-70 | the inner loop appends exactly ring i |
| Skills.DrawGrid | cyberpunk-resume-portfolio-102053/frontend/src/Skills.jsx:56-71 | the outer loop appends exactly the five rings |
| Skills.DrawAxes | cyberpunk-resume-portfolio-102053/frontend/src/Skills.jsx:76-94 | the loop appends exactly one spoke and one label per skill |
| Skills.DrawRegion | cyberpunk-resume-portfolio-102053/frontend/src/Skills.jsx:97-115 | appends exactly the data region |
| Skills.DrawMarkers | cyberpunk-resume-portfolio-102053/frontend/src/Skills.jsx:118-131 | the loop appends exactly one marker per skill |
| Skills.DrawChart | cyberpunk-resume-portfolio-102053/frontend/src/Skills.jsx:51-131 | the drawing appends exactly the chart of the series: clearing, grid, spokes and labels, region, markers |
| Skills.SkillsView.DrawRadarChart | cyberpunk-resume-portfolio-102053/frontend/src/Skills.jsx:36-132 | with no canvas nothing happens; otherwise the log grows by exactly the chart of the current series at the canvas's radius |
| Skills.SkillsView.DrawEffect | cyberpunk-resume-portfolio-102053/frontend/src/Skills.jsx:30-34 | it draws if and only if loading is over, there is a skill and a canvas; then the series is non-empty and the chart is appended; otherwise the canvas is untouched |
| Skills.SkillsView.constructor | cyberpunk-resume-portfolio-102053/frontend/src/Skills.jsx:6-9 | no skills, loading, `全部` selected, no buttons |
| Skills.SkillsView.FinishLoading | cyberpunk-resume-portfolio-102053/frontend/src/Skills.jsx:17-23 | the skills are stored, the buttons built from them, loading ends, and the selection stays `全部` |
| Skills.SkillsView.Timeout | cyberpunk-resume-portfolio-102053/frontend/src/Skills.jsx:134-136 | loading ends and nothing else changes |
| Skills.SkillsView.SelectCategory | cyberpunk-resume-portfolio-102053/frontend/src/Skills.jsx:168-171 | a button's category becomes the selection, and the selection stays one of the buttons |
| Skills.ClipPolygonInBox | cyberpunk-resume-portfolio-102053/frontend/src/Skills.jsx:245-253 | the nine vertices all lie within 0..100 percent if and only if the level lies in -50..100 |
| Skills.ClipPolygonMonotonic | cyberpunk-resume-portfolio-102053/frontend/src/Skills.jsx:245-253 | raising the level never moves a vertex left or up |
| Skills.ClipPolygonEnds | cyberpunk-resume-portfolio-102053/frontend/src/Skills.jsx:245-253 | at level 0 the moving vertices stay on the centre line; at 50 they reach the right edge and the bottom-right corner, and at 100 the bottom-right corner |
| Projects.ProjectCategories | cyberpunk-resume-portfolio-102053/frontend/src/Projects.jsx:18 | the buttons start with `全部`; every project's category appears after it, once; every button after it is some project's category; no duplicates if and only if no project has category `全部` |
| Projects.ProjectCategoriesInFirstOccurrenceOrder | cyberpunk-resume-portfolio-102053/frontend/src/Projects.jsx:18 | the category of an earlier button occurs among the projects before every occurrence of a later button's category |
| Projects.FilteredProjects | cyberpunk-resume-portfolio-102053/frontend/src/Projects.jsx:34-36 | under `全部` the cards are all projects; otherwise the order-preserving subsequence of projects of that category, each with its multiplicity |
| Projects.EmptyStateOnlyWithoutProjects | cyberpunk-resume-portfolio-102053/frontend/src/Projects.jsx:159 | with a filter taken from the buttons, the notice shows if and only if loading is over and there are no projects at all |
| Projects.TechBadges | cyberpunk-resume-portfolio-102053/frontend/src/Projects.jsx:131-143 | the first min(3, n) badges are shown; the counter appears if and only if there are more than 3; it is at least 1; badges shown plus the counter equal the number of technologies |
| Projects.BadgesCoverTech | cyberpunk-resume-portfolio-102053/frontend/src/Projects.jsx:131-143 | the shown badges followed by the hidden ones are the whole list, and the counter numbers the hidden ones |
| Projects.LinkButtons | cyberpunk-resume-portfolio-102053/frontend/src/Projects.jsx:278-298 | the demo link is shown if and only if its URL is not `#`, and likewise the source link; there are no other buttons, each link appears at most once (exactly as many buttons as non-`#` URLs), and the demo comes first |
| Projects.Step | cyberpunk-resume-portfolio-102053/frontend/src/Projects.jsx:38-46 | opening selects the project and sets `hidden`; closing clears the selection and sets `auto`; either way the dialog is open exactly while scrolling is locked |
| Projects.ModalRun | cyberpunk-resume-portfolio-102053/frontend/src/Projects.jsx:38-46 | a run of clicks keeps "the dialog is open exactly while scrolling is locked" and "scrolling is locked while the dialog is open"; after at least one click the first holds from any state, and the last click alone decides the state |
| Projects.StaleLockOnRemount | cyberpunk-resume-portfolio-102053/frontend/src/Projects.jsx:6-10 | a mount on a page still locked shows no dialog yet keeps scrolling locked; opening and closing a card unlocks it |
| Projects.ProjectsView.constructor | cyberpunk-resume-portfolio-102053/frontend/src/Projects.jsx:6-10 | no projects, loading, no dialog, `全部` selected, no buttons; the page's overflow is kept as the view finds it, which may be `hidden` |
| Projects.ProjectsView.FinishLoading | cyberpunk-resume-portfolio-102053/frontend/src/Projects.jsx:17-23 | the projects are stored, the buttons built from them, loading ends; the selection and the dialog are unchanged |
| Projects.ProjectsView.Timeout | cyberpunk-resume-portfolio-102053/frontend/src/Projects.jsx:30-32 | loading ends and nothing else changes |
| Projects.ProjectsView.SelectFilter | cyberpunk-resume-portfolio-102053/frontend/src/Projects.jsx:74-77 | a button's category becomes the filter, and nothing else changes |
| Projects.ProjectsView.OpenProjectDetail | cyberpunk-resume-portfolio-102053/frontend/src/Projects.jsx:38-41 | the dialog and scroll lock become what one open click leaves; the invariant holds; the rest is unchanged |
| Projects.ProjectsView.CloseProjectDetail | cyberpunk-resume-portfolio-102053/frontend/src/Projects.jsx:43-46 | the dialog and scroll lock become what one close click leaves; the invariant holds; the rest is unchanged |
| Projects.ProjectsView.EmptyState | cyberpunk-resume-portfolio-102053/frontend/src/Projects.jsx:159 | the notice condition, which in any reachable state holds exactly when loading is over and there are no projects |

The view classes keep the invariant `Valid()`:
- the buttons are either not built yet or built from the current records;
- before they are built the selection is `全部`;
- the selection is always one of the buttons the records give.

In `ProjectsView` the invariant also requires that the page's overflow is `hidden` while the dialog is open. It does not require the converse: the overflow belongs to the whole page, the view neither sets it on mount nor restores it on unmount, so a view left with its dialog open leaves the next mount locked without a dialog (`StaleLockOnRemount`). After the first open or close click the dialog is open exactly while the overflow is `hidden`. The constructor establishes `Valid()` and every method keeps it. `DrawnSeriesNonEmpty` and `EmptyStateOnlyWithoutProjects` rest on this invariant.

The button list `['全部', ...new Set(...)]` holds `全部` twice when some record's category is literally `全部`; the model proves the list duplicate-free exactly when no record has that category.

## Left out

- Pixels, `Math.cos`/`Math.sin` and floating point: points are polar (axis index, distance), and distances are exact reals.
- The angle step `2π / N` itself: it appears only through the axis index. In JavaScript a zero divisor gives `Infinity` rather than an error. `DrawnSeriesNonEmpty` shows that the divisor is at least 1 whenever the chart is drawn.
- Skills.DrawChart: accepts an empty series, and `Chart([], r)` then records, for each grid ring, a `MoveTo` on axis 0 as if the point were real. In JavaScript the ring angle is then `Infinity * 0`, which is `NaN`, so those path calls are ignored and no grid is drawn. The draw effect never calls it with an empty series (`DrawnSeriesNonEmpty`); `Skills.SkillsView.DrawRadarChart` inherits the same gap.
- `font`, `textAlign` and `textBaseline` (Skills.jsx lines 88-90) are folded into the `Text` command and not recorded separately.
- The timer-driven loading (`setTimeout`, `await`, `setIsLoading(true)` at the start of the effect), the catch path that only logs, and React's batching and re-rendering: the effects are method calls made in the order React would run them.
- Skills.SkillsView.FinishLoading: the stored data and the end of loading are one step; the intermediate render between them is not modelled.
- The loading overlay's progress bar, the navigation bar, the application shell and the résumé view (Loading.jsx, Navbar.jsx, App.jsx, Resume.jsx) are not part of this model; they are timing, randomness, DOM and routing plumbing.
- The CSS effect of the clip polygon, the width of the level bars and all styling: only the percentage arithmetic of the polygon is modelled.
- Skill levels are integers. Non-integer levels in the data would compute the same formulas.
- The random binary backgrounds and the dialog's detail lists (overview, challenges, achievements, responsibilities), which only render data.
- Projects.ProjectsView.constructor: does not promise that the dialog is open exactly while scrolling is locked, because a mount may find the page left `hidden` by a view that was unmounted with its dialog open; only "locked while open" holds until the first click.
- Projects.ProjectsView.OpenProjectDetail: accepts any project, as the handler does; that the click comes from a displayed card is not required.

/**
 * The projects view: its filter buttons, the cards of the selected category
 * with their technology badges, the notice shown when no card is left, and
 * the detail dialog that locks page scrolling while it is open.
 */
module Projects {
  import opened Option
  import opened Catalog

  datatype Links = Links(demo: string, github: string)

  datatype Project = Project(id: int, title: string, category: string, tech: seq<string>, featured: bool, links: Links)

  function CategoryOf(p: Project): string
  {
    p.category
  }

  // ---------------------------------------------------------------------
  // Filter buttons and the filtered cards

  /** The filter buttons built once the projects have arrived. */
  function ProjectCategories(projects: seq<Project>): (r: seq<string>)
    ensures |r| >= 1 && r[0] == All
    ensures forall i :: 0 <= i < |projects| ==> projects[i].category in r[1..]
    ensures forall c :: c in r[1..] ==> exists i :: 0 <= i < |projects| && projects[i].category == c
    ensures NoDuplicates(r[1..])
    ensures NoDuplicates(r) <==> forall i :: 0 <= i < |projects| ==> projects[i].category != All
  {
    var ks := Keys(projects, CategoryOf);
    var r := CategoryList(ks);
    assert forall i :: 0 <= i < |projects| ==> projects[i].category == ks[i];
    r
  }

  /** The buttons appear in the order in which their categories first occur among the projects. */
  lemma ProjectCategoriesInFirstOccurrenceOrder(projects: seq<Project>, i: nat, j: nat)
    requires 1 <= i < j < |ProjectCategories(projects)|
    ensures OccursBefore(Keys(projects, CategoryOf), ProjectCategories(projects)[i], ProjectCategories(projects)[j])
  {
    CategoryListInFirstOccurrenceOrder(Keys(projects, CategoryOf), i, j);
  }

  /** The cards shown under the selected filter button. */
  function FilteredProjects(projects: seq<Project>, filter: string): (r: seq<Project>)
    ensures filter == All ==> r == projects
    ensures filter != All ==> IsSubsequence(r, projects)
    ensures filter != All ==> forall i :: 0 <= i < |r| ==> r[i].category == filter
    ensures filter != All ==> forall p :: multiset(r)[p] == if p.category == filter then multiset(projects)[p] else 0
  {
    ViewFilterSpec(projects, CategoryOf, filter);
    ViewFilter(projects, CategoryOf, filter)
  }

  /** The "nothing in this category" notice. */
  predicate EmptyStateShown(filtered: seq<Project>, isLoading: bool)
  {
    |filtered| == 0 && !isLoading
  }

  /**
   * With a filter taken from the buttons, the notice appears only when loading
   * is over and there are no projects at all.
   */
  lemma EmptyStateOnlyWithoutProjects(projects: seq<Project>, filter: string, isLoading: bool)
    requires filter in ProjectCategories(projects)
    ensures EmptyStateShown(FilteredProjects(projects, filter), isLoading) <==> projects == [] && !isLoading
  {
    ViewEmptyOnlyWithoutRecords(projects, CategoryOf, filter);
  }

  // ---------------------------------------------------------------------
  // Technology badges of a card

  const ShownBadges: nat := 3

  /** The badges on a card and, when some are hidden, the number in the `+k` counter. */
  datatype BadgeRow = BadgeRow(shown: seq<string>, more: Option<nat>)

  function TechBadges(tech: seq<string>): (r: BadgeRow)
    ensures |r.shown| == Min(ShownBadges, |tech|) && r.shown == tech[..|r.shown|]
    ensures r.more.Some? <==> |tech| > ShownBadges
    ensures r.more.Some? ==> r.more.value >= 1
    ensures |r.shown| + (if r.more.Some? then r.more.value else 0) == |tech|
  {
    BadgeRow(Take(tech, ShownBadges), if |tech| > ShownBadges then Some(|tech| - ShownBadges) else None)
  }

  /** The badges shown, followed by the ones the counter stands for, are the whole list. */
  lemma BadgesCoverTech(tech: seq<string>)
    ensures var r := TechBadges(tech);
            r.more.Some? ==> r.shown + tech[ShownBadges..] == tech && |tech[ShownBadges..]| == r.more.value
    ensures var r := TechBadges(tech);
            r.more.None? ==> r.shown == tech
  {
    var r := TechBadges(tech);
    if r.more.Some? {
      assert r.shown == tech[..ShownBadges];
    }
  }

  // ---------------------------------------------------------------------
  // Link buttons of the detail dialog

  /** The URL that marks a link as unavailable. */
  const Placeholder: string := "#"

  datatype LinkButton = DemoLink(href: string) | SourceLink(href: string)

  /** The link buttons of a project: the demo first, then the source repository. */
  function LinkButtons(links: Links): (r: seq<LinkButton>)
    ensures DemoLink(links.demo) in r <==> links.demo != Placeholder
    ensures SourceLink(links.github) in r <==> links.github != Placeholder
    ensures forall k :: 0 <= k < |r| ==> r[k] == DemoLink(links.demo) || r[k] == SourceLink(links.github)
    ensures forall k :: 0 < k < |r| ==> r[k].SourceLink?
    ensures |r| == (if links.demo != Placeholder then 1 else 0) + (if links.github != Placeholder then 1 else 0)
  {
    (if links.demo != Placeholder then [DemoLink(links.demo)] else [])
      + (if links.github != Placeholder then [SourceLink(links.github)] else [])
  }

  // ---------------------------------------------------------------------
  // The detail dialog

  /** What opening and closing the dialog change: the selection and the page's scroll lock. */
  datatype Modal = Modal(selected: Option<Project>, overflow: string)

  datatype ModalEvent = Open(project: Project) | Close

  const Hidden: string := "hidden"
  const Auto: string := "auto"

  /** The dialog is open exactly while page scrolling is locked. */
  predicate Consistent(m: Modal)
  {
    m.selected.Some? <==> m.overflow == Hidden
  }

  /**
   * The half of `Consistent` that holds in every state of the view: page
   * scrolling is locked while the dialog is open. The other half can fail,
   * because the page's style outlives the view.
   */
  predicate LockedWhileOpen(m: Modal)
  {
    m.selected.Some? ==> m.overflow == Hidden
  }

  /** One click: open a card's dialog, or close the dialog. */
  function Step(m: Modal, e: ModalEvent): (r: Modal)
    ensures Consistent(r)
    ensures e.Open? ==> r.selected == Some(e.project) && r.overflow == Hidden
    ensures e.Close? ==> r.selected == None && r.overflow == Auto
  {
    match e
    case Open(p) => Modal(Some(p), Hidden)
    case Close => Modal(None, Auto)
  }

  /** The dialog after a run of clicks, oldest first. */
  function Run(m: Modal, events: seq<ModalEvent>): Modal
  {
    if events == [] then m else Step(Run(m, events[..|events| - 1]), events[|events| - 1])
  }

  /**
   * A run of clicks keeps each of `Consistent` and `LockedWhileOpen`; after at
   * least one click the dialog is open exactly while scrolling is locked,
   * whatever the state before, and the state is the one the last click leaves.
   */
  lemma ModalRun(m: Modal, events: seq<ModalEvent>)
    ensures Consistent(m) ==> Consistent(Run(m, events))
    ensures LockedWhileOpen(m) ==> LockedWhileOpen(Run(m, events))
    ensures events != [] ==> Consistent(Run(m, events))
    ensures events != [] ==> Run(m, events) == Step(m, events[|events| - 1])
  {
  }

  /**
   * A view mounted on a page still locked by an earlier view (one left while
   * its dialog was open) shows no dialog, yet the page cannot scroll. Opening
   * and closing a card unlocks it.
   */
  lemma StaleLockOnRemount(p: Project)
    ensures LockedWhileOpen(Modal(None, Hidden)) && !Consistent(Modal(None, Hidden))
    ensures Run(Modal(None, Hidden), [Open(p), Close]) == Modal(None, Auto)
  {
    var m := Modal(None, Hidden);
    assert [Open(p), Close][..1] == [Open(p)];
    assert [Open(p)][..0] == [];
    assert Run(m, [Open(p)]) == Modal(Some(p), Hidden);
  }

  class ProjectsView {
    var projects: seq<Project>
    var isLoading: bool
    var selectedProject: Option<Project>
    var filterCategory: string
    /** The filter buttons, empty until the data have arrived. */
    var categories: seq<string>
    /** The page's `overflow` style: empty while the page default applies. */
    var bodyOverflow: string

    ghost predicate Valid()
      reads this
    {
      && (categories == [] || categories == ProjectCategories(projects))
      && (categories == [] ==> filterCategory == All)
      && filterCategory in ProjectCategories(projects)
      && LockedWhileOpen(Modal(selectedProject, bodyOverflow))
    }

    /** The state on mount, on a page whose `overflow` style is `overflow`: the view leaves it as it finds it. */
    constructor (overflow: string)
      ensures Valid()
      ensures projects == [] && isLoading && selectedProject == None && filterCategory == All
      ensures categories == [] && bodyOverflow == overflow
    {
      projects := [];
      isLoading := true;
      selectedProject := None;
      filterCategory := All;
      categories := [];
      bodyOverflow := overflow;
    }

    /** The mount effect once its data have arrived: store them, build the buttons, stop loading. */
    method FinishLoading(data: seq<Project>)
      requires Valid() && categories == []
      modifies this
      ensures Valid()
      ensures projects == data && categories == ProjectCategories(data) && !isLoading
      ensures filterCategory == old(filterCategory) == All
      ensures selectedProject == old(selectedProject) && bodyOverflow == old(bodyOverflow)
    {
      projects := data;
      categories := ProjectCategories(data);
      isLoading := false;
    }

    /** The loading overlay gave up waiting. */
    method Timeout()
      requires Valid()
      modifies this
      ensures Valid() && !isLoading
      ensures projects == old(projects) && categories == old(categories) && filterCategory == old(filterCategory)
      ensures selectedProject == old(selectedProject) && bodyOverflow == old(bodyOverflow)
    {
      isLoading := false;
    }

    /** A filter button was clicked. */
    method SelectFilter(c: string)
      requires Valid() && c in categories
      modifies this
      ensures Valid() && filterCategory == c
      ensures projects == old(projects) && categories == old(categories) && isLoading == old(isLoading)
      ensures selectedProject == old(selectedProject) && bodyOverflow == old(bodyOverflow)
    {
      filterCategory := c;
    }

    /** A card was clicked: show its details and lock page scrolling. */
    method OpenProjectDetail(p: Project)
      requires Valid()
      modifies this
      ensures Valid() && Consistent(Modal(selectedProject, bodyOverflow))
      ensures Modal(selectedProject, bodyOverflow) == Step(old(Modal(selectedProject, bodyOverflow)), Open(p))
      ensures projects == old(projects) && categories == old(categories)
      ensures isLoading == old(isLoading) && filterCategory == old(filterCategory)
    {
      selectedProject := Some(p);
      bodyOverflow := Hidden;
    }

    /** The dialog's backdrop or close button was clicked: hide it and unlock scrolling. */
    method CloseProjectDetail()
      requires Valid()
      modifies this
      ensures Valid() && Consistent(Modal(selectedProject, bodyOverflow))
      ensures Modal(selectedProject, bodyOverflow) == Step(old(Modal(selectedProject, bodyOverflow)), Close)
      ensures projects == old(projects) && categories == old(categories)
      ensures isLoading == old(isLoading) && filterCategory == old(filterCategory)
    {
      selectedProject := None;
      bodyOverflow := Auto;
    }

    /** Whether the page shows the "nothing in this category" notice. */
    method EmptyState() returns (shown: bool)
      requires Valid()
      ensures shown <==> EmptyStateShown(FilteredProjects(projects, filterCategory), isLoading)
      ensures shown <==> projects == [] && !isLoading
    {
      var filtered := FilteredProjects(projects, filterCategory);
      shown := |filtered| == 0 && !isLoading;
      EmptyStateOnlyWithoutProjects(projects, filterCategory, isLoading);
    }
  }
}

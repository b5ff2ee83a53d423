/** The grid of entries on the main page (the ItemGrid component of
    script.js): clicking a category folder first shows the advertisement
    popup, and only the popup's continue button passes the folder on to the
    page's click handler. */
module ItemGrid {
  import opened Collections
  import opened Desktop
  import opened AdPopup

  /** The grid's own state: whether the popup is shown and the folder that
      was clicked to open it. */
  datatype Grid = Grid(showAd: bool, selectedCategory: Option<Entry>)

  /** A grid transition: the new state and the entry, if any, handed to the
      page's `onItemClick`. */
  datatype GridStep = GridStep(grid: Grid, forwarded: Option<Entry>)

  /** handleCategoryClick: a folder is stored and the popup shown, nothing is
      passed on yet; any other entry is passed on at once and the grid is
      left as it was. */
  function HandleCategoryClick(g: Grid, item: Entry): (r: GridStep)
    ensures r.forwarded.None? <==> IsFolder(item)
    ensures IsFolder(item) ==> r.grid.showAd && r.grid.selectedCategory == Some(item)
    ensures !IsFolder(item) ==> r.grid == g && r.forwarded == Some(item)
  {
    if item.kind == "folder" then GridStep(Grid(true, Some(item)), None)
    else GridStep(g, Some(item))
  }

  /** handleContinue: hide the popup and pass on the stored folder, which
      stays stored. */
  function HandleContinue(g: Grid): (r: GridStep)
    ensures !r.grid.showAd
    ensures r.grid.selectedCategory == g.selectedCategory
    ensures r.forwarded == g.selectedCategory
  {
    GridStep(g.(showAd := false), g.selectedCategory)
  }

  /** The popup's `onClose`: hide it and pass nothing on. */
  function CloseAd(g: Grid): (r: GridStep)
    ensures !r.grid.showAd && r.grid.selectedCategory == g.selectedCategory
    ensures r.forwarded == None
  {
    GridStep(g.(showAd := false), None)
  }

  /** What the page does with a forwarded entry: its click handler. */
  function Deliver(d: Nav, forwarded: Option<Entry>): (r: Nav)
    ensures forwarded.None? ==> r == d
    ensures forwarded.Some? ==> r == HandleItemClick(d, forwarded.value)
  {
    match forwarded
    case None => d
    case Some(e) => HandleItemClick(d, e)
  }

  /** The gate's invariant: only folders are ever stored, and while the
      popup is shown a folder is stored. */
  predicate GateValid(g: Grid) {
    (g.selectedCategory.Some? ==> IsFolder(g.selectedCategory.value))
    && (g.showAd ==> g.selectedCategory.Some?)
  }

  datatype GridEvent = CategoryClick(item: Entry) | Continue | Close

  function GridStepOf(g: Grid, e: GridEvent): GridStep {
    match e
    case CategoryClick(item) => HandleCategoryClick(g, item)
    case Continue => HandleContinue(g)
    case Close => CloseAd(g)
  }

  /** The page's navigation after the grid's events, each forwarded entry
      delivered as it is produced. */
  function RunGrid(g: Grid, d: Nav, events: seq<GridEvent>): (Grid, Nav)
    decreases |events|
  {
    if events == [] then (g, d)
    else
      var step := GridStepOf(g, events[0]);
      RunGrid(step.grid, Deliver(d, step.forwarded), events[1..])
  }

  /** Every transition keeps the gate's invariant, and whatever `continue`
      passes on while the popup is shown is the folder clicked. */
  lemma GateStepKeepsValid(g: Grid, e: GridEvent)
    requires GateValid(g)
    ensures GateValid(GridStepOf(g, e).grid)
    ensures e.Continue? && g.showAd ==>
              GridStepOf(g, e).forwarded.Some? && IsFolder(GridStepOf(g, e).forwarded.value)
  {
  }

  lemma {:induction false} GateKeepsValid(g: Grid, d: Nav, events: seq<GridEvent>)
    requires GateValid(g)
    ensures GateValid(RunGrid(g, d, events).0)
    decreases |events|
  {
    if events != [] {
      var step := GridStepOf(g, events[0]);
      GateStepKeepsValid(g, events[0]);
      GateKeepsValid(step.grid, Deliver(d, step.forwarded), events[1..]);
    }
  }

  /** Clicking a folder and then continuing through the popup enters that
      folder exactly as a direct click would: the page's path grows by the
      folder's id. */
  lemma FolderClickThroughAd(g: Grid, d: Nav, folder: Entry)
    requires IsFolder(folder)
    ensures RunGrid(g, d, [CategoryClick(folder)]).1 == d
    ensures RunGrid(g, d, [CategoryClick(folder), Continue]).1 == Navigate(d, folder.id)
    ensures RunGrid(g, d, [CategoryClick(folder), Continue]).0 == Grid(false, Some(folder))
  {
    var shown := HandleCategoryClick(g, folder).grid;
    assert [CategoryClick(folder), Continue][1..] == [Continue];
    assert RunGrid(g, d, [CategoryClick(folder), Continue]) == RunGrid(shown, d, [Continue]);
    assert [Continue][1..] == [];
  }

  /** A product is passed on at once, with no popup. */
  lemma ProductClickBypassesAd(g: Grid, d: Nav, item: Entry)
    requires !IsFolder(item)
    ensures RunGrid(g, d, [CategoryClick(item)]) == (g, HandleItemClick(d, item))
  {
  }

  /** With no active ads, opening the popup asks the grid to close it; the
      close passes nothing on, so the folder click leads nowhere. */
  lemma NoAdsMeansNoNavigation(g: Grid, d: Nav, folder: Entry, p: Popup, ads: Option<seq<Ad>>, picks: seq<nat>)
    requires IsFolder(folder)
    requires ActiveAds(ads) == [] && ValidPicks(picks, 0)
    ensures var shown := HandleCategoryClick(g, folder).grid;
            OnOpenChange(p, shown.showAd, AllMedia(ads, picks)).closeRequested
    ensures RunGrid(g, d, [CategoryClick(folder), Close]).1 == d
    ensures !RunGrid(g, d, [CategoryClick(folder), Close]).0.showAd
  {
    var shown := HandleCategoryClick(g, folder).grid;
    assert [CategoryClick(folder), Close][1..] == [Close];
    assert RunGrid(g, d, [CategoryClick(folder), Close]) == RunGrid(shown, d, [Close]);
    assert [Close][1..] == [];
  }
}

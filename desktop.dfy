/** The main page (the Desktop component of script.js): a path of folder ids
    into the folder tree, the item the user selected, and the search and
    location filter over the entries the path leads to. */
module Desktop {
  import opened Collections

  /** A node of the folder tree: a category folder (`kind == "folder"`) or a
      product. `items` is absent on products, as in the source's data. */
  datatype Entry = Entry(id: int, name: string, kind: string, location: string, items: Option<seq<Entry>>)

  predicate IsFolder(e: Entry) {
    e.kind == "folder"
  }

  /** The children of an entry; a missing list counts as empty (`found.items || []`). */
  function ItemsOf(e: Entry): seq<Entry> {
    e.items.GetOr([])
  }

  /** The position of the first entry of `level` with id `id`, or `|level|` if there is none. */
  function FirstIndex(level: seq<Entry>, id: int): (k: nat)
    ensures k <= |level|
    ensures forall j :: 0 <= j < k ==> level[j].id != id
    ensures k < |level| ==> level[k].id == id
    decreases |level|
  {
    if level == [] then 0
    else if level[0].id == id then 0
    else 1 + FirstIndex(level[1..], id)
  }

  /** `level.find(item => item.id === id)`: the first entry with that id. */
  function Find(level: seq<Entry>, id: int): (r: Option<Entry>)
    ensures r.None? <==> forall j :: 0 <= j < |level| ==> level[j].id != id
    ensures r.Some? ==> r.value.id == id && r.value == level[FirstIndex(level, id)]
  {
    var k := FirstIndex(level, id);
    if k < |level| then Some(level[k]) else None
  }

  /** The level reached by following `path` from `level`, or None when some
      id is not found at its level. */
  function Descend(level: seq<Entry>, path: seq<int>): Option<seq<Entry>>
    decreases |path|
  {
    if path == [] then Some(level)
    else match Find(level, path[0])
      case None => None
      case Some(f) => Descend(ItemsOf(f), path[1..])
  }

  /** The entries the page lists for `path`: the level the path leads to, or
      nothing when the path is broken. */
  function CurrentItems(root: seq<Entry>, path: seq<int>): seq<Entry> {
    Descend(root, path).GetOr([])
  }

  /** getCurrentItems: walks the path level by level. The loop leaves only
      through one of its returns, so the final `return currentItems` of the
      source is never reached for a non-empty path. */
  method GetCurrentItems(root: seq<Entry>, path: seq<int>) returns (r: seq<Entry>)
    ensures r == CurrentItems(root, path)
    ensures path == [] ==> r == root
  {
    if |path| == 0 {
      return root;
    }
    var currentLevel := root;
    var currentItems: seq<Entry> := [];
    var i := 0;
    while i < |path|
      invariant 0 <= i < |path|
      invariant Descend(currentLevel, path[i..]) == Descend(root, path)
    {
      var pathId := path[i];
      var found := Find(currentLevel, pathId);
      if found.None? {
        return [];
      }
      if i == |path| - 1 {
        return ItemsOf(found.value);
      }
      currentLevel := ItemsOf(found.value);
      i := i + 1;
    }
    assert false;
    r := currentItems;
  }

  /** Following one more id either extends a resolved path by the children
      of the first entry with that id, or breaks it. */
  lemma {:induction false} DescendAppend(level: seq<Entry>, path: seq<int>, id: int)
    ensures Descend(level, path + [id]) ==
              match Descend(level, path)
              case None => None
              case Some(l) =>
                match Find(l, id)
                case None => None
                case Some(f) => Some(ItemsOf(f))
    decreases |path|
  {
    if path == [] {
      assert [] + [id] == [id];
    } else {
      assert (path + [id])[1..] == path[1..] + [id];
      match Find(level, path[0])
      case None =>
      case Some(f) => DescendAppend(ItemsOf(f), path[1..], id);
    }
  }

  /** Once a path is broken, no extension of it leads anywhere: the page lists nothing. */
  lemma {:induction false} BrokenPathStaysBroken(root: seq<Entry>, path: seq<int>, rest: seq<int>)
    requires Descend(root, path).None?
    ensures Descend(root, path + rest).None?
    ensures CurrentItems(root, path + rest) == []
    decreases |rest|
  {
    if rest != [] {
      var init := rest[..|rest| - 1];
      BrokenPathStaysBroken(root, path, init);
      assert path + rest == (path + init) + [rest[|rest| - 1]];
      DescendAppend(root, path + init, rest[|rest| - 1]);
    } else {
      assert path + rest == path;
    }
  }

  /** The page's navigation state. */
  datatype Nav = Nav(currentPath: seq<int>, selectedItem: Option<Entry>)

  const Home := Nav([], None)

  /** navigate(folderId): push one id and clear the selection. */
  function Navigate(d: Nav, folderId: int): (r: Nav)
    ensures |r.currentPath| == |d.currentPath| + 1
    ensures r.currentPath[..|d.currentPath|] == d.currentPath
    ensures r.currentPath[|d.currentPath|] == folderId
    ensures r.selectedItem == None
  {
    Nav(d.currentPath + [folderId], None)
  }

  /** navigateHome: back to the root folders. */
  function NavigateHome(d: Nav): (r: Nav)
    ensures r.currentPath == [] && r.selectedItem == None
  {
    Home
  }

  /** navigateBack: at the root nothing happens (the selection is kept too);
      otherwise pop exactly the last id and clear the selection. */
  function NavigateBack(d: Nav): (r: Nav)
    ensures d.currentPath == [] ==> r == d
    ensures d.currentPath != [] ==>
              r.currentPath + [d.currentPath[|d.currentPath| - 1]] == d.currentPath && r.selectedItem == None
  {
    if |d.currentPath| == 0 then d
    else Nav(d.currentPath[..|d.currentPath| - 1], None)
  }

  /** handleItemClick: a folder is entered exactly as `navigate` would; any
      other entry becomes the selected item and the path stays. */
  function HandleItemClick(d: Nav, item: Entry): (r: Nav)
    ensures IsFolder(item) ==> r == Navigate(d, item.id)
    ensures !IsFolder(item) ==> r.currentPath == d.currentPath && r.selectedItem == Some(item)
  {
    if item.kind == "folder" then Nav(d.currentPath + [item.id], None)
    else d.(selectedItem := Some(item))
  }

  /** A sidebar category button: the path becomes just that folder. */
  function SelectCategory(d: Nav, folder: Entry): (r: Nav)
    ensures r.currentPath == [folder.id] && r.selectedItem == None
  {
    Nav([folder.id], None)
  }

  /** Going back undoes entering a folder. */
  lemma BackUndoesNavigate(d: Nav, folderId: int)
    ensures NavigateBack(Navigate(d, folderId)).currentPath == d.currentPath
  {
  }

  /** Entering a folder listed on the page shows that folder's children
      (for repeated ids, those of the first entry with the id). */
  lemma EnterFolderShowsItsItems(root: seq<Entry>, d: Nav, folder: Entry)
    requires Descend(root, d.currentPath).Some?
    requires Find(CurrentItems(root, d.currentPath), folder.id) == Some(folder)
    ensures CurrentItems(root, HandleItemClick(d, folder).currentPath) ==
              if IsFolder(folder) then ItemsOf(folder) else CurrentItems(root, d.currentPath)
  {
    DescendAppend(root, d.currentPath, folder.id);
  }

  /** A sidebar button lists the children of the first root folder with that id. */
  lemma SidebarShowsCategory(root: seq<Entry>, d: Nav, folder: Entry)
    requires Find(root, folder.id) == Some(folder)
    ensures CurrentItems(root, SelectCategory(d, folder).currentPath) == ItemsOf(folder)
  {
    DescendAppend(root, [], folder.id);
    assert [] + [folder.id] == [folder.id];
  }

  const DefaultLocation := "default"

  predicate MatchesSearch(e: Entry, query: string) {
    Contains(Lower(e.name), Lower(query))
  }

  predicate MatchesLocation(e: Entry, location: string) {
    location == DefaultLocation || e.location == location
  }

  /** filterItems: keep, in order, the entries whose lower-cased name contains
      the lower-cased query and whose location is the selected one, any
      location passing when the selection is "default". */
  function FilterItems(items: seq<Entry>, query: string, location: string): (r: seq<Entry>)
    ensures IsSubsequence(r, items)
    ensures forall e :: e in r <==> e in items && MatchesSearch(e, query) && MatchesLocation(e, location)
    ensures forall e :: multiset(r)[e] == if MatchesSearch(e, query) && MatchesLocation(e, location)
                                          then multiset(items)[e] else 0
  {
    Filter(items, e => MatchesSearch(e, query) && MatchesLocation(e, location))
  }

  /** With no query and the default location the page lists everything. */
  lemma EmptyQueryKeepsAll(items: seq<Entry>)
    ensures FilterItems(items, "", DefaultLocation) == items
  {
    forall i | 0 <= i < |items|
      ensures MatchesSearch(items[i], "") && MatchesLocation(items[i], DefaultLocation)
    {
      assert Lower("") == "";
      assert "" <= Lower(items[i].name)[0..];
    }
    FilterKeepsAll(items, e => MatchesSearch(e, "") && MatchesLocation(e, DefaultLocation));
  }
}

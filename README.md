# A verified model of the laptop catalogue browser's logic

The catalogue browser is a single-page React application (`script.js`). It
shows a tree of category folders of laptops, offers a search box and a
location filter, shows an advertisement carousel before a category opens, and
has a zoomable, draggable picture viewer. This project models the parts of
that file that compute something, and proves what they promise:

- `ImageViewer`: the picture viewer's zoom/pan state (`scale`, `position`,
  `isDragging`, `dragStart`). There are pure transition functions on a
  `Viewer` value, one per handler. The class `ImageModal` updates those
  fields in place, and each of its methods is proved to perform exactly the
  matching transition. Lemmas cover the zoom bounds over any event sequence,
  wheel ticks, dragging and double-click.
- `Desktop`: the main page.
  - `getCurrentItems` is a loop method proved equal to a recursive
    `Descend` over the folder tree.
  - The path operations (`navigate`, `navigateHome`, `navigateBack`,
    `handleItemClick`, the sidebar buttons) work as a stack.
  - `filterItems` keeps an entry when its lower-cased name contains the
    lower-cased query and its location matches.
- `Catalogue`: the start-up pass that de-duplicates the laptops and sorts
  them into the gaming, business and student folders. It is a loop method
  proved equal to a fold. Lemmas prove the fold's invariants: the first
  laptop seen with a key wins, and every stored laptop is in exactly one
  folder. `filterByLocation` is here too.
- `AdPopup`: the advertisement carousel.
  - The Fisher–Yates `shuffleArray` works on a copied array.
  - Ads are mapped to media entries.
  - The open/close effect resets the carousel, and `goToNextMedia` steps it.
- `ItemGrid`: the ad gate. Clicking a folder stores it and shows the popup,
  and only "continue" passes the folder on to the page.
- `Collections`: an `Option` type, an order-preserving `Filter`, ASCII
  lower-casing and substring search.

Modelling choices:

- Scales and pointer coordinates are exact `real`s.
- The shuffle's random draws are given as an input sequence `picks` with
  `picks[i] <= i`.
- The two GPU regular expressions are the function parameters `dedicated`
  and `integrated`, applied to the lower-cased graphics string.
- Prices are already-parsed reals.
- Ids are integers.

Behaviour of the code worth knowing, which the model follows:

- Neither zooming out nor opening the viewer clears `isDragging`
  (script.js:28-29, 87-90). A drag begun above scale 1 is still on at
  scale 1; `ImageViewer.DraggingSurvivesZoomOut` exhibits such a state.
- Zoom-out is `max(1, s - 0.3)` with no upper clamp, so a wheel-reached
  scale of 4 becomes 3.7.
- Opening resets only `scale` and `position` (script.js:28-29), so
  `isDragging` and `dragStart` carry over from one opening to the next.
- While the viewer is closed it renders nothing (script.js:98) and has no
  wheel listener, so in `ImageViewer.Step` only a change of the open flag
  affects a closed viewer.

## Model

| member | source | states |
|---|---|---|
| `ImageViewer.WheelDelta` | script.js:19 | a tick scrolling down (deltaY > 0) changes the scale by -0.1; every other tick, including deltaY = 0, changes it by +0.1 |
| `ImageViewer.WheelScale` | script.js:16-20 | the scale after a wheel tick is clamp(s + delta, 1, 4): always in [1, 4], exactly s + delta when that lies in [1, 4], exactly 4 when s + delta >= 4 and exactly 1 when s + delta <= 1; from inside [1, 4] it moves by at most one step in the tick's direction |
| `ImageViewer.ZoomInScale` | script.js:82-85 | zoom-in is min(3, s + 0.2): exactly s + 0.2 when that is at most 3 and exactly 3 otherwise; it keeps a scale of at least 1 at least 1 and lowers a scale above 3 |
| `ImageViewer.ZoomOutScale` | script.js:87-90 | zoom-out is max(1, s - 0.3): exactly s - 0.3 when that is at least 1 and exactly 1 otherwise; it never raises a scale of at least 1 |
| `ImageViewer.OnWheel` | script.js:16-22 | a wheel event changes only the scale, and only while the viewer is open, giving the clamped wheel scale |
| `ImageViewer.OnMouseDown` | script.js:39-44 | at scale <= 1 nothing changes; above 1 a drag starts, with an anchor such that pointer minus anchor equals the current offset; scale and offset are kept |
| `ImageViewer.OnMouseMove` | script.js:46-53 | only the offset can change, and only while dragging above scale 1; the new offset plus the anchor is the pointer |
| `ImageViewer.OnMouseUp` | script.js:55-57 | mouse-up clears `isDragging` and changes nothing else |
| `ImageViewer.OnTouchStart` | script.js:59-65 | with exactly one touch it acts as mouse-down at that touch; with any other number of touches nothing changes |
| `ImageViewer.OnTouchMove` | script.js:67-76 | with exactly one touch it acts as mouse-move at that touch; with any other number of touches nothing changes |
| `ImageViewer.OnTouchEnd` | script.js:78-80 | touch-end acts exactly as mouse-up |
| `ImageViewer.ZoomIn` | script.js:82-85 | the zoom-in button changes only the scale, to `ZoomInScale` of the old one; from a scale of at least 1 the result lies in [1, 3] |
| `ImageViewer.ZoomOut` | script.js:87-90 | the zoom-out button changes only the scale, to `ZoomOutScale` of the old one; the result is at least 1 and never above a starting scale of at least 1 |
| `ImageViewer.ResetZoom` | script.js:92-96 | reset sets scale 1 and offset (0, 0) and keeps the open and drag state |
| `ImageViewer.OnOpenChange` | script.js:24-30 | opening is a reset plus `isOpen`, so `isDragging` survives it; closing changes only `isOpen` |
| `ImageViewer.OnDoubleClick` | script.js:142 | at exactly 1.5 a double-click zooms to 1.7; at any other scale it resets; open and drag state are kept |
| `ImageViewer.Step` | script.js:98 | a closed viewer reacts to nothing but a change of the open flag; only that event changes `isOpen` |
| `ImageViewer.ClosedViewerIgnoresInput` | script.js:98 | any run of events without an open change leaves a closed viewer exactly as it was |
| `ImageViewer.ScaleStaysInWheelRange` | script.js:16-96 | starting in [1, 4], the scale stays in [1, 4] after any sequence of events |
| `ImageViewer.ScaleStaysInButtonRange` | script.js:82-96 | starting in [1, 3], the scale stays in [1, 3] after any sequence of events without wheel ticks |
| `ImageViewer.WheelUpTicks` | script.js:19-20 | n upward ticks on an open viewer give min(4, s + n * 0.1) |
| `ImageViewer.WheelScenario` | script.js:5-29 | after mounting and opening the scale is 1; one tick up gives 1.1; 41 ticks give 4 |
| `ImageViewer.DragTracksAnchor` | script.js:46-53 | on an open viewer, during a drag above scale 1, any run of moves leaves the offset at the last pointer minus the anchor and changes nothing else |
| `ImageViewer.DragMovesByPointerDelta` | script.js:39-53 | a down at p and moves ending at q shift the offset by exactly q - p |
| `ImageViewer.DragScenario` | script.js:39-53 | at scale 2 with no pan, a drag from (100, 100) to (130, 160) gives offset (30, 60) |
| `ImageViewer.DoubleClickScenario` | script.js:142 | a double-click gives 1.7 from 1.5, and a reset from 1 or 2 |
| `ImageViewer.DraggingSurvivesZoomOut` | script.js:39-90 | a drag started at 1.2 is still on after zooming out to 1, and still on after the viewer is opened again |
| `ImageViewer.ImageModal.constructor` | script.js:5-8 | the component mounts closed, at scale 1.5, with no offset, no drag and anchor (0, 0) |
| `ImageViewer.ImageModal.SetOpen` | script.js:24-30 | the field update is exactly `OnOpenChange` |
| `ImageViewer.ImageModal.HandleWheel` | script.js:16-22 | the field update is exactly `OnWheel` |
| `ImageViewer.ImageModal.HandleMouseDown` | script.js:39-44 | the field update is exactly `OnMouseDown` |
| `ImageViewer.ImageModal.HandleMouseMove` | script.js:46-53 | the field update is exactly `OnMouseMove` |
| `ImageViewer.ImageModal.HandleMouseUp` | script.js:55-57 | the field update is exactly `OnMouseUp` |
| `ImageViewer.ImageModal.HandleTouchStart` | script.js:59-65 | the field update is exactly `OnTouchStart` |
| `ImageViewer.ImageModal.HandleTouchMove` | script.js:67-76 | the field update is exactly `OnTouchMove` |
| `ImageViewer.ImageModal.HandleTouchEnd` | script.js:78-80 | the field update is exactly `OnTouchEnd` |
| `ImageViewer.ImageModal.ZoomInButton` | script.js:82-85 | the field update is exactly `ZoomIn` |
| `ImageViewer.ImageModal.ZoomOutButton` | script.js:87-90 | the field update is exactly `ZoomOut` |
| `ImageViewer.ImageModal.ResetButton` | script.js:92-96 | the field update is exactly `ResetZoom` |
| `ImageViewer.ImageModal.HandleDoubleClick` | script.js:142 | the field update is exactly `OnDoubleClick` |
| `Collections.Filter` | script.js:431 | `.filter` returns a subsequence whose elements all pass; it keeps each passing element exactly as often as it occurs, and an element is in the result iff it is in the input and passes |
| `Collections.LowerChar` | script.js:432 | an upper-case ASCII letter becomes the matching lower-case letter, every other character is kept, and no result is upper-case |
| `Collections.Lower` | script.js:432 | lower-casing keeps the length and lower-cases each character on its own |
| `Collections.LowerConcat` | script.js:720 | lower-casing distributes over concatenation, so the key of a joined string is the join of the lower-cased parts |
| `Collections.LowerIdempotent` | script.js:432 | lower-casing an already lower-cased string changes nothing |
| `Collections.Contains` | script.js:432 | `includes` holds iff the needle is a prefix of some suffix of the text |
| `Desktop.FirstIndex` | script.js:359 | the position of the first entry with the id, or the length when there is none |
| `Desktop.Find` | script.js:359 | `find` gives None iff no entry has the id; otherwise it gives the first entry with that id |
| `Desktop.GetCurrentItems` | script.js:347-380 | the loop returns `CurrentItems(root, path)` (the root folders for an empty path); the final `return currentItems` is unreachable |
| `Desktop.DescendAppend` | script.js:357-373 | following one more id either gives the children of the first entry with that id at the reached level, or breaks the path |
| `Desktop.BrokenPathStaysBroken` | script.js:361-364 | once an id is not found, every extension of the path is broken and lists nothing |
| `Desktop.Navigate` | script.js:382-387 | `navigate` appends exactly the folder id, keeps the prefix and clears the selection |
| `Desktop.NavigateHome` | script.js:389-394 | `navigateHome` gives the empty path and no selection |
| `Desktop.NavigateBack` | script.js:396-411 | at the root nothing changes, not even the selection; otherwise exactly the last id is removed and the selection cleared |
| `Desktop.HandleItemClick` | script.js:413-428 | a folder click is exactly `navigate(item.id)`; any other click keeps the path and selects the item |
| `Desktop.SelectCategory` | script.js:527-528 | a sidebar button sets the path to just that folder's id and clears the selection |
| `Desktop.BackUndoesNavigate` | script.js:382-411 | going back after `navigate` restores the previous path |
| `Desktop.EnterFolderShowsItsItems` | script.js:347-428 | clicking a listed folder makes the page list that folder's children; clicking a product keeps the listing |
| `Desktop.SidebarShowsCategory` | script.js:527-528 | a sidebar button makes the page list the children of the first root folder with that id |
| `Desktop.FilterItems` | script.js:430-436 | the result is an order-preserving subsequence; an entry is kept iff its lower-cased name contains the lower-cased query and its location is the selected one or the selection is "default"; kept entries keep their multiplicity |
| `Desktop.EmptyQueryKeepsAll` | script.js:430-436 | an empty query with location "default" keeps every entry, in order |
| `Catalogue.Key` | script.js:720 | the key is the lower-cased name, a '-', the lower-cased processor, a '-' and the lower-cased ram, two characters longer than the three fields together |
| `Catalogue.Visit` | script.js:714-749 | a nameless laptop or one whose key is already stored changes nothing; otherwise it is stored under its key and appended to exactly the list of its category, the other two lists kept |
| `Catalogue.CategoryOf` | script.js:726-748 | a dedicated-GPU match is gaming; otherwise a price in (0, 300] is student and anything else is business, whatever the integrated-graphics test says |
| `Catalogue.Categorize` | script.js:713-750 | the pass builds exactly the map and the three lists of the fold `Categorized` over the laptops |
| `Catalogue.VisitKeepsPartitioned` | script.js:722-749 | one laptop's visit keeps the invariant: every stored laptop is under its own key, each list holds exactly the stored laptops of its category, and the list lengths add up to the number stored |
| `Catalogue.CategorizedPartitions` | script.js:713-750 | after the pass the three lists split the stored laptops by category with none listed twice, so the lists are disjoint |
| `Catalogue.CategorizedKeys` | script.js:714-723 | a key is stored iff some named laptop has it |
| `Catalogue.CategorizedKeepsFirst` | script.js:720-723 | each key holds the first named laptop that has it |
| `Catalogue.DroppedLaptops` | script.js:713-750 | nameless laptops, and later laptops whose key an earlier different laptop already took, are in no list |
| `Catalogue.FilterByLocation` | script.js:701-704 | "default" returns the list unchanged; any other location gives the order-preserving subsequence of exactly the laptops with that location, each as often as in the input |
| `AdPopup.ActiveAds` | script.js:824 | a missing ad list gives no ads; otherwise the result is the order-preserving subsequence of the active ads, each as often as in the ad list |
| `AdPopup.Swap` | script.js:816 | the destructuring swap exchanges cells i and j and keeps every other cell |
| `AdPopup.SwapPermutes` | script.js:816 | a swap only reorders |
| `AdPopup.ShuffleFrom` | script.js:814-817 | the remaining rounds of the shuffle keep the length |
| `AdPopup.ShufflePermutes` | script.js:812-819 | the shuffle's result is a permutation of its input, whatever the draws |
| `AdPopup.ShuffleArray` | script.js:812-819 | the loop on the copied array returns `Shuffled(items, picks)`, a permutation of the input of the same length; the input is a value and stays as it was |
| `AdPopup.ShuffleWithoutMovesKeepsOrder` | script.js:812-819 | draws that always pick the current position leave the order unchanged |
| `AdPopup.ToMedia` | script.js:830-836 | the source is the path with one leading '/' removed; kind, title and description are copied; the duration is 15000 iff the ad is a video, and 5000 otherwise |
| `AdPopup.MapSeq` | script.js:830-836 | `.map` keeps the length and maps each position on its own |
| `AdPopup.MapCommutesWithShuffle` | script.js:826-836 | mapping after shuffling gives the same list as shuffling the mapped list with the same draws |
| `AdPopup.AllMedia` | script.js:821-836 | the carousel list is the active ads' media entries shuffled with the given draws, hence a permutation of them |
| `AdPopup.OnOpenChange` | script.js:821-851 | on open with media, the list is shown from index 0; on open with none, a close is requested and the state kept; on close, the carousel is emptied |
| `AdPopup.GoToNextMedia` | script.js:853-858 | the list is kept; with at most one entry nothing changes; otherwise the index moves one forward, from the last entry back to 0, and stays in range |
| `AdPopup.CarouselKeepsIndexInRange` | script.js:821-858 | the open/close effect and any number of steps keep the index within the list (0 for an empty list) |
| `AdPopup.AdvanceWraps` | script.js:853-858 | within one round, k steps move the index forward by k, wrapping once past the end |
| `AdPopup.FullRoundReturns` | script.js:853-858 | n steps on a list of n > 1 entries return to the starting entry |
| `ItemGrid.HandleCategoryClick` | script.js:983-991 | a folder is stored and the popup shown, and nothing is passed on; any other entry is passed on at once and the grid is kept |
| `ItemGrid.HandleContinue` | script.js:993-996 | continue hides the popup and passes on the stored folder, which stays stored |
| `ItemGrid.CloseAd` | script.js:1002 | the popup's close hides it and passes nothing on |
| `ItemGrid.Deliver` | script.js:995 | a passed-on entry goes to the page's `handleItemClick`; with nothing passed on the page is unchanged |
| `ItemGrid.GateStepKeepsValid` | script.js:983-1002 | every grid transition stores only folders, and keeps one stored while the popup shows; continue while the popup shows passes on a folder |
| `ItemGrid.GateKeepsValid` | script.js:983-1002 | the gate's invariant holds after any sequence of grid events |
| `ItemGrid.FolderClickThroughAd` | script.js:983-996 | a folder click alone leaves the page as it was; followed by continue it enters the folder exactly as `navigate(folder.id)` would |
| `ItemGrid.ProductClickBypassesAd` | script.js:983-991 | a product click shows no popup and reaches the page's click handler directly |
| `ItemGrid.NoAdsMeansNoNavigation` | script.js:838-845 | with no active ads, the popup opened by a folder click requests a close, and the close leaves the page unchanged |

## Left out

- Rendering: the React element trees, CSS classes, cursor and transition styles and the breadcrumb markup are presentation only.
- Audio: every `AudioManager.play` call (`AudioManager`, script.js:266-327) is a fire-and-forget side effect with no bearing on state.
- DOM side effects: listener registration and removal, the `document.body.style.overflow` toggling (script.js:24-36), `window.scrollTo` and `window.open` have no modelled state. Only the wheel listener's "only while open" guard is kept.
- The Escape key handler (script.js:12-14) only calls the host's `onClose`, which belongs to the host component.
- Timers: the carousel's `setTimeout` auto-advance (script.js:861-870) is left out, as are the video `onEnded` and media `onError` callbacks. Each of these only calls `goToNextMedia`, which is modelled.
- The `DOMContentLoaded` bootstrap (script.js:1386-1418) is start-up wiring.
- The effect re-running when a new `onClose` callback is passed is not modelled. Its effect is the same as a repeated `OnOpenChange` with the same flag.
- Randomness: the random `location` assignment (script.js:717) is left out, and each laptop's location is an input field. The shuffle's `Math.random` draws are the input `picks`.
- The clock-based "new arrivals" folder (script.js:788-799) depends on the current date.
- Floating point: the 0.1, 0.2 and 0.3 steps are exact reals. With JavaScript doubles, accumulated steps rarely land on exactly 1.5, so the double-click test at script.js:142 is more often false in practice than in the model.
- `parseFloat` price parsing (script.js:727) is abstracted to an already-parsed price, with a missing or unparsable price as 0.
- The GPU regular expressions (script.js:730, 734) are the parameters `dedicated` and `integrated`. The `ItemCard` name patterns and image choice (script.js:1068-1090) are cosmetic.
- `Collections.Lower`: only ASCII letters are lower-cased; Unicode case mapping is not modelled.
- External data: `laptopsData`, `desktopItems` and `window.reklamalar` come from files that are not part of this model. Missing `processor`/`ram` fields are modelled as empty strings, which is what `|| ''` gives.
- Console logging and the `try`/`catch` around `getCurrentItems` (script.js:348, 376-379) are left out. An entry's `items` is either absent or a list, so a non-array `items`, which would make `.find` throw and the `catch` return `[]`, cannot be expressed.
- Desktop.FilterItems: every entry has a `name` string. In the source, `item.name.toLowerCase()` in `filterItems` (script.js:432) is outside any `try`, so a nameless entry reaching a listing throws; the model cannot express that entry.
- `ItemGrid.HandleContinue` passes on whatever is stored. The source's crash when nothing is stored is not modelled; `ItemGrid.GateKeepsValid` shows the popup cannot be shown without a stored folder.

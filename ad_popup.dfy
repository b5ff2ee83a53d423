/** The advertisement carousel shown before a category opens (the AdPopup
    component of script.js): the active ads are shuffled, turned into media
    entries and stepped through one at a time. */
module AdPopup {
  import opened Collections

  /** An advertisement as the ad list provides it (`turi`, `manzil`,
      `sarlavha`, `tavsif`, `aktiv`). */
  datatype Ad = Ad(kind: string, path: string, title: string, description: string, active: bool)

  /** One entry of the carousel; `duration` is in milliseconds. */
  datatype Media = Media(kind: string, src: string, title: string, description: string, duration: nat)

  const VideoDuration: nat := 15000
  const ImageDuration: nat := 5000

  /** The active ads; an absent ad list counts as empty. */
  function ActiveAds(ads: Option<seq<Ad>>): (r: seq<Ad>)
    ensures ads.None? ==> r == []
    ensures ads.Some? ==> IsSubsequence(r, ads.value) && forall a :: a in r <==> a in ads.value && a.active
    ensures ads.Some? ==> forall a :: multiset(r)[a] == if a.active then multiset(ads.value)[a] else 0
  {
    match ads
    case None => []
    case Some(list) => Filter(list, (a: Ad) => a.active)
  }

  /** `s` with the elements at `i` and `j` exchanged. */
  function Swap<T>(s: seq<T>, i: nat, j: nat): (r: seq<T>)
    requires i < |s| && j < |s|
    ensures |r| == |s| && r[i] == s[j] && r[j] == s[i]
    ensures forall k :: 0 <= k < |s| && k != i && k != j ==> r[k] == s[k]
  {
    s[i := s[j]][j := s[i]]
  }

  /** A swap only reorders. */
  lemma SwapPermutes<T>(s: seq<T>, i: nat, j: nat)
    requires i < |s| && j < |s|
    ensures multiset(Swap(s, i, j)) == multiset(s)
  {
  }

  /** `picks[i]` stands for the random index `Math.floor(Math.random() * (i + 1))`
      drawn when the shuffle reaches position `i`: a number in [0, i]. */
  predicate ValidPicks(picks: seq<nat>, n: nat) {
    |picks| == n && forall i :: 0 <= i < n ==> picks[i] <= i
  }

  /** The result of the shuffle's remaining rounds `i`, `i - 1`, ..., 1 on `s`. */
  function ShuffleFrom<T>(s: seq<T>, picks: seq<nat>, i: int): (r: seq<T>)
    requires ValidPicks(picks, |s|) && i < |s|
    ensures |r| == |s|
    decreases i
  {
    if i <= 0 then s else ShuffleFrom(Swap(s, i, picks[i]), picks, i - 1)
  }

  /** The shuffle's rounds only reorder: the result is a permutation of `s`. */
  lemma {:induction false} ShufflePermutes<T>(s: seq<T>, picks: seq<nat>, i: int)
    requires ValidPicks(picks, |s|) && i < |s|
    ensures multiset(ShuffleFrom(s, picks, i)) == multiset(s)
    decreases i
  {
    if i > 0 {
      SwapPermutes(s, i, picks[i]);
      ShufflePermutes(Swap(s, i, picks[i]), picks, i - 1);
    }
  }

  /** The Fisher-Yates shuffle of `s` with the given random draws. */
  function Shuffled<T>(s: seq<T>, picks: seq<nat>): seq<T>
    requires ValidPicks(picks, |s|)
  {
    ShuffleFrom(s, picks, |s| - 1)
  }

  /** shuffleArray: swaps cells of a copy, from the last position down to 1,
      so the result is a permutation of the input and the input itself is
      left as it was. */
  method ShuffleArray<T>(items: seq<T>, picks: seq<nat>) returns (r: seq<T>)
    requires ValidPicks(picks, |items|)
    ensures r == Shuffled(items, picks)
    ensures |r| == |items| && multiset(r) == multiset(items)
  {
    var newArray := new T[|items|](k requires 0 <= k < |items| => items[k]);
    assert newArray[..] == items;
    var i := newArray.Length - 1;
    while i > 0
      invariant -1 <= i < |items| && newArray.Length == |items|
      invariant ShuffleFrom(newArray[..], picks, i) == Shuffled(items, picks)
    {
      var j := picks[i];
      ghost var before := newArray[..];
      newArray[i], newArray[j] := newArray[j], newArray[i];
      assert newArray[..] == Swap(before, i, j);
      i := i - 1;
    }
    r := newArray[..];
    ShufflePermutes(items, picks, |items| - 1);
  }

  /** Draws that always pick the current position leave the order unchanged. */
  lemma {:induction false} ShuffleWithoutMovesKeepsOrder<T>(s: seq<T>, picks: seq<nat>, i: int)
    requires ValidPicks(picks, |s|) && i < |s|
    requires forall k :: 0 <= k < |s| ==> picks[k] == k
    ensures ShuffleFrom(s, picks, i) == s
    decreases i
  {
    if i > 0 {
      assert Swap(s, i, picks[i]) == s;
      ShuffleWithoutMovesKeepsOrder(s, picks, i - 1);
    }
  }

  predicate StartsWithSlash(s: string) {
    |s| > 0 && s[0] == '/'
  }

  /** One ad as a carousel entry: one leading '/' is stripped from its path,
      and videos run 15 seconds, everything else 5 seconds. */
  function ToMedia(ad: Ad): (m: Media)
    ensures ad.path == (if StartsWithSlash(ad.path) then "/" else "") + m.src
    ensures m.kind == ad.kind && m.title == ad.title && m.description == ad.description
    ensures m.duration == VideoDuration <==> ad.kind == "video"
    ensures m.duration == VideoDuration || m.duration == ImageDuration
  {
    Media(ad.kind, if StartsWithSlash(ad.path) then ad.path[1..] else ad.path,
          ad.title, ad.description, if ad.kind == "video" then 15000 else 5000)
  }

  /** `s.map(f)`. */
  function MapSeq<A, B>(s: seq<A>, f: A -> B): (r: seq<B>)
    ensures |r| == |s| && forall k :: 0 <= k < |s| ==> r[k] == f(s[k])
  {
    seq(|s|, k requires 0 <= k < |s| => f(s[k]))
  }

  lemma MapSwap<A, B>(s: seq<A>, f: A -> B, i: nat, j: nat)
    requires i < |s| && j < |s|
    ensures MapSeq(Swap(s, i, j), f) == Swap(MapSeq(s, f), i, j)
  {
    var l, r := MapSeq(Swap(s, i, j), f), Swap(MapSeq(s, f), i, j);
    forall k | 0 <= k < |l| ensures l[k] == r[k] {
      if k != i && k != j {
        assert Swap(s, i, j)[k] == s[k];
      }
    }
  }

  /** Mapping the shuffled list gives the same list as shuffling the mapped
      list with the same draws. */
  lemma {:induction false} MapCommutesWithShuffle<A, B>(s: seq<A>, f: A -> B, picks: seq<nat>, i: int)
    requires ValidPicks(picks, |s|) && i < |s|
    ensures MapSeq(ShuffleFrom(s, picks, i), f) == ShuffleFrom(MapSeq(s, f), picks, i)
    decreases i
  {
    if i > 0 {
      var swapped := Swap(s, i, picks[i]);
      MapSwap(s, f, i, picks[i]);
      MapCommutesWithShuffle(swapped, f, picks, i - 1);
    }
  }

  /** Shuffling and then mapping gives a permutation of the mapped list, the
      one the same draws make of it. */
  lemma ShuffleThenMap<A, B>(s: seq<A>, f: A -> B, picks: seq<nat>)
    requires ValidPicks(picks, |s|)
    ensures MapSeq(Shuffled(s, picks), f) == Shuffled(MapSeq(s, f), picks)
    ensures multiset(MapSeq(Shuffled(s, picks), f)) == multiset(MapSeq(s, f))
  {
    MapCommutesWithShuffle(s, f, picks, |s| - 1);
    ShufflePermutes(MapSeq(s, f), picks, |s| - 1);
  }

  /** The carousel list built when the popup opens: the active ads,
      shuffled, as media entries. It holds one entry per active ad. */
  function AllMedia(ads: Option<seq<Ad>>, picks: seq<nat>): (r: seq<Media>)
    requires ValidPicks(picks, |ActiveAds(ads)|)
    ensures r == Shuffled(MapSeq(ActiveAds(ads), ToMedia), picks)
    ensures multiset(r) == multiset(MapSeq(ActiveAds(ads), ToMedia))
  {
    var active := ActiveAds(ads);
    ShuffleThenMap(active, ToMedia, picks);
    MapSeq(Shuffled(active, picks), ToMedia)
  }

  /** The carousel state: the media list and the index shown. */
  datatype Popup = Popup(mediaFiles: seq<Media>, currentIndex: nat)

  const Empty := Popup([], 0)

  /** The result of the popup's open/close effect: the new state and whether
      it asked its host to close (no ads to show). */
  datatype OpenResult = OpenResult(popup: Popup, closeRequested: bool)

  /** The effect that runs when `isOpen` changes: on open, show the given
      media from the first, or ask to close when there are none; on close,
      forget everything. */
  function OnOpenChange(p: Popup, isOpen: bool, allMedia: seq<Media>): (r: OpenResult)
    ensures r.closeRequested <==> isOpen && allMedia == []
    ensures isOpen && allMedia != [] ==> r.popup == Popup(allMedia, 0)
    ensures isOpen && allMedia == [] ==> r.popup == p
    ensures !isOpen ==> r.popup == Empty
  {
    if isOpen then
      if |allMedia| > 0 then OpenResult(Popup(allMedia, 0), false) else OpenResult(p, true)
    else OpenResult(Popup([], 0), false)
  }

  /** goToNextMedia: with at most one entry nothing happens; otherwise step
      to the next entry, wrapping from the last to the first. */
  function GoToNextMedia(p: Popup): (r: Popup)
    ensures r.mediaFiles == p.mediaFiles
    ensures |p.mediaFiles| <= 1 ==> r == p
    ensures |p.mediaFiles| > 1 ==> r.currentIndex < |p.mediaFiles|
    ensures |p.mediaFiles| > 1 && p.currentIndex + 1 < |p.mediaFiles| ==> r.currentIndex == p.currentIndex + 1
    ensures |p.mediaFiles| > 1 && p.currentIndex + 1 == |p.mediaFiles| ==> r.currentIndex == 0
  {
    if |p.mediaFiles| <= 1 then p
    else Popup(p.mediaFiles, (p.currentIndex + 1) % |p.mediaFiles|)
  }

  /** The shown index points into the list, or is 0 for an empty list. */
  predicate IndexInRange(p: Popup) {
    if p.mediaFiles == [] then p.currentIndex == 0 else p.currentIndex < |p.mediaFiles|
  }

  /** `k` steps of the carousel. */
  function Advance(p: Popup, k: nat): Popup
    decreases k
  {
    if k == 0 then p else Advance(GoToNextMedia(p), k - 1)
  }

  /** Both transitions keep the shown index in range. */
  lemma {:induction false} CarouselKeepsIndexInRange(p: Popup, isOpen: bool, allMedia: seq<Media>, k: nat)
    requires IndexInRange(p)
    ensures IndexInRange(OnOpenChange(p, isOpen, allMedia).popup)
    ensures IndexInRange(Advance(p, k))
    decreases k
  {
    if k > 0 {
      CarouselKeepsIndexInRange(GoToNextMedia(p), isOpen, allMedia, k - 1);
    }
  }

  /** Within one pass over a list of more than one entry, `k` steps move the
      index forward by `k`, wrapping once past the end; so `n` steps come
      back to the start. */
  lemma {:induction false} AdvanceWraps(p: Popup, k: nat)
    requires |p.mediaFiles| > 1 && p.currentIndex < |p.mediaFiles| && k <= |p.mediaFiles|
    ensures Advance(p, k).mediaFiles == p.mediaFiles
    ensures Advance(p, k).currentIndex ==
              if p.currentIndex + k < |p.mediaFiles| then p.currentIndex + k
              else p.currentIndex + k - |p.mediaFiles|
    decreases k
  {
    if k > 0 {
      AdvanceWraps(GoToNextMedia(p), k - 1);
    }
  }

  /** A full round of `n` steps returns to the entry it started from. */
  lemma FullRoundReturns(p: Popup)
    requires |p.mediaFiles| > 1 && p.currentIndex < |p.mediaFiles|
    ensures Advance(p, |p.mediaFiles|) == p
  {
    AdvanceWraps(p, |p.mediaFiles|);
  }
}

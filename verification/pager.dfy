/**
 * The how-to-play pager: a list of page objects with one index. Showing a
 * page clamps the index into the list and activates only that page; Next and
 * Prev step one page, deactivating the old page and activating the new one,
 * and do nothing at either end or with no pages. The list is collected from
 * the parent's children, in child order, when it starts out empty and
 * auto-collect is on.
 */
module Pager {
  import opened Types

  /** A page panel; only its active flag matters here. */
  class Page {
    var active: bool

    constructor (active: bool)
      ensures this.active == active
    {
      this.active := active;
    }
  }

  /** No page object occurs twice in the list. */
  predicate DistinctPages(pages: seq<Page?>)
  {
    forall i, j :: 0 <= i < j < |pages| && pages[i] != null ==> pages[i] != pages[j]
  }

  /** The index Next leaves behind on a list of n pages: one further unless at the last page. */
  function NextIndex(index: int, n: nat): (r: int)
    ensures 0 <= index < n ==> 0 <= r < n
    ensures r == index || r == index + 1
    ensures r == index + 1 <==> 0 < n && index < n - 1
  {
    if n == 0 || index >= n - 1 then index else index + 1
  }

  /** The index Prev leaves behind on a list of n pages: one back unless at the first page. */
  function PrevIndex(index: int, n: nat): (r: int)
    ensures 0 <= index < n ==> 0 <= r < n
    ensures r == index || r == index - 1
    ensures r == index - 1 <==> 0 < n && index > 0
  {
    if n == 0 || index <= 0 then index else index - 1
  }

  /** Prev undoes a Next that moved, and Next undoes a Prev that moved. */
  lemma StepsUndo(index: int, n: nat)
    requires 0 <= index < n
    ensures NextIndex(index, n) != index ==> PrevIndex(NextIndex(index, n), n) == index
    ensures PrevIndex(index, n) != index ==> NextIndex(PrevIndex(index, n), n) == index
  {
  }

  /** The index after k presses of Next. */
  function NextTimes(index: int, n: nat, k: nat): int
    decreases k
  {
    if k == 0 then index else NextTimes(NextIndex(index, n), n, k - 1)
  }

  /** Pressing Next enough times from any page reaches the last page and stays there. */
  lemma {:induction false} NextTimesReachesLast(index: int, n: nat, k: nat)
    requires 0 <= index < n && k >= n - 1 - index
    ensures NextTimes(index, n, k) == n - 1
    decreases k
  {
    if k == 0 {
    } else {
      NextTimesReachesLast(NextIndex(index, n), n, k - 1);
    }
  }

  class HowToPlayPager {
    const startIndex: int
    const autoCollectChildren: bool
    var pages: seq<Page?>
    var index: int

    /** The page objects the pager may switch on and off. */
    function PageSet(): set<Page>
      reads this
    {
      set p: Page | p in pages
    }

    /** The index points into the list, and stays at 0 while the list is empty. */
    ghost predicate Valid()
      reads this
    {
      (|pages| > 0 ==> 0 <= index < |pages|) && (|pages| == 0 ==> index == 0)
    }

    /** The serialized list, with the index at 0. */
    constructor (pages: seq<Page?>, startIndex: int, autoCollectChildren: bool)
      ensures this.pages == pages && this.startIndex == startIndex
      ensures this.autoCollectChildren == autoCollectChildren && index == 0 && Valid()
    {
      this.pages, this.startIndex, this.autoCollectChildren := pages, startIndex, autoCollectChildren;
      index := 0;
    }

    /** Sets one page's flag; an index outside the list or a missing page is ignored. */
    method SetActive(i: int, state: bool)
      modifies PageSet()
      ensures 0 <= i < |pages| && pages[i] != null ==> pages[i].active == state
      ensures forall p :: p in PageSet() && !(0 <= i < |pages| && p == pages[i]) ==> p.active == old(p.active)
    {
      if i < 0 || i >= |pages| {
        return;
      }
      if pages[i] != null {
        pages[i].active := state;
      }
    }

    /** Shows page `i` clamped into the list: that page on, every other listed page off. */
    method Show(i: int)
      requires Valid()
      modifies this`index, PageSet()
      ensures Valid()
      ensures |pages| == 0 ==> index == old(index)
      ensures |pages| > 0 ==> index == ClampInt(i, 0, |pages| - 1)
      ensures |pages| > 0 && DistinctPages(pages) ==>
                forall k :: 0 <= k < |pages| && pages[k] != null ==> pages[k].active == (k == index)
    {
      if |pages| == 0 {
        return;
      }
      index := ClampInt(i, 0, |pages| - 1);
      var k := 0;
      while k < |pages|
        invariant 0 <= k <= |pages|
        invariant index == ClampInt(i, 0, |pages| - 1)
        invariant DistinctPages(pages) ==>
                    forall j :: 0 <= j < k && pages[j] != null ==> pages[j].active == (j == index)
      {
        SetActive(k, k == index);
        k := k + 1;
      }
    }

    /** One page forward, unless there are no pages or this is the last one. */
    method Next()
      requires Valid()
      modifies this`index, PageSet()
      ensures Valid()
      ensures index == NextIndex(old(index), |pages|)
      ensures |pages| == 0 || old(index) >= |pages| - 1 ==>
                forall p :: p in PageSet() ==> p.active == old(p.active)
      ensures |pages| > 0 && old(index) < |pages| - 1 ==>
                (pages[index] != null ==> pages[index].active) &&
                (pages[old(index)] != null && pages[old(index)] != pages[index] ==> !pages[old(index)].active) &&
                forall p :: p in PageSet() && p != pages[index] && p != pages[old(index)] ==> p.active == old(p.active)
    {
      if |pages| == 0 {
        return;
      }
      if index >= |pages| - 1 {
        return;
      }
      SetActive(index, false);
      index := index + 1;
      SetActive(index, true);
    }

    /** One page back, unless there are no pages or this is the first one. */
    method Prev()
      requires Valid()
      modifies this`index, PageSet()
      ensures Valid()
      ensures index == PrevIndex(old(index), |pages|)
      ensures |pages| == 0 || old(index) <= 0 ==>
                forall p :: p in PageSet() ==> p.active == old(p.active)
      ensures |pages| > 0 && old(index) > 0 ==>
                (pages[index] != null ==> pages[index].active) &&
                (pages[old(index)] != null && pages[old(index)] != pages[index] ==> !pages[old(index)].active) &&
                forall p :: p in PageSet() && p != pages[index] && p != pages[old(index)] ==> p.active == old(p.active)
    {
      if |pages| == 0 {
        return;
      }
      if index <= 0 {
        return;
      }
      SetActive(index, false);
      index := index - 1;
      SetActive(index, true);
    }

    /** An empty list with auto-collect on becomes the parent's children in order. */
    method BuildPagesIfNeeded(children: seq<Page>)
      requires Valid()
      modifies this`pages
      ensures Valid()
      ensures |old(pages)| == 0 && autoCollectChildren ==> pages == children
      ensures !(|old(pages)| == 0 && autoCollectChildren) ==> pages == old(pages)
    {
      if |pages| == 0 && autoCollectChildren {
        pages := [];
        var i := 0;
        while i < |children|
          invariant 0 <= i <= |children|
          invariant pages == children[..i]
        {
          pages := pages + [children[i]];
          i := i + 1;
        }
        assert children[..|children|] == children;
      }
    }

    /** Enabling the pager: collect the pages if needed, then show the start page. */
    method OnEnable(children: seq<Page>)
      requires Valid()
      modifies this`pages, this`index, (set p: Page | p in children), PageSet()
      ensures Valid()
      ensures |old(pages)| == 0 && autoCollectChildren ==> pages == children
      ensures !(|old(pages)| == 0 && autoCollectChildren) ==> pages == old(pages)
      ensures |pages| > 0 ==> index == ClampInt(startIndex, 0, |pages| - 1)
      ensures |pages| > 0 && DistinctPages(pages) ==>
                forall k :: 0 <= k < |pages| && pages[k] != null ==> pages[k].active == (k == index)
    {
      BuildPagesIfNeeded(children);
      Show(startIndex);
    }
  }
}

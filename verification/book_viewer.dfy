/**
 * The reading view (src/components/BookViewer.tsx): one spread at a time,
 * index 0 the front cover, indices 1 to N the story pages, N + 1 the back
 * cover, with next/previous navigation clamped at both ends.
 */
module BookViewer {
  import opened Types

  /** The title shown on the cover when the book has none. */
  const UntitledCover: string := "My Story Book"

  /** Front cover, one spread per story page, back cover. */
  function TotalSpreads(pageCount: nat): (n: nat)
    ensures 2 <= n && n - 2 == pageCount
  {
    pageCount + 2
  }

  /** `goToNext`: one spread on, except on the back cover. */
  function NextIndex(pageCount: nat, i: nat): (j: nat)
    requires i < TotalSpreads(pageCount)
    ensures j < TotalSpreads(pageCount)
    ensures j == i || j == i + 1
  {
    if i < TotalSpreads(pageCount) - 1 then i + 1 else i
  }

  /** `goToPrev`: one spread back, except on the front cover. */
  function PrevIndex(i: nat): (j: nat)
    ensures j == i || j + 1 == i
  {
    if i > 0 then i - 1 else i
  }

  /** The left arrow is disabled on the front cover, exactly where "previous" does nothing. */
  predicate PrevDisabled(i: nat)
    ensures PrevDisabled(i) <==> PrevIndex(i) == i
  {
    i == 0
  }

  /** The right arrow is disabled on the back cover, exactly where "next" does nothing. */
  predicate NextDisabled(pageCount: nat, i: nat)
    ensures i < TotalSpreads(pageCount) ==> (NextDisabled(pageCount, i) <==> NextIndex(pageCount, i) == i)
  {
    i == TotalSpreads(pageCount) - 1
  }

  /** What one index shows. An image that is absent or empty is not shown. */
  datatype Spread =
    | FrontCover(title: string, image: Option<string>, imageScale: real)
      /** Left: the page's image and number `2i - 1`; right: its text and number `2i`. */
    | StorySpread(image: Option<string>, imageScale: real, text: string, leftNumber: int, rightNumber: int)
    | BackCover

  function Shown(image: Option<string>): (r: Option<string>)
    ensures r.Some? <==> Truthy(image)
    ensures r.Some? ==> r == image
  {
    if Truthy(image) then image else None
  }

  /** The spread the viewer renders at index `i`. */
  function SpreadAt(pages: seq<StoryPage>, title: string, cover: CoverData, i: nat): (s: Spread)
    requires i < TotalSpreads(|pages|)
    ensures s.FrontCover? <==> i == 0
    ensures s.BackCover? <==> i == |pages| + 1
    ensures s.FrontCover? ==> s.title != "" && (title != "" ==> s.title == title)
    ensures s.StorySpread? ==>
      s.text == pages[i - 1].text && s.imageScale == pages[i - 1].imageScale &&
      s.leftNumber == 2 * i - 1 && s.rightNumber == s.leftNumber + 1
  {
    if i == 0 then
      FrontCover(if title == "" then UntitledCover else title, Shown(cover.image), cover.imageScale)
    else if i == TotalSpreads(|pages|) - 1 then
      BackCover
    else
      var page := pages[i - 1];
      StorySpread(Shown(page.image), page.imageScale, page.text, i * 2 - 1, i * 2)
  }

  /** `k` presses of "next" from index `i`. */
  function Advance(pageCount: nat, i: nat, k: nat): (j: nat)
    requires i < TotalSpreads(pageCount)
    ensures j < TotalSpreads(pageCount)
    decreases k
  {
    if k == 0 then i else Advance(pageCount, NextIndex(pageCount, i), k - 1)
  }

  /** `k` presses of "previous" from index `i`. */
  function Retreat(i: nat, k: nat): (j: nat)
    ensures j <= i
  {
    if k == 0 then i else Retreat(PrevIndex(i), k - 1)
  }

  /** "Next" moves exactly when the right arrow is enabled, and "previous" exactly when the left one is. */
  lemma ArrowsMatchHandlers(pageCount: nat, i: nat)
    requires i < TotalSpreads(pageCount)
    ensures NextIndex(pageCount, i) != i <==> !NextDisabled(pageCount, i)
    ensures PrevIndex(i) != i <==> !PrevDisabled(i)
  {
  }

  /** "Previous" undoes "next" everywhere but on the back cover, and "next" undoes "previous" everywhere but on the front cover. */
  lemma NextPrevInverse(pageCount: nat, i: nat)
    requires i < TotalSpreads(pageCount)
    ensures i < TotalSpreads(pageCount) - 1 ==> PrevIndex(NextIndex(pageCount, i)) == i
    ensures 0 < i ==> NextIndex(pageCount, PrevIndex(i)) == i
  {
  }

  /** Pressing "next" `k` times moves `k` spreads on, stopping at the back cover. */
  lemma {:induction false} AdvanceClamps(pageCount: nat, i: nat, k: nat)
    requires i < TotalSpreads(pageCount)
    ensures Advance(pageCount, i, k) == if i + k < TotalSpreads(pageCount) then i + k else TotalSpreads(pageCount) - 1
    decreases k
  {
    if k > 0 {
      AdvanceClamps(pageCount, NextIndex(pageCount, i), k - 1);
    }
  }

  /** Pressing "previous" `k` times moves `k` spreads back, stopping at the front cover. */
  lemma {:induction false} RetreatClamps(i: nat, k: nat)
    ensures Retreat(i, k) == if k <= i then i - k else 0
  {
    if k > 0 {
      RetreatClamps(PrevIndex(i), k - 1);
    }
  }

  /**
   * From the front cover, reading on shows each story page once, in order,
   * with its page numbers, and then the back cover.
   */
  lemma ReadingShowsEveryPage(pages: seq<StoryPage>, title: string, cover: CoverData, k: nat)
    requires k <= |pages|
    ensures Advance(|pages|, 0, k + 1) == k + 1
    ensures k < |pages| ==>
      SpreadAt(pages, title, cover, k + 1) ==
        StorySpread(Shown(pages[k].image), pages[k].imageScale, pages[k].text, 2 * k + 1, 2 * k + 2)
    ensures k == |pages| ==> SpreadAt(pages, title, cover, k + 1) == BackCover
  {
    AdvanceClamps(|pages|, 0, k + 1);
  }

  /**
   * Page numbers run on without gaps: each spread's left number is one more
   * than the previous spread's right number, and the first story spread
   * starts at 1.
   */
  lemma PageNumbersContiguous(pages: seq<StoryPage>, title: string, cover: CoverData, i: nat)
    requires 1 <= i && i + 1 < TotalSpreads(|pages|)
    ensures SpreadAt(pages, title, cover, i).StorySpread?
    ensures SpreadAt(pages, title, cover, i).rightNumber == SpreadAt(pages, title, cover, i).leftNumber + 1
    ensures i == 1 ==> SpreadAt(pages, title, cover, i).leftNumber == 1
    ensures i + 2 < TotalSpreads(|pages|) ==>
      SpreadAt(pages, title, cover, i + 1).leftNumber == SpreadAt(pages, title, cover, i).rightNumber + 1
  {
  }

  class BookViewer {
    const pages: seq<StoryPage>
    const title: string
    const coverData: CoverData
    var currentIndex: nat

    ghost predicate Valid()
      reads this
    {
      currentIndex < TotalSpreads(|pages|)
    }

    constructor(pages: seq<StoryPage>, title: string, coverData: CoverData)
      ensures Valid()
      ensures this.pages == pages && this.title == title && this.coverData == coverData
      ensures currentIndex == 0
    {
      this.pages, this.title, this.coverData := pages, title, coverData;
      currentIndex := 0;
    }

    /** What is on screen now. */
    function Current(): (s: Spread)
      requires Valid()
      reads this
      ensures s.FrontCover? <==> currentIndex == 0
      ensures s.BackCover? <==> currentIndex == |pages| + 1
      ensures s.StorySpread? ==> s.text == pages[currentIndex - 1].text
    {
      SpreadAt(pages, title, coverData, currentIndex)
    }

    method GoToNext()
      requires Valid()
      modifies this
      ensures Valid()
      ensures currentIndex == NextIndex(|pages|, old(currentIndex))
    {
      if currentIndex < TotalSpreads(|pages|) - 1 {
        currentIndex := currentIndex + 1;
      }
    }

    method GoToPrev()
      requires Valid()
      modifies this
      ensures Valid()
      ensures currentIndex == PrevIndex(old(currentIndex))
    {
      if currentIndex > 0 {
        currentIndex := currentIndex - 1;
      }
    }
  }

  /**
   * The two-page book: four spreads; two presses of "next" from the cover
   * show the second page as pages 3 and 4; one more reaches the back cover,
   * where a further press changes nothing.
   */
  method ReadTwoPageBook(a: StoryPage, b: StoryPage, title: string, cover: CoverData)
    returns (second: Spread, last: Spread, finalIndex: nat)
    ensures second == StorySpread(Shown(b.image), b.imageScale, b.text, 3, 4)
    ensures last == BackCover
    ensures finalIndex == 3
  {
    var v := new BookViewer([a, b], title, cover);
    v.GoToNext();
    v.GoToNext();
    second := v.Current();
    v.GoToNext();
    last := v.Current();
    v.GoToNext();
    finalIndex := v.currentIndex;
  }
}

/**
 * The data-display page: saturating Previous/Next pagination over ten pages,
 * the row of at most five numbered page buttons, the preview cards that
 * select a widget in the side panel, and the dark flag.
 */
module DataDisplayDemo {
  import opened ArrayFilter
  import DarkMode
  import DataDisplayPanel
  import Catalogue

  /** `totalPages`. */
  const TotalPages := 10

  function Min(a: int, b: int): int
  {
    if a <= b then a else b
  }

  /* ---------------- pagination ---------------- */

  /** `handlePrevPage`'s updater `prev => Math.max(1, prev - 1)`: one page back, never below 1. */
  function PrevPage(p: int): (q: int)
    ensures 1 <= q
    ensures p > 1 ==> q == p - 1
    ensures p <= 1 ==> q == 1
  {
    if p - 1 >= 1 then p - 1 else 1
  }

  /** `handleNextPage`'s updater `prev => Math.min(totalPages, prev + 1)`: one page on, never past the last. */
  function NextPage(p: int, total: int): (q: int)
    ensures q <= total
    ensures p < total ==> q == p + 1
    ensures p >= total ==> q == total
  {
    Min(total, p + 1)
  }

  /** Previous is disabled on the first page. */
  predicate PrevDisabled(p: int)
  {
    p == 1
  }

  /** Next is disabled on the last page. */
  predicate NextDisabled(p: int, total: int)
  {
    p == total
  }

  /**
   * On a page in range both moves stay in range, and each undoes the other
   * wherever it is not saturated.
   */
  lemma PrevNextInverse(p: int, total: int)
    requires 1 <= p <= total
    ensures 1 <= PrevPage(p) <= total && 1 <= NextPage(p, total) <= total
    ensures p > 1 ==> NextPage(PrevPage(p), total) == p
    ensures p < total ==> PrevPage(NextPage(p, total)) == p
  {
  }

  /** A button is disabled exactly when clicking it would leave the page where it is. */
  lemma DisabledExactlyWhenNoEffect(p: int, total: int)
    requires 1 <= p <= total
    ensures PrevDisabled(p) <==> PrevPage(p) == p
    ensures NextDisabled(p, total) <==> NextPage(p, total) == p
  {
  }

  /* ---------------- page window ---------------- */

  /** The page number of button slot `i`: `currentPage <= 3 ? i + 1 : currentPage - 2 + i`. */
  function SlotPage(p: int, i: int): int
  {
    if p <= 3 then i + 1 else p - 2 + i
  }

  /** `[...Array(Math.min(5, totalPages))].map(...)` before the out-of-range slots are dropped. */
  function Slots(p: int, total: nat): (s: seq<int>)
    ensures |s| == Min(5, total)
  {
    seq(Min(5, total), i => SlotPage(p, i))
  }

  /** The slot test: `if (pageNum > totalPages) return null`. */
  function InRange(total: int): int -> bool
  {
    n => n <= total
  }

  /** The numbered buttons shown: the slots whose page exists, in slot order. */
  function Window(p: int, total: nat): seq<int>
  {
    Filter(Slots(p, total), InRange(total))
  }

  /** The first page of the window: 1 near the start, two before the current page after that. */
  function WindowStart(p: int): int
  {
    if p <= 3 then 1 else p - 2
  }

  /**
   * For a current page in range the window is the run of consecutive pages
   * from `WindowStart(p)`, at most `min(5, total)` of them, cut off at the
   * last page rather than shifted left; it holds the current page.
   */
  lemma WindowShape(p: int, total: nat)
    requires 1 <= p <= total
    ensures var w := Window(p, total);
      |w| == Min(Min(5, total), total - WindowStart(p) + 1) &&
      (forall k :: 0 <= k < |w| ==> w[k] == WindowStart(p) + k) &&
      (forall k :: 0 <= k < |w| ==> 1 <= w[k] <= total) &&
      p in w
  {
    var s := Slots(p, total);
    var start := WindowStart(p);
    var m := Min(Min(5, total), total - start + 1);
    assert forall i :: 0 <= i < |s| ==> s[i] == start + i;
    FilterKeepsPrefix(s, InRange(total), m);
    var w := Window(p, total);
    assert w == s[..m];
    assert w[p - start] == p;
  }

  /** Pages 1 to 3 all show pages 1 to 5. */
  lemma WindowAtStart(p: int)
    requires 1 <= p <= 3
    ensures Window(p, TotalPages) == [1, 2, 3, 4, 5]
  {
    WindowShape(p, TotalPages);
  }

  /** From page 4 on the window is centred on the current page while there is room. */
  lemma WindowCentred(p: int)
    requires 4 <= p <= TotalPages - 2
    ensures Window(p, TotalPages) == [p - 2, p - 1, p, p + 1, p + 2]
  {
    WindowShape(p, TotalPages);
  }

  /** Near the end the window shrinks instead of shifting left: page 9 shows four pages. */
  lemma WindowAtPage9()
    ensures Window(9, TotalPages) == [7, 8, 9, 10]
  {
    WindowShape(9, TotalPages);
  }

  /** On the last page the window shows only three pages. */
  lemma WindowAtPage10()
    ensures Window(10, TotalPages) == [8, 9, 10]
  {
    WindowShape(10, TotalPages);
  }

  /* ---------------- click sequences ---------------- */

  /** A click in the pagination row. */
  datatype PageClick = Previous | Next | Number(page: int)

  /** A numbered button can only be clicked while it is shown. */
  ghost predicate Offered(p: int, total: nat, c: PageClick)
  {
    c.Number? ==> c.page in Window(p, total)
  }

  /** The current page after a click. */
  function AfterClick(p: int, total: nat, c: PageClick): int
  {
    match c
    case Previous => PrevPage(p)
    case Next => NextPage(p, total)
    case Number(n) => n
  }

  /** Every click of `cs`, taken in order, is on a button that is shown at that moment. */
  ghost predicate Clickable(p: int, total: nat, cs: seq<PageClick>)
    decreases |cs|
  {
    cs == [] || (Offered(p, total, cs[0]) && Clickable(AfterClick(p, total, cs[0]), total, cs[1..]))
  }

  /** The current page after the clicks. */
  function AfterClicks(p: int, total: nat, cs: seq<PageClick>): int
    decreases |cs|
  {
    if cs == [] then p else AfterClicks(AfterClick(p, total, cs[0]), total, cs[1..])
  }

  /** From any page in range, any run of clicks on shown buttons ends on a page in range. */
  lemma {:induction false} ClicksStayInRange(p: int, total: nat, cs: seq<PageClick>)
    requires 1 <= p <= total && Clickable(p, total, cs)
    ensures 1 <= AfterClicks(p, total, cs) <= total
    decreases |cs|
  {
    if cs != [] {
      var q := AfterClick(p, total, cs[0]);
      if cs[0].Number? {
        WindowShape(p, total);
      }
      assert 1 <= q <= total;
      ClicksStayInRange(q, total, cs[1..]);
    }
  }

  /* ---------------- preview cards ---------------- */

  /** A clickable preview: its heading and the key it passes to `handlePreviewClick`. */
  datatype PreviewCard = PreviewCard(heading: string, key: string)

  /** The preview cards and blocks, top to bottom. */
  const PreviewCards := [
    PreviewCard("Total Sales", "cards"),
    PreviewCard("Active Users", "stats"),
    PreviewCard("Conversion Rate", "cards"),
    PreviewCard("Table", "table"),
    PreviewCard("Tabs", "tabs"),
    PreviewCard("Carousel", "carousel"),
    PreviewCard("Slider", "slider"),
    PreviewCard("Charts (Recharts)", "charts"),
    PreviewCard("Pagination", "pagination"),
    PreviewCard("Skeletons (Loading States)", "skeleton"),
    PreviewCard("Badges", "badges")
  ]

  /** Both sales cards select "cards", and every preview selects a widget that has a snippet. */
  lemma PreviewKeysAreSnippetKeys()
    ensures PreviewCards[0].key == "cards" && PreviewCards[2].key == "cards"
    ensures forall i :: 0 <= i < |PreviewCards| ==> PreviewCards[i].key in DataDisplayPanel.SnippetKeys
  {
  }

  /**
   * So a click on any preview selects a widget whose snippet is both shown
   * and copied: the copy is never the empty fallback.
   */
  lemma PreviewKeysHaveSnippets(i: nat)
    requires i < |PreviewCards|
    ensures DataDisplayPanel.CopyText(PreviewCards[i].key) != ""
    ensures DataDisplayPanel.CodeArea(PreviewCards[i].key) == DataDisplayPanel.CopyText(PreviewCards[i].key)
  {
    PreviewKeysAreSnippetKeys();
    DataDisplayPanel.SnippetRegistry();
    var k := PreviewCards[i].key;
    var j :| 0 <= j < |DataDisplayPanel.PreviewCode| && DataDisplayPanel.PreviewCode[j].key == k;
    DataDisplayPanel.CopyAndCodeArea(k);
  }

  /* ---------------- page state ---------------- */

  /** The page's hook state. */
  class DataDisplayPage {
    var selected: string
    var dark: bool
    var rootDark: bool
    var currentPage: int

    /** The current page is one of the ten pages. */
    ghost predicate Valid()
      reads this
    {
      1 <= currentPage <= TotalPages
    }

    function Theme(): DarkMode.Theme
      reads this
    {
      DarkMode.Theme(dark, rootDark)
    }

    /** The numbered buttons for the current page. */
    function PageButtons(): seq<int>
      reads this
    {
      Window(currentPage, TotalPages)
    }

    /** Mounting the page; the document's "dark" class is whatever it was before. */
    constructor (rootDark0: bool)
      ensures selected == "cards" && !dark && rootDark == rootDark0 && currentPage == 1
      ensures Valid()
    {
      selected, dark, rootDark, currentPage := "cards", false, rootDark0, 1;
    }

    /** `handlePreviewClick(key)`, and the panel's `onSelect`: only the selection changes. */
    method PreviewClick(key: string)
      modifies this`selected
      ensures selected == key
    {
      selected := key;
    }

    /** A click on preview card `i`. */
    method CardClick(i: nat)
      requires i < |PreviewCards|
      modifies this`selected
      ensures selected == PreviewCards[i].key
    {
      PreviewClick(PreviewCards[i].key);
    }

    /** `toggleDark`. */
    method ToggleDark()
      modifies this`dark, this`rootDark
      ensures Theme() == DarkMode.Toggle(old(Theme()))
    {
      var next := !dark;
      rootDark := next;
      dark := next;
    }

    /**
     * Previous: `handlePrevPage`.  The click stops propagating, so the
     * pagination block's own click (which selects "pagination") does not run.
     */
    method PreviousClick()
      requires Valid()
      modifies this`currentPage
      ensures currentPage == PrevPage(old(currentPage)) && Valid()
    {
      currentPage := if currentPage - 1 >= 1 then currentPage - 1 else 1;
    }

    /** Next: `handleNextPage`; it stops propagating too. */
    method NextClick()
      requires Valid()
      modifies this`currentPage
      ensures currentPage == NextPage(old(currentPage), TotalPages) && Valid()
    {
      currentPage := if TotalPages <= currentPage + 1 then TotalPages else currentPage + 1;
    }

    /** A numbered button: `setCurrentPage(pageNum)` for a page the window shows. */
    method NumberClick(n: int)
      requires Valid() && n in PageButtons()
      modifies this`currentPage
      ensures currentPage == n && Valid()
    {
      WindowShape(currentPage, TotalPages);
      currentPage := n;
    }
  }
}

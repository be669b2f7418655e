/**
 The daily pages' previous and next links, kept as each day is written by
 refreshing the navigation of its two neighbours only.
 */
module DailyHtml {
  import opened Wrappers
  import opened Text

  datatype Nav = Nav(prev: Option<string>, next: Option<string>)

  /** A page: its text, and every `<nav>` the pattern finds in it, the page's own
      one last. */
  datatype Page = Page(body: string, navs: seq<Nav>)

  /** What rendering draws a page from; its text may itself hold what looks like a
      navigation. */
  datatype Content = Content(body: string, strays: seq<Nav>)

  type Pages = map<string, Page>

  // ---- the sorted days ---------------------------------------------------

  function AvailableDays(pages: Pages, extra: string): seq<string> {
    Sorted(pages.Keys + {extra})
  }

  function IndexIn(day: string, days: seq<string>): (i: int)
    ensures if day in days then 0 <= i < |days| && days[i] == day else i == -1
  {
    if day !in days then -1
    else if days[|days| - 1] == day then |days| - 1
    else IndexIn(day, days[..|days| - 1])
  }

  function NavOf(day: string, days: seq<string>): Nav {
    var i := IndexIn(day, days);
    Nav(if i > 0 then Some(days[i - 1]) else None,
        if 0 <= i < |days| - 1 then Some(days[i + 1]) else None)
  }

  function At(days: seq<string>, j: int): Option<string> {
    if 0 <= j < |days| then Some(days[j]) else None
  }

  lemma NavIsAround(pages: Pages, day: string)
    ensures var days := AvailableDays(pages, day);
            var i := IndexIn(day, days);
            NavOf(day, days) == Nav(At(days, i - 1), At(days, i + 1))
  {
    SortedIs(pages.Keys + {day});
  }

  // ---- what the links should be ------------------------------------------

  predicate Before(a: string, b: string) {
    a != b && Leq(a, b)
  }

  lemma BeforeOrders(a: string, b: string, c: string)
    ensures !(Before(a, b) && Before(b, a))
    ensures Before(a, b) || a == b || Before(b, a)
    ensures Before(a, b) && Before(b, c) ==> Before(a, c)
  {
    Total(a, b);
    if Before(a, b) && Before(b, c) {
      Transitive(a, b, c);
      Total(b, c);
    }
  }

  /** The nearest rendered day before `day`, if there is one. */
  ghost predicate IsPrev(p: Option<string>, day: string, days: set<string>) {
    match p
    case None => forall x | x in days :: !Before(x, day)
    case Some(d) => d in days && Before(d, day) && forall x | x in days :: !(Before(d, x) && Before(x, day))
  }

  ghost predicate IsNext(n: Option<string>, day: string, days: set<string>) {
    match n
    case None => forall x | x in days :: !Before(day, x)
    case Some(d) => d in days && Before(day, d) && forall x | x in days :: !(Before(day, x) && Before(x, d))
  }

  ghost predicate Neighbours(nav: Nav, day: string, days: set<string>) {
    IsPrev(nav.prev, day, days) && IsNext(nav.next, day, days)
  }

  /** Two days of the sorted list stand in it as their dates do. */
  lemma SortedOrder(days: set<string>, i: int, k: int)
    requires 0 <= i < |Sorted(days)| && 0 <= k < |Sorted(days)|
    ensures Before(Sorted(days)[k], Sorted(days)[i]) <==> k < i
  {
    var s := Sorted(days);
    SortedIs(days);
    BeforeOrders(s[k], s[i], s[k]);
    if k < i {
      assert Before(s[k], s[i]);
    } else if i < k {
      assert Before(s[i], s[k]);
    }
  }

  lemma PlaceOf(days: set<string>, x: string) returns (k: int)
    requires x in days
    ensures 0 <= k < |Sorted(days)| && Sorted(days)[k] == x
  {
    SortedIs(days);
    assert x in Sorted(days);
    k :| 0 <= k < |Sorted(days)| && Sorted(days)[k] == x;
  }

  lemma PrevIsNearest(day: string, days: set<string>)
    requires day in days
    ensures IsPrev(NavOf(day, Sorted(days)).prev, day, days)
  {
    var s := Sorted(days);
    SortedIs(days);
    var i := IndexIn(day, s);
    forall x | x in days
      ensures Before(x, day) ==> i > 0 && !Before(s[i - 1], x)
    {
      var k := PlaceOf(days, x);
      SortedOrder(days, i, k);
      if k < i {
        SortedOrder(days, k, i - 1);
      }
    }
    if i > 0 {
      SortedOrder(days, i, i - 1);
    }
  }

  lemma NextIsNearest(day: string, days: set<string>)
    requires day in days
    ensures IsNext(NavOf(day, Sorted(days)).next, day, days)
  {
    var s := Sorted(days);
    SortedIs(days);
    var i := IndexIn(day, s);
    forall x | x in days
      ensures Before(day, x) ==> i < |s| - 1 && !Before(x, s[i + 1])
    {
      var k := PlaceOf(days, x);
      SortedOrder(days, k, i);
      if i < k {
        SortedOrder(days, i + 1, k);
      }
    }
    if i < |s| - 1 {
      SortedOrder(days, i + 1, i);
    }
  }

  lemma PrevStands(p: Option<string>, day: string, days: set<string>, extra: string)
    requires IsPrev(p, day, days) && day in days
    requires !IsNext(Some(day), extra, days + {extra})
    ensures IsPrev(p, day, days + {extra})
  {
    if Before(extra, day) && (p.None? || Before(p.value, extra)) {
      forall x | x in days + {extra} ensures !(Before(extra, x) && Before(x, day)) {
        BeforeOrders(extra, x, day);
        BeforeOrders(extra, extra, extra);
        if p.Some? {
          BeforeOrders(p.value, extra, x);
        }
      }
    }
  }

  lemma NextStands(n: Option<string>, day: string, days: set<string>, extra: string)
    requires IsNext(n, day, days) && day in days
    requires !IsPrev(Some(day), extra, days + {extra})
    ensures IsNext(n, day, days + {extra})
  {
    if Before(day, extra) && (n.None? || Before(extra, n.value)) {
      forall x | x in days + {extra} ensures !(Before(day, x) && Before(x, extra)) {
        BeforeOrders(day, x, extra);
        BeforeOrders(extra, extra, extra);
        if n.Some? {
          BeforeOrders(x, extra, n.value);
        }
      }
    }
  }

  lemma NearestIsUnique(a: Option<string>, b: Option<string>, day: string, days: set<string>)
    ensures IsPrev(a, day, days) && IsPrev(b, day, days) ==> a == b
    ensures IsNext(a, day, days) && IsNext(b, day, days) ==> a == b
  {
    if a.Some? && b.Some? {
      BeforeOrders(a.value, b.value, day);
    }
  }

  /** A day that comes in changes the links of its two neighbours and no other. */
  lemma OthersStand(nav: Nav, day: string, days: set<string>, extra: string)
    requires day in days && Neighbours(nav, day, days)
    requires var own := NavOf(extra, Sorted(days + {extra})); own.prev != Some(day) && own.next != Some(day)
    ensures Neighbours(nav, day, days + {extra})
  {
    var all := days + {extra};
    PrevIsNearest(extra, all);
    NextIsNearest(extra, all);
    var own := NavOf(extra, Sorted(all));
    NearestIsUnique(own.prev, Some(day), extra, all);
    NearestIsUnique(own.next, Some(day), extra, all);
    PrevStands(nav.prev, day, days, extra);
    NextStands(nav.next, day, days, extra);
  }

  // ---- writing -----------------------------------------------------------

  function Rendered(c: Content, nav: Nav): Page {
    Page(c.body, c.strays + [nav])
  }

  /** One write of a day: what it is drawn from, and what its neighbours would be
      drawn from if they had to be. */
  datatype Write = Write(day: string, content: Content, prev: Content, next: Content)

  function Refreshed(pages: Pages, d: string, days: seq<string>, c: Content): Pages
    requires d in pages
  {
    if |pages[d].navs| != 1 then pages[d := Rendered(c, NavOf(d, AvailableDays(pages, d)))]
    else pages[d := pages[d].(navs := [NavOf(d, days)])]
  }

  function First(pages: Pages, day: string, c: Content): Pages {
    pages[day := Rendered(c, NavOf(day, AvailableDays(pages, day)))]
  }

  /** One neighbour's navigation refreshed, if there is such a page. */
  function Beside(pages: Pages, d: Option<string>, days: seq<string>, c: Content): Pages {
    if d.Some? && d.value in pages then Refreshed(pages, d.value, days, c) else pages
  }

  function Around(pages: Pages, nav: Nav, days: seq<string>, w: Write): Pages {
    Beside(Beside(pages, nav.prev, days, w.prev), nav.next, days, w.next)
  }

  function Written(pages: Pages, w: Write): Pages {
    var first := First(pages, w.day, w.content);
    var days := AvailableDays(first, w.day);
    Around(first, NavOf(w.day, days), days, w)
  }

  /** The day and its neighbours are written, and nothing else. */
  ghost predicate Names(written: seq<string>, day: string, days: set<string>) {
    var nav := NavOf(day, Sorted(days));
    forall d :: d in written <==> d == day || nav.prev == Some(d) || nav.next == Some(d)
  }

  function Each(d: Option<string>): seq<string> {
    if d.Some? then [d.value] else []
  }

  lemma InPages(days: set<string>, j: int)
    ensures At(Sorted(days), j).Some? ==> At(Sorted(days), j).value in days
  {
    SortedIs(days);
    assert forall i | 0 <= i < |Sorted(days)| :: Sorted(days)[i] in Sorted(days);
  }

  lemma NamesThree(days: set<string>, day: string, i: int)
    requires day in days && i == IndexIn(day, Sorted(days))
    ensures Names([day] + (Each(At(Sorted(days), i - 1)) + Each(At(Sorted(days), i + 1))), day, days)
  {
    hide Sorted;
    assert day in Sorted(days) by {
      SortedIs(days);
    }
    var nav := NavOf(day, Sorted(days));
    assert nav == Nav(At(Sorted(days), i - 1), At(Sorted(days), i + 1));
    ThreeOf(day, nav);
  }

  lemma ThreeOf(day: string, nav: Nav)
    ensures forall d :: d in [day] + (Each(nav.prev) + Each(nav.next))
              <==> d == day || nav.prev == Some(d) || nav.next == Some(d)
  {
  }

  class Site {
    var pages: Pages

    constructor ()
      ensures pages == map[]
    {
      pages := map[];
    }

    method Render(d: string, c: Content)
      modifies this
      ensures pages == old(pages)[d := Rendered(c, NavOf(d, AvailableDays(old(pages), d)))]
    {
      pages := pages[d := Rendered(c, NavOf(d, AvailableDays(pages, d)))];
    }

    method Renav(d: string, days: seq<string>, c: Content)
      requires d in pages
      modifies this
      ensures pages == Refreshed(old(pages), d, days, c)
    {
      if |pages[d].navs| != 1 {
        Render(d, c);
      } else {
        pages := pages[d := pages[d].(navs := [NavOf(d, days)])];
      }
    }

    /** The page before or after, given its place among the days. */
    method RenavAt(j: int, days: seq<string>, c: Content) returns (written: seq<string>)
      modifies this
      ensures pages == Beside(old(pages), At(days, j), days, c)
      ensures (At(days, j).Some? ==> At(days, j).value in old(pages)) ==> written == Each(At(days, j))
      ensures (At(days, j).Some? && At(days, j).value !in old(pages)) ==> written == []
    {
      written := [];
      if 0 <= j < |days| && days[j] in pages {
        Renav(days[j], days, c);
        written := [days[j]];
      }
    }

    /** Both neighbours of the day, by its place among the days. */
    method RenavBoth(i: int, days: seq<string>, w: Write) returns (written: seq<string>)
      requires days == Sorted(pages.Keys)
      modifies this
      ensures pages == Beside(Beside(old(pages), At(days, i - 1), days, w.prev), At(days, i + 1), days, w.next)
      ensures written == Each(At(days, i - 1)) + Each(At(days, i + 1))
    {
      hide Beside, At, Each;
      InPages(pages.Keys, i - 1);
      InPages(pages.Keys, i + 1);
      BesideFrame(pages, At(days, i - 1), days, w.prev);
      var before := RenavAt(i - 1, days, w.prev);
      var after := RenavAt(i + 1, days, w.next);
      written := before + after;
    }

    method WriteDaily(w: Write) returns (written: seq<string>)
      modifies this
      ensures pages == Written(old(pages), w)
      ensures 1 <= |written| <= 3 && written[0] == w.day
      ensures Names(written, w.day, old(pages).Keys + {w.day})
    {
      Render(w.day, w.content);
      var days := AvailableDays(pages, w.day);
      NavIsAround(pages, w.day);
      FirstRight(old(pages), w.day, w.content);
      var i := IndexIn(w.day, days);
      var beside := RenavBoth(i, days, w);
      written := [w.day] + beside;
      NamesThree(old(pages).Keys + {w.day}, w.day, i);
    }
  }

  // ---- every page is right -----------------------------------------------

  function Own(p: Page): Nav
    requires p.navs != []
  {
    p.navs[|p.navs| - 1]
  }

  ghost predicate Right(pages: Pages, d: string, days: set<string>)
    requires d in pages
  {
    pages[d].navs != [] && Neighbours(Own(pages[d]), d, days)
  }

  ghost predicate Linked(pages: Pages) {
    forall d | d in pages :: Right(pages, d, pages.Keys)
  }

  lemma RefreshedRight(pages: Pages, d: string, days: seq<string>, c: Content)
    requires d in pages && days == Sorted(pages.Keys)
    ensures Right(Refreshed(pages, d, days, c), d, pages.Keys)
  {
    assert pages.Keys + {d} == pages.Keys;
    PrevIsNearest(d, pages.Keys);
    NextIsNearest(d, pages.Keys);
  }

  lemma BesideFrame(pages: Pages, d: Option<string>, days: seq<string>, c: Content)
    ensures var p := Beside(pages, d, days, c);
            p.Keys == pages.Keys && forall e | e in pages && d != Some(e) :: p[e] == pages[e]
  {
  }

  lemma FirstRight(pages: Pages, day: string, c: Content)
    ensures var first := First(pages, day, c);
            && first.Keys == pages.Keys + {day} && Right(first, day, first.Keys)
            && AvailableDays(first, day) == Sorted(first.Keys)
  {
    var first := First(pages, day, c);
    assert first.Keys == pages.Keys + {day} && first.Keys + {day} == first.Keys;
    PrevIsNearest(day, first.Keys);
    NextIsNearest(day, first.Keys);
  }

  /** After any write, the day and its two neighbours have their right links,
      whatever was there before; the other pages are as they were. */
  lemma AroundRight(pages: Pages, w: Write, nav: Nav, days: seq<string>)
    requires w.day in pages && days == Sorted(pages.Keys) && Neighbours(nav, w.day, pages.Keys)
    requires Right(pages, w.day, pages.Keys)
    ensures var after := Around(pages, nav, days, w);
            && after.Keys == pages.Keys
            && Right(after, w.day, pages.Keys)
            && (forall d | nav.prev == Some(d) || nav.next == Some(d) :: d in after && Right(after, d, pages.Keys))
            && (forall d | d in pages && nav.prev != Some(d) && nav.next != Some(d) :: after[d] == pages[d])
  {
    Apart(nav, w.day, pages.Keys);
    var second := Beside(pages, nav.prev, days, w.prev);
    BesideFrame(pages, nav.prev, days, w.prev);
    BesideFrame(second, nav.next, days, w.next);
    if nav.prev.Some? {
      RefreshedRight(pages, nav.prev.value, days, w.prev);
    }
    if nav.next.Some? {
      RefreshedRight(second, nav.next.value, days, w.next);
    }
  }

  lemma WrittenRight(pages: Pages, w: Write, nav: Nav)
    requires nav == NavOf(w.day, Sorted(pages.Keys + {w.day}))
    ensures var after := Written(pages, w);
            && after.Keys == pages.Keys + {w.day}
            && Right(after, w.day, after.Keys)
            && (forall d | nav.prev == Some(d) || nav.next == Some(d) :: d in after && Right(after, d, after.Keys))
            && (forall d | d in pages && d != w.day && nav.prev != Some(d) && nav.next != Some(d) ::
                  after[d] == pages[d])
  {
    FirstRight(pages, w.day, w.content);
    var first := First(pages, w.day, w.content);
    PrevIsNearest(w.day, first.Keys);
    NextIsNearest(w.day, first.Keys);
    AroundRight(first, w, nav, Sorted(first.Keys));
  }

  lemma Apart(nav: Nav, day: string, days: set<string>)
    requires Neighbours(nav, day, days)
    ensures nav.prev != Some(day) && nav.next != Some(day)
    ensures nav.prev.Some? ==> nav.prev != nav.next
  {
    BeforeOrders(day, day, day);
    if nav.prev.Some? && nav.next.Some? {
      BeforeOrders(nav.prev.value, day, nav.next.value);
    }
  }

  lemma WriteKeepsLinked(pages: Pages, w: Write)
    requires Linked(pages)
    ensures Linked(Written(pages, w))
  {
    var after := Written(pages, w);
    var nav := NavOf(w.day, Sorted(pages.Keys + {w.day}));
    WrittenRight(pages, w, nav);
    forall d | d in after ensures Right(after, d, after.Keys) {
      if d != w.day && nav.prev != Some(d) && nav.next != Some(d) {
        assert Right(pages, d, pages.Keys);
        OthersStand(Own(pages[d]), d, pages.Keys, w.day);
      }
    }
  }

  function Run(writes: seq<Write>): Pages {
    if writes == [] then map[] else Written(Run(writes[..|writes| - 1]), writes[|writes| - 1])
  }

  /** From an empty directory, in any order of days and any number of times, every
      page links to its immediate neighbours among the days rendered. */
  lemma {:induction false} AlwaysLinked(writes: seq<Write>)
    ensures Linked(Run(writes))
  {
    if writes != [] {
      AlwaysLinked(writes[..|writes| - 1]);
      WriteKeepsLinked(Run(writes[..|writes| - 1]), writes[|writes| - 1]);
    }
  }

  predicate Kept(pages: Pages, d: string, body: string) {
    d in pages && pages[d].body == body && |pages[d].navs| == 1
  }

  lemma BesideKeeps(pages: Pages, n: Option<string>, days: seq<string>, c: Content, d: string, body: string)
    requires Kept(pages, d, body)
    ensures Kept(Beside(pages, n, days, c), d, body)
  {
  }

  /** A past page keeps its text: only a page on which the navigation was not
      found exactly once is drawn again. */
  lemma PastKept(pages: Pages, w: Write, d: string)
    requires d in pages && d != w.day && |pages[d].navs| == 1
    ensures Kept(Written(pages, w), d, pages[d].body)
  {
    var body := pages[d].body;
    var first := First(pages, w.day, w.content);
    assert Kept(first, d, body);
    var days := AvailableDays(first, w.day);
    var nav := NavOf(w.day, days);
    BesideKeeps(first, nav.prev, days, w.prev, d, body);
    BesideKeeps(Beside(first, nav.prev, days, w.prev), nav.next, days, w.next, d, body);
  }

  // ---- what the pages say ------------------------------------------------

  /** A page with one navigation keeps its text and gets this one; any other is drawn
      again from its own content. */
  predicate Redone(was: Page, now: Page, c: Content) {
    && (|was.navs| == 1 ==> now.body == was.body && |now.navs| == 1)
    && (|was.navs| != 1 ==> now.body == c.body && |now.navs| == |c.strays| + 1 && c.strays <= now.navs)
  }

  lemma BesideRedone(pages: Pages, d: string, days: seq<string>, c: Content)
    requires d in pages
    ensures Redone(pages[d], Beside(pages, Some(d), days, c)[d], c)
  {
  }

  /** The day written is drawn from its content, the day before it and the day after
      each from their own, if they have to be. */
  lemma TextsRight(pages: Pages, w: Write, nav: Nav)
    requires nav == NavOf(w.day, Sorted(pages.Keys + {w.day}))
    ensures var after := Written(pages, w);
            && w.day in after && after[w.day].body == w.content.body && w.content.strays <= after[w.day].navs
            && (nav.prev.Some? ==> nav.prev.value in pages && nav.prev.value in after
                                   && Redone(pages[nav.prev.value], after[nav.prev.value], w.prev))
            && (nav.next.Some? ==> nav.next.value in pages && nav.next.value in after
                                   && Redone(pages[nav.next.value], after[nav.next.value], w.next))
  {
    var first := First(pages, w.day, w.content);
    FirstRight(pages, w.day, w.content);
    var days := Sorted(first.Keys);
    PrevIsNearest(w.day, first.Keys);
    NextIsNearest(w.day, first.Keys);
    Apart(nav, w.day, first.Keys);
    var second := Beside(first, nav.prev, days, w.prev);
    BesideFrame(first, nav.prev, days, w.prev);
    BesideFrame(second, nav.next, days, w.next);
    if nav.prev.Some? {
      BesideRedone(first, nav.prev.value, days, w.prev);
    }
    if nav.next.Some? {
      BesideRedone(second, nav.next.value, days, w.next);
    }
  }
}

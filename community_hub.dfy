/**
 * The community gallery: the list of panels shown for a search query, a
 * manga filter and a sort order, and the featured panel.  Whenever one of
 * the three inputs changes, the page filters a copy of the panel list,
 * sorts it in place, shows it, and features the most liked panel.
 */
module CommunityHub {
  import Text

  datatype Panel = Panel(
    id: string,
    imageUrl: string,
    title: string,
    username: string,
    userAvatar: string,
    likes: int,
    comments: int,
    mangaTitle: string,
    character: string)

  const MockPanels: seq<Panel> := [
    Panel("1", "https://images.pexels.com/photos/1575841/pexels-photo-1575841.jpeg", "Marin Kitagawa Cosplay Scene",
          "artmaster", "https://images.pexels.com/photos/614810/pexels-photo-614810.jpeg", 128, 32,
          "My Dress-Up Darling", "Marin Kitagawa"),
    Panel("2", "https://images.pexels.com/photos/3680454/pexels-photo-3680454.jpeg", "Gojo vs. Sukuna",
          "mangafan92", "https://images.pexels.com/photos/774909/pexels-photo-774909.jpeg", 94, 18,
          "Jujutsu Kaisen", "Gojo Satoru"),
    Panel("3", "https://images.pexels.com/photos/774866/pexels-photo-774866.jpeg", "Akane Beach Episode",
          "colorwizard", "https://images.pexels.com/photos/220453/pexels-photo-220453.jpeg", 76, 14,
          "Oshi no Ko", "Akane Kurokawa"),
    Panel("4", "https://images.pexels.com/photos/1906879/pexels-photo-1906879.jpeg", "Sunset Battle Panel",
          "artmaster", "https://images.pexels.com/photos/614810/pexels-photo-614810.jpeg", 68, 12,
          "One Punch Man", "Saitama"),
    Panel("5", "https://images.pexels.com/photos/8534214/pexels-photo-8534214.jpeg", "Chika Dance Colorization",
          "colorwizard", "https://images.pexels.com/photos/220453/pexels-photo-220453.jpeg", 53, 8,
          "Kaguya-sama", "Chika Fujiwara"),
    Panel("6", "https://images.pexels.com/photos/2387873/pexels-photo-2387873.jpeg", "Demon Slayer Final Battle",
          "mangafan92", "https://images.pexels.com/photos/774909/pexels-photo-774909.jpeg", 42, 7,
          "Demon Slayer", "Tanjiro")
  ]

  /** The filter value that shows every manga. */
  const AllManga: string := "all"

  // ---------------------------------------------------------------------
  // Search and filter
  // ---------------------------------------------------------------------

  /**
   * Case-insensitive search over title, username, manga title and character.
   * The empty query matches every panel, and so does any query one of the
   * four fields holds exactly as typed.
   */
  predicate MatchesSearch(p: Panel, query: string): (b: bool)
    ensures query == "" ==> b
    ensures (|| Text.Contains(p.title, query) || Text.Contains(p.username, query)
             || Text.Contains(p.mangaTitle, query) || Text.Contains(p.character, query)) ==> b
  {
    Text.LowerKeepsContains(p.title, query);
    Text.LowerKeepsContains(p.username, query);
    Text.LowerKeepsContains(p.mangaTitle, query);
    Text.LowerKeepsContains(p.character, query);
    var q := Text.ToLower(query);
    || Text.Contains(Text.ToLower(p.title), q)
    || Text.Contains(Text.ToLower(p.username), q)
    || Text.Contains(Text.ToLower(p.mangaTitle), q)
    || Text.Contains(Text.ToLower(p.character), q)
  }

  /**
   * A panel is shown when it passes the search (if any) and the manga filter
   * (unless "all").  Since the empty query matches everything, the guard on
   * an empty query does not change which panels pass.
   */
  predicate Passes(p: Panel, query: string, filter: string): (b: bool)
    ensures b <==> MatchesSearch(p, query) && (filter == AllManga || p.mangaTitle == filter)
  {
    && (query == "" || MatchesSearch(p, query))
    && (filter == AllManga || p.mangaTitle == filter)
  }

  /** `Array.prototype.filter`: keeps the panels `keep` accepts, in order. */
  function Filter(ps: seq<Panel>, keep: Panel -> bool): (r: seq<Panel>)
    ensures forall i :: 0 <= i < |r| ==> keep(r[i])
    ensures forall p :: multiset(r)[p] == if keep(p) then multiset(ps)[p] else 0
  {
    if ps == [] then []
    else
      var rest := Filter(ps[1..], keep);
      assert ps == [ps[0]] + ps[1..];
      if keep(ps[0]) then [ps[0]] + rest else rest
  }

  /** Filtering a concatenation filters each part and concatenates the results. */
  lemma {:induction false} FilterAppend(a: seq<Panel>, b: seq<Panel>, keep: Panel -> bool)
    ensures Filter(a + b, keep) == Filter(a, keep) + Filter(b, keep)
  {
    if a == [] {
      assert a + b == b;
    } else {
      assert (a + b)[0] == a[0];
      assert (a + b)[1..] == a[1..] + b;
      FilterAppend(a[1..], b, keep);
    }
  }

  /** The panels left after the search and the manga filter. */
  function Filtered(panels: seq<Panel>, query: string, filter: string): (r: seq<Panel>)
    ensures forall p :: multiset(r)[p] == if Passes(p, query, filter) then multiset(panels)[p] else 0
  {
    var searched := if query != "" then Filter(panels, (p: Panel) => MatchesSearch(p, query)) else panels;
    if filter != AllManga then Filter(searched, (p: Panel) => p.mangaTitle == filter) else searched
  }

  // ---------------------------------------------------------------------
  // Sorting
  // ---------------------------------------------------------------------

  /** The leading run of decimal digits. */
  function LeadingDigits(s: string): (r: string)
    ensures Text.IsPrefix(r, s)
    ensures forall i :: 0 <= i < |r| ==> Text.IsDigit(r[i])
    ensures |r| < |s| ==> !Text.IsDigit(s[|r|])
  {
    if s == [] || !Text.IsDigit(s[0]) then [] else [s[0]] + LeadingDigits(s[1..])
  }

  function Pow10(n: nat): (r: nat)
    ensures r >= 1
  {
    if n == 0 then 1 else 10 * Pow10(n - 1)
  }

  /** The number a run of decimal digits denotes; it has no more digits than the run. */
  function DecimalValue(ds: string): (r: nat)
    requires forall i :: 0 <= i < |ds| ==> Text.IsDigit(ds[i])
    ensures r < Pow10(|ds|)
  {
    if ds == [] then 0
    else
      var last := ds[|ds| - 1];
      assert Text.IsDigit(last);
      DecimalValue(ds[..|ds| - 1]) * 10 + (last as int - '0' as int)
  }

  /** The shortest decimal numeral of `n`: digits only, and no leading zero unless `n` is 0. */
  function DecimalString(n: nat): (r: string)
    ensures |r| >= 1
    ensures forall i :: 0 <= i < |r| ==> Text.IsDigit(r[i])
    ensures r[0] == '0' ==> n == 0
    decreases n
  {
    var d := (n % 10 + '0' as int) as char;
    if n < 10 then [d] else DecimalString(n / 10) + [d]
  }

  /** Reading a numeral gives back the number it was written from. */
  lemma {:induction false} DecimalRoundTrip(n: nat)
    ensures DecimalValue(DecimalString(n)) == n
  {
    var s := DecimalString(n);
    if n < 10 {
      assert s[..|s| - 1] == [];
    } else {
      assert s[..|s| - 1] == DecimalString(n / 10);
      DecimalRoundTrip(n / 10);
    }
  }

  /**
   * The number `parseInt(id)` gives for the ids the page holds: an id of
   * digits only is read whole.  Leading whitespace, a sign and a `0x` prefix
   * are not read (they give 0 here).
   */
  function NumericId(p: Panel): (r: nat)
    ensures (forall i :: 0 <= i < |p.id| ==> Text.IsDigit(p.id[i])) ==> r == DecimalValue(p.id)
  {
    var ds := LeadingDigits(p.id);
    assert (forall i :: 0 <= i < |p.id| ==> Text.IsDigit(p.id[i])) ==> ds == p.id by {
      assert |ds| <= |p.id|;
    }
    DecimalValue(ds)
  }

  /** An id written as the numeral of `n` sorts as `n`. */
  lemma NumericIdOfNumeral(p: Panel, n: nat)
    requires p.id == DecimalString(n)
    ensures NumericId(p) == n
  {
    DecimalRoundTrip(n);
  }

  function Likes(p: Panel): int {
    p.likes
  }

  predicate SortedDescending(s: seq<Panel>, key: Panel -> int) {
    forall x, y :: 0 <= x < y < |s| ==> key(s[x]) >= key(s[y])
  }

  /** Swaps the entry at `j` with the one before it. */
  method SwapWithPrevious(a: array<Panel>, j: int)
    requires 0 < j < a.Length
    modifies a
    ensures a[j - 1] == old(a[j]) && a[j] == old(a[j - 1])
    ensures forall m :: 0 <= m < a.Length && m != j - 1 && m != j ==> a[m] == old(a[m])
    ensures multiset(a[..]) == old(multiset(a[..]))
  {
    a[j - 1], a[j] := a[j], a[j - 1];
  }

  /**
   * `filtered.sort((a, b) => key(b) - key(a))`: sorts in place, largest key
   * first, as an insertion sort.
   */
  method SortDescending(a: array<Panel>, key: Panel -> int)
    modifies a
    ensures SortedDescending(a[..], key)
    ensures multiset(a[..]) == old(multiset(a[..]))
  {
    if a.Length == 0 {
      return;
    }
    var i := 1;
    while i < a.Length
      invariant 1 <= i <= a.Length
      invariant forall x, y :: 0 <= x < y < i ==> key(a[x]) >= key(a[y])
      invariant multiset(a[..]) == old(multiset(a[..]))
    {
      var j := i;
      while j > 0 && key(a[j - 1]) < key(a[j])
        invariant 0 <= j <= i
        invariant forall x, y :: 0 <= x < y <= i && x != j && y != j ==> key(a[x]) >= key(a[y])
        invariant forall y :: j < y <= i ==> key(a[j]) > key(a[y])
        invariant multiset(a[..]) == old(multiset(a[..]))
      {
        SwapWithPrevious(a, j);
        j := j - 1;
      }
      i := i + 1;
    }
  }

  // ---------------------------------------------------------------------
  // The featured panel
  // ---------------------------------------------------------------------

  /** `rest.reduce((max, panel) => max.likes > panel.likes ? max : panel, acc)`. */
  function MostLikedFrom(acc: Panel, rest: seq<Panel>): (r: Panel)
    ensures r == acc || r in rest
    ensures r.likes >= acc.likes
    ensures forall p :: p in rest ==> p.likes <= r.likes
    decreases rest
  {
    if rest == [] then acc
    else MostLikedFrom(if acc.likes > rest[0].likes then acc else rest[0], rest[1..])
  }

  /** `ps.reduce(...)` without a seed: starts from the first panel. */
  function MostLiked(ps: seq<Panel>): (r: Panel)
    requires |ps| > 0
    ensures r in ps
    ensures forall p :: p in ps ==> p.likes <= r.likes
  {
    assert ps == [ps[0]] + ps[1..];
    MostLikedFrom(ps[0], ps[1..])
  }

  // ---------------------------------------------------------------------
  // The effect that recomputes the page
  // ---------------------------------------------------------------------

  /**
   * What the page shows for a query, sort and filter: exactly the passing
   * panels, in the order the sort asks for, and a featured panel with the
   * most likes among them: the first shown panel under "popular", and the
   * previous one when nothing is shown.
   */
  ghost predicate Shows(panels: seq<Panel>, query: string, sort: string, filter: string,
                        previous: Panel, displayed: seq<Panel>, featured: Panel)
  {
    && multiset(displayed) == multiset(Filtered(panels, query, filter))
    && (sort == "popular" ==> SortedDescending(displayed, Likes))
    && (sort == "recent" ==> SortedDescending(displayed, NumericId))
    && (sort != "popular" && sort != "recent" ==> displayed == Filtered(panels, query, filter))
    && (|displayed| > 0 ==> featured in displayed && forall p :: p in displayed ==> p.likes <= featured.likes)
    && (sort == "popular" && |displayed| > 0 ==> featured == displayed[0])
    && (|displayed| == 0 ==> featured == previous)
  }

  /** The body of the page's effect. */
  method ApplyFilters(panels: seq<Panel>, query: string, sort: string, filter: string, previous: Panel)
    returns (displayed: seq<Panel>, featured: Panel)
    ensures Shows(panels, query, sort, filter, previous, displayed, featured)
  {
    var filtered := Filtered(panels, query, filter);
    var a := new Panel[|filtered|](i requires 0 <= i < |filtered| => filtered[i]);
    assert a[..] == filtered;
    if sort == "popular" {
      SortDescending(a, Likes);
    } else if sort == "recent" {
      SortDescending(a, NumericId);
    }
    displayed := a[..];
    featured := previous;
    if |displayed| > 0 {
      if sort == "popular" {
        featured := displayed[0];
        assert forall p :: p in displayed ==> p.likes <= featured.likes by {
          forall p | p in displayed ensures p.likes <= featured.likes {
            var y :| 0 <= y < |displayed| && displayed[y] == p;
            if y > 0 {
              assert Likes(displayed[0]) >= Likes(displayed[y]);
            }
          }
        }
      } else {
        featured := MostLiked(displayed);
      }
    }
  }

  /** Every shown panel passes the search and the filter, and every passing panel is shown. */
  lemma {:induction false} ShownIffPasses(panels: seq<Panel>, query: string, sort: string, filter: string,
                                         previous: Panel, displayed: seq<Panel>, featured: Panel)
    requires Shows(panels, query, sort, filter, previous, displayed, featured)
    ensures forall p :: p in displayed ==> Passes(p, query, filter) && p in panels
    ensures forall p :: p in panels && Passes(p, query, filter) ==> p in displayed
  {
    forall p | p in displayed ensures Passes(p, query, filter) && p in panels {
      assert multiset(displayed)[p] > 0;
    }
    forall p | p in panels && Passes(p, query, filter) ensures p in displayed {
      assert multiset(panels)[p] > 0;
    }
  }

  /** With no query and every manga, the page shows a permutation of all panels. */
  lemma UnfilteredIsPermutation(panels: seq<Panel>, sort: string, previous: Panel,
                                                  displayed: seq<Panel>, featured: Panel)
    requires Shows(panels, "", sort, AllManga, previous, displayed, featured)
    ensures multiset(displayed) == multiset(panels)
  {
  }

  /** The mock ids are the numbers 1 to 6, so "recent" puts the sixth panel first. */
  lemma MockIdsAreNumbers()
    ensures forall i :: 0 <= i < |MockPanels| ==> NumericId(MockPanels[i]) == i + 1
  {
  }

  class Page {
    /** The panels the page draws from (`mockPanels`). */
    const panels: seq<Panel>
    var searchQuery: string
    var activeSort: string
    var activeFilter: string
    var displayedPanels: seq<Panel>
    var featuredPanel: Panel

    /** The page as first rendered, before its effect runs. */
    constructor()
      ensures panels == MockPanels
      ensures searchQuery == "" && activeSort == "popular" && activeFilter == AllManga
      ensures displayedPanels == MockPanels && featuredPanel == MockPanels[0]
    {
      panels := MockPanels;
      searchQuery, activeSort, activeFilter := "", "popular", AllManga;
      displayedPanels, featuredPanel := MockPanels, MockPanels[0];
    }

    /** The effect, run on mount and after every change of the three inputs. */
    method Refresh()
      modifies this
      ensures Shows(panels, searchQuery, activeSort, activeFilter, old(featuredPanel), displayedPanels, featuredPanel)
      ensures searchQuery == old(searchQuery) && activeSort == old(activeSort) && activeFilter == old(activeFilter)
    {
      displayedPanels, featuredPanel := ApplyFilters(panels, searchQuery, activeSort, activeFilter, featuredPanel);
    }

    method HandleSearch(query: string)
      modifies this
      ensures searchQuery == query && activeSort == old(activeSort) && activeFilter == old(activeFilter)
      ensures Shows(panels, query, activeSort, activeFilter, old(featuredPanel), displayedPanels, featuredPanel)
    {
      searchQuery := query;
      Refresh();
    }

    method HandleSortChange(sort: string)
      modifies this
      ensures activeSort == sort && searchQuery == old(searchQuery) && activeFilter == old(activeFilter)
      ensures Shows(panels, searchQuery, sort, activeFilter, old(featuredPanel), displayedPanels, featuredPanel)
    {
      activeSort := sort;
      Refresh();
    }

    method HandleFilterChange(filter: string)
      modifies this
      ensures activeFilter == filter && searchQuery == old(searchQuery) && activeSort == old(activeSort)
      ensures Shows(panels, searchQuery, activeSort, filter, old(featuredPanel), displayedPanels, featuredPanel)
    {
      activeFilter := filter;
      Refresh();
    }
  }
}

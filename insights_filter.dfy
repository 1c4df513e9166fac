/** The insights list (InsightsFilter): category and search filtering of the
    posts, six posts a page, clamped previous/next, the return to page one
    when a filter changes, and the row of page numbers with its ellipses. */
module InsightsFilter {
  import opened Text
  import opened BlogCard

  const PostsPerPage: nat := 6
  const AllCategories: string := "All"

  // ------------------------------------------------------------- filtering

  /** `xs.filter(keep)` */
  function Filter<T>(xs: seq<T>, keep: T -> bool): (r: seq<T>)
    ensures |r| <= |xs|
  {
    if xs == [] then [] else (if keep(xs[0]) then [xs[0]] else []) + Filter(xs[1..], keep)
  }

  /** `a` is `b` with some elements left out, the rest kept in their order. */
  predicate Subseq<T(==)>(a: seq<T>, b: seq<T>)
    decreases |b|
  {
    a == [] || (b != [] && ((a[0] == b[0] && Subseq(a[1..], b[1..])) || Subseq(a, b[1..])))
  }

  /** A filter keeps exactly the elements that pass, in their order. */
  lemma {:induction false} FilterKeeps<T>(xs: seq<T>, keep: T -> bool)
    ensures forall x :: x in Filter(xs, keep) <==> x in xs && keep(x)
    ensures Subseq(Filter(xs, keep), xs)
  {
    if xs != [] {
      FilterKeeps(xs[1..], keep);
      assert xs == [xs[0]] + xs[1..];
      var r := Filter(xs, keep);
      if keep(xs[0]) {
        assert r[0] == xs[0] && r[1..] == Filter(xs[1..], keep);
        assert Subseq(r[1..], xs[1..]);
      } else {
        assert r == Filter(xs[1..], keep);
      }
    }
  }

  /** Filtering twice is filtering once by both tests. */
  lemma {:induction false} FilterTwice<T>(xs: seq<T>, first: T -> bool, second: T -> bool, both: T -> bool)
    requires forall x :: both(x) == (first(x) && second(x))
    ensures Filter(Filter(xs, first), second) == Filter(xs, both)
  {
    if xs != [] {
      FilterTwice(xs[1..], first, second, both);
      var once := Filter(xs, first);
      if first(xs[0]) {
        assert once != [] && once[0] == xs[0] && once[1..] == Filter(xs[1..], first);
        assert Filter(once, second) == (if second(xs[0]) then [xs[0]] else []) + Filter(once[1..], second);
      } else {
        assert once == Filter(xs[1..], first);
      }
    }
  }

  /** `post.tags.some(tag => tag.toLowerCase() === category.toLowerCase())` */
  predicate InCategory(post: BlogPost, category: string) {
    exists i :: 0 <= i < |post.tags| && ToLower(post.tags[i]) == ToLower(category)
  }

  /** The search test on the lowercased term `term`: the title, the excerpt,
      some tag or the author's name contains it, ignoring case. */
  predicate MatchesTerm(post: BlogPost, term: string) {
    || Contains(ToLower(post.title), term)
    || Contains(ToLower(post.excerpt), term)
    || (exists i :: 0 <= i < |post.tags| && Contains(ToLower(post.tags[i]), term))
    || Contains(ToLower(post.author.name), term)
  }

  /** `filteredPosts`: first by category unless it is "All", then by search
      when the term is not blank (the term itself is matched untrimmed). */
  function Filtered(posts: seq<BlogPost>, category: string, searchTerm: string): seq<BlogPost> {
    var byCategory := if category != AllCategories then Filter(posts, p => InCategory(p, category)) else posts;
    if !IsBlank(searchTerm) then
      var term := ToLower(searchTerm);
      Filter(byCategory, p => MatchesTerm(p, term))
    else byCategory
  }

  /** Whether one post survives both filters. */
  predicate Kept(post: BlogPost, category: string, searchTerm: string) {
    && (category == AllCategories || InCategory(post, category))
    && (IsBlank(searchTerm) || MatchesTerm(post, ToLower(searchTerm)))
  }

  /** The filtered list is the posts that pass both tests, in their order: the
      category "All" and a blank search keep every post, and nothing is ever
      added. */
  lemma FilteredIsOnePass(posts: seq<BlogPost>, category: string, searchTerm: string)
    ensures Filtered(posts, category, searchTerm) == Filter(posts, p => Kept(p, category, searchTerm))
    ensures forall p :: p in Filtered(posts, category, searchTerm) <==> p in posts && Kept(p, category, searchTerm)
    ensures Subseq(Filtered(posts, category, searchTerm), posts)
    ensures category == AllCategories && IsBlank(searchTerm) ==> Filtered(posts, category, searchTerm) == posts
  {
    var keep := p => Kept(p, category, searchTerm);
    var byCat := p => InCategory(p, category);
    var term := ToLower(searchTerm);
    var bySearch := p => MatchesTerm(p, term);
    if category != AllCategories && !IsBlank(searchTerm) {
      FilterTwice(posts, byCat, bySearch, keep);
    } else if category != AllCategories {
      FilterSame(posts, byCat, keep);
    } else if !IsBlank(searchTerm) {
      FilterSame(posts, bySearch, keep);
    } else {
      FilterAll(posts, keep);
    }
    FilterKeeps(posts, keep);
  }

  lemma {:induction false} FilterSame<T>(xs: seq<T>, f: T -> bool, g: T -> bool)
    requires forall x :: f(x) == g(x)
    ensures Filter(xs, f) == Filter(xs, g)
  {
    if xs != [] {
      FilterSame(xs[1..], f, g);
    }
  }

  lemma {:induction false} FilterAll<T>(xs: seq<T>, keep: T -> bool)
    requires forall x :: keep(x)
    ensures Filter(xs, keep) == xs
  {
    if xs != [] {
      FilterAll(xs[1..], keep);
    }
  }

  // ------------------------------------------------------------ pagination

  /** `Math.ceil(n / POSTS_PER_PAGE)` */
  function TotalPages(n: nat): (r: nat)
    ensures r * PostsPerPage >= n
    ensures n > 0 ==> (r - 1) * PostsPerPage < n
    ensures n == 0 <==> r == 0
  {
    (n + PostsPerPage - 1) / PostsPerPage
  }

  /** `filteredPosts.slice((page - 1) * 6, (page - 1) * 6 + 6)`; the slice is
      cut short at the end of the list. */
  function Page<T>(xs: seq<T>, page: nat): (r: seq<T>)
    requires page >= 1
    ensures |r| <= PostsPerPage
  {
    var start := (page - 1) * PostsPerPage;
    var stop := start + PostsPerPage;
    xs[Clamp(start, |xs|)..Clamp(stop, |xs|)]
  }

  function Clamp(i: nat, n: nat): (r: nat)
    ensures r <= n && r <= i && (i <= n ==> r == i)
  {
    if i <= n then i else n
  }

  /** The pages one after another. */
  function Flatten<T>(pages: seq<seq<T>>): seq<T> {
    if pages == [] then [] else Flatten(pages[..|pages| - 1]) + pages[|pages| - 1]
  }

  function Pages<T>(xs: seq<T>, count: nat): (r: seq<seq<T>>)
    ensures |r| == count
  {
    seq(count, i requires 0 <= i < count => Page(xs, i + 1))
  }

  lemma {:induction false} FirstPagesFlatten<T>(xs: seq<T>, k: nat)
    ensures Flatten(Pages(xs, k)) == xs[..Clamp(k * PostsPerPage, |xs|)]
  {
    if k > 0 {
      var ps := Pages(xs, k);
      FirstPagesFlatten(xs, k - 1);
      assert ps[..k - 1] == Pages(xs, k - 1);
      var a := Clamp((k - 1) * PostsPerPage, |xs|);
      var b := Clamp(k * PostsPerPage, |xs|);
      assert ps[k - 1] == xs[a..b];
      assert xs[..a] + xs[a..b] == xs[..b];
    }
  }

  /** Pages 1 to `totalPages`, read one after another, are the whole list. */
  lemma PagesCoverList<T>(xs: seq<T>)
    ensures Flatten(Pages(xs, TotalPages(|xs|))) == xs
  {
    FirstPagesFlatten(xs, TotalPages(|xs|));
    assert xs[..|xs|] == xs;
  }

  /** Every page from 1 to `totalPages` has at least one post, and only the
      last may have fewer than six. */
  lemma PagesAreFull<T>(xs: seq<T>, page: nat)
    requires 1 <= page <= TotalPages(|xs|)
    ensures Page(xs, page) != []
    ensures page < TotalPages(|xs|) ==> |Page(xs, page)| == PostsPerPage
  {
  }

  /** Pagination controls are drawn when more than one page's worth matches. */
  predicate ControlsShown(n: nat) {
    n > PostsPerPage
  }

  /** "No articles found" is drawn when nothing matches. */
  predicate EmptyStateShown(n: nat) {
    n == 0
  }

  /** The controls appear exactly when there are at least two pages, and the
      empty state exactly when there are none. */
  lemma ShownStates(n: nat)
    ensures ControlsShown(n) <==> TotalPages(n) >= 2
    ensures EmptyStateShown(n) <==> TotalPages(n) == 0
  {
  }

  // ----------------------------------------------------------- page numbers

  /** `Array.from({ length: n }, (_, i) => i + 1)` */
  function OneTo(n: nat): (r: seq<int>)
    ensures |r| == n && forall i :: 0 <= i < n ==> r[i] == i + 1
  {
    seq(n, i => i + 1)
  }

  function Abs(x: int): nat {
    if x < 0 then -x else x
  }

  /** The neighbours of `current` drawn between the first and last buttons. */
  function Neighbours(totalPages: nat, current: int): seq<int> {
    Filter(OneTo(totalPages), page => page != 1 && page != totalPages && Abs(page - current) <= 1)
  }

  /** The page-number buttons, left to right: all pages when there are at most
      seven, otherwise page 1, the neighbours of the current page and the
      last page. */
  function PageNumbers(totalPages: nat, current: int): seq<int> {
    if totalPages <= 7 then OneTo(totalPages)
    else [1] + Neighbours(totalPages, current) + [totalPages]
  }

  /** The "…" after page 1. */
  predicate LeftGap(totalPages: nat, current: int) {
    totalPages > 7 && current > 3
  }

  /** The "…" before the last page. */
  predicate RightGap(totalPages: nat, current: int) {
    totalPages > 7 && current < totalPages - 2
  }

  predicate Ascending(xs: seq<int>) {
    forall i, j :: 0 <= i < j < |xs| ==> xs[i] < xs[j]
  }

  lemma {:induction false} FilterAscending(xs: seq<int>, keep: int -> bool)
    requires Ascending(xs)
    ensures Ascending(Filter(xs, keep))
  {
    if xs != [] {
      FilterAscending(xs[1..], keep);
      FilterKeeps(xs[1..], keep);
      var rest := Filter(xs[1..], keep);
      if keep(xs[0]) {
        var r := [xs[0]] + rest;
        forall i, j | 0 <= i < j < |r| ensures r[i] < r[j] {
          if i == 0 {
            assert r[j] in xs[1..];
          }
        }
      }
    }
  }

  /** Which pages are listed: with more than seven pages, exactly page 1, the
      last page and the pages next to the current one. */
  lemma PageNumbersMembers(totalPages: nat, current: int, page: int)
    ensures page in PageNumbers(totalPages, current) <==>
      1 <= page <= totalPages && (totalPages <= 7 || page == 1 || page == totalPages || Abs(page - current) <= 1)
  {
    FilterKeeps(OneTo(totalPages), page => page != 1 && page != totalPages && Abs(page - current) <= 1);
    if 1 <= page <= totalPages {
      assert OneTo(totalPages)[page - 1] == page;
    }
  }

  /** The buttons are in strictly increasing order, lie between 1 and the
      last page, and always include the current page. */
  lemma PageNumbersOrdered(totalPages: nat, current: int)
    requires 1 <= current <= totalPages
    ensures Ascending(PageNumbers(totalPages, current))
    ensures forall p :: p in PageNumbers(totalPages, current) ==> 1 <= p <= totalPages
    ensures current in PageNumbers(totalPages, current)
  {
    forall p ensures p in PageNumbers(totalPages, current) ==> 1 <= p <= totalPages {
      PageNumbersMembers(totalPages, current, p);
    }
    PageNumbersMembers(totalPages, current, current);
    if totalPages > 7 {
      WindowAscending(totalPages, current);
    }
  }

  lemma WindowAscending(totalPages: nat, current: int)
    requires totalPages > 7
    ensures Ascending([1] + Neighbours(totalPages, current) + [totalPages])
  {
    var keep := page => page != 1 && page != totalPages && Abs(page - current) <= 1;
    var mid := Neighbours(totalPages, current);
    assert Ascending(OneTo(totalPages));
    FilterAscending(OneTo(totalPages), keep);
    FilterKeeps(OneTo(totalPages), keep);
    assert forall x :: x in mid ==> 1 < x < totalPages;
    var r := [1] + mid + [totalPages];
    forall i, j | 0 <= i < j < |r| ensures r[i] < r[j] {
      if 0 < i && j < |r| - 1 {
        assert r[i] == mid[i - 1] && r[j] == mid[j - 1];
      } else if 0 < i {
        assert r[i] in mid;
      } else if j < |r| - 1 {
        assert r[j] in mid;
      }
    }
  }

  /** Each ellipsis is drawn exactly when a page on its side of the current
      page is left out of the list. */
  lemma GapsMarkSkippedPages(totalPages: nat, current: int)
    requires 1 <= current <= totalPages
    ensures LeftGap(totalPages, current) <==>
      exists p :: 1 < p < current && p !in PageNumbers(totalPages, current)
    ensures RightGap(totalPages, current) <==>
      exists p :: current < p < totalPages && p !in PageNumbers(totalPages, current)
  {
    var pages := PageNumbers(totalPages, current);
    if LeftGap(totalPages, current) {
      PageNumbersMembers(totalPages, current, 2);
    }
    if exists p :: 1 < p < current && p !in pages {
      var p :| 1 < p < current && p !in pages;
      PageNumbersMembers(totalPages, current, p);
    }
    if RightGap(totalPages, current) {
      PageNumbersMembers(totalPages, current, totalPages - 1);
    }
    if exists p :: current < p < totalPages && p !in pages {
      var p :| current < p < totalPages && p !in pages;
      PageNumbersMembers(totalPages, current, p);
    }
  }

  // ----------------------------------------------------------------- state

  class Insights {
    const posts: seq<BlogPost>
    var activeCategory: string
    var searchTerm: string
    var currentPage: nat

    function Matching(): seq<BlogPost>
      reads this
    {
      Filtered(posts, activeCategory, searchTerm)
    }

    function PageCount(): nat
      reads this
    {
      TotalPages(|Matching()|)
    }

    /** The current page is a page of the list (page 1 when the list is
        empty). */
    ghost predicate Valid()
      reads this
    {
      1 <= currentPage && (currentPage <= PageCount() || currentPage == 1)
    }

    /** `paginatedPosts` */
    function Shown(): (r: seq<BlogPost>)
      requires Valid()
      reads this
      ensures |r| <= PostsPerPage && |r| <= |Matching()|
      ensures Matching() != [] ==> r != []
    {
      Page(Matching(), currentPage)
    }

    constructor (posts: seq<BlogPost>)
      ensures this.posts == posts && activeCategory == AllCategories && searchTerm == ""
      ensures currentPage == 1 && Valid()
    {
      this.posts := posts;
      activeCategory := AllCategories;
      searchTerm := "";
      currentPage := 1;
    }

    /** A category button: the category changes and, when it really changed,
        the reset effect returns to page 1. */
    method SelectCategory(category: string)
      requires Valid()
      modifies this`activeCategory, this`currentPage
      ensures Valid() && activeCategory == category && unchanged(this`searchTerm)
      ensures currentPage == if category != old(activeCategory) then 1 else old(currentPage)
    {
      if category != activeCategory {
        activeCategory := category;
        currentPage := 1;
      }
    }

    /** Typing in the search box (or "Clear search", which types the empty
        text): the same reset. */
    method TypeSearch(term: string)
      requires Valid()
      modifies this`searchTerm, this`currentPage
      ensures Valid() && searchTerm == term && unchanged(this`activeCategory)
      ensures currentPage == if term != old(searchTerm) then 1 else old(currentPage)
    {
      if term != searchTerm {
        searchTerm := term;
        currentPage := 1;
      }
    }

    /** `handlePreviousPage`: one page back, never below page 1. */
    method PreviousPage()
      requires Valid()
      modifies this`currentPage
      ensures Valid()
      ensures currentPage == if old(currentPage) > 1 then old(currentPage) - 1 else 1
    {
      currentPage := if currentPage - 1 > 1 then currentPage - 1 else 1;
    }

    /** `handleNextPage`: one page on, never past the last page. The button
        exists only while the controls are drawn. */
    method NextPage()
      requires Valid() && ControlsShown(|Matching()|)
      modifies this`currentPage
      ensures Valid() && currentPage <= PageCount()
      ensures currentPage == if old(currentPage) < PageCount() then old(currentPage) + 1 else PageCount()
    {
      var total := PageCount();
      currentPage := if currentPage + 1 < total then currentPage + 1 else total;
    }

    /** A page-number button: that page becomes current. */
    method GoToPage(page: int)
      requires Valid() && ControlsShown(|Matching()|)
      requires page in PageNumbers(PageCount(), currentPage)
      modifies this`currentPage
      ensures Valid() && currentPage == page
    {
      PageNumbersMembers(PageCount(), currentPage, page);
      currentPage := page;
    }
  }
}

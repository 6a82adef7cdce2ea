/**
 * The post listing page (blog.js): the search and category filter over the
 * loaded index, the card list it renders, and the filter buttons.
 */
module Blog {
  import opened Common
  import opened Text

  // ---------------------------------------------------------------------
  // Loading the index

  const LoadFailedMessage := "Failed to load posts.json"

  /** The grid's content after any failure while starting the page. */
  const LoadFailedHtml := "<div class=\"error\">Blog failed to load. Check posts.json path.</div>"

  /** `loadPosts`: a response that is not ok is an error; otherwise its body is the index. */
  function LoadPosts(res: Response<seq<Post>>): (r: Result<seq<Post>>)
    ensures r.Failure? <==> !res.ok
    ensures r.Failure? ==> r.message == LoadFailedMessage
    ensures r.Success? ==> r.value == res.body
  {
    if !res.ok then Failure(LoadFailedMessage) else Success(res.body)
  }

  // ---------------------------------------------------------------------
  // The filter

  /** `(search?.value || "").trim().toLowerCase()`; an absent search box reads as "". */
  function NormalizeQuery(search: Option<string>): (r: string)
    ensures r == "" <==> AllSpace(search.GetOr(""))
  {
    TrimEmptyIffBlank(search.GetOr(""));
    Lower(Trim(search.GetOr("")))
  }

  function TagsOf(p: Post): seq<string> {
    p.tags.GetOr([])
  }

  /** A post's searchable fields joined by single spaces, before lower-casing. */
  function SearchText(p: Post): string {
    p.category + " " + p.title + " " + p.excerpt + " " + Join(TagsOf(p), " ")
  }

  /** The text `apply` searches: the joined fields, lower-cased. */
  function Haystack(p: Post): string {
    Lower(SearchText(p))
  }

  predicate MatchesQuery(p: Post, q: string) {
    q == "" || Contains(Haystack(p), q)
  }

  predicate MatchesCategory(p: Post, active: string) {
    active == "all" || p.category == active
  }

  predicate Keep(p: Post, q: string, active: string) {
    MatchesQuery(p, q) && MatchesCategory(p, active)
  }

  /** `Array.prototype.filter` over posts. */
  function Filter(posts: seq<Post>, keep: Post -> bool): seq<Post> {
    if posts == [] then []
    else (if keep(posts[0]) then [posts[0]] else []) + Filter(posts[1..], keep)
  }

  /** `a` can be obtained from `b` by deleting elements, without reordering. */
  ghost predicate IsSubsequence(a: seq<Post>, b: seq<Post>)
    decreases |b|
  {
    a == [] || (b != [] && ((a[0] == b[0] && IsSubsequence(a[1..], b[1..])) || IsSubsequence(a, b[1..])))
  }

  /** Filtering keeps the original order: the result is a subsequence of the input. */
  lemma {:induction false} FilterIsSubsequence(posts: seq<Post>, keep: Post -> bool)
    ensures IsSubsequence(Filter(posts, keep), posts)
  {
    if posts != [] {
      var r, rest := Filter(posts, keep), Filter(posts[1..], keep);
      FilterIsSubsequence(posts[1..], keep);
      if keep(posts[0]) {
        assert r == [posts[0]] + rest;
        assert r[0] == posts[0] && r[1..] == rest;
      } else {
        assert r == rest;
      }
    }
  }

  /**
   * Nothing is duplicated or invented: a kept post occurs in the result as
   * often as in the input, any other post not at all.
   */
  lemma {:induction false} FilterCounts(posts: seq<Post>, keep: Post -> bool, p: Post)
    ensures multiset(Filter(posts, keep))[p] == if keep(p) then multiset(posts)[p] else 0
  {
    if posts != [] {
      FilterCounts(posts[1..], keep, p);
      assert posts == [posts[0]] + posts[1..];
    }
  }

  /** Membership in the result is membership in the input plus passing the predicate. */
  lemma FilterContains(posts: seq<Post>, keep: Post -> bool, p: Post)
    ensures p in Filter(posts, keep) <==> p in posts && keep(p)
  {
    FilterCounts(posts, keep, p);
  }

  /** When every post passes, nothing is dropped. */
  lemma {:induction false} FilterKeepsAll(posts: seq<Post>, keep: Post -> bool)
    requires forall i :: 0 <= i < |posts| ==> keep(posts[i])
    ensures Filter(posts, keep) == posts
  {
    if posts != [] {
      FilterKeepsAll(posts[1..], keep);
    }
  }

  /** The predicate `apply` hands to `posts.filter`. */
  function Kept(q: string, active: string): Post -> bool {
    p => Keep(p, q, active)
  }

  /** The list `apply` renders for normalised query `q` and active filter `active`. */
  function Filtered(posts: seq<Post>, q: string, active: string): seq<Post> {
    Filter(posts, Kept(q, active))
  }

  /** A post is in the filtered list exactly when it is in the index and passes both tests. */
  lemma FilterMembership(posts: seq<Post>, q: string, active: string, p: Post)
    ensures p in Filtered(posts, q, active) <==> p in posts && MatchesQuery(p, q) && MatchesCategory(p, active)
  {
    FilterContains(posts, Kept(q, active), p);
  }

  /** Every post of the filtered list passes both tests. */
  lemma {:induction false} FilteredPass(posts: seq<Post>, q: string, active: string)
    ensures forall i :: 0 <= i < |Filtered(posts, q, active)| ==> Keep(Filtered(posts, q, active)[i], q, active)
  {
    forall i | 0 <= i < |Filtered(posts, q, active)|
      ensures Keep(Filtered(posts, q, active)[i], q, active)
    {
      FilterMembership(posts, q, active, Filtered(posts, q, active)[i]);
    }
  }

  /** Filtering twice with the same query and category gives the list filtering once gives. */
  lemma FilterIdempotent(posts: seq<Post>, q: string, active: string)
    ensures Filtered(Filtered(posts, q, active), q, active) == Filtered(posts, q, active)
  {
    FilteredPass(posts, q, active);
    FilterKeepsAll(Filtered(posts, q, active), Kept(q, active));
  }

  /** A blank query (absent, empty or all whitespace) under "all" returns the index unchanged. */
  lemma BlankQueryShowsAll(posts: seq<Post>, search: Option<string>)
    requires search.Some? ==> AllSpace(search.value)
    ensures NormalizeQuery(search) == ""
    ensures Filtered(posts, NormalizeQuery(search), "all") == posts
  {
    TrimEmptyIffBlank(search.GetOr(""));
    FilterKeepsAll(posts, Kept("", "all"));
  }

  /** Queries that differ only in letter case normalise to the same string, so they filter alike. */
  lemma QueryIgnoresCase(s1: string, s2: string, posts: seq<Post>, active: string)
    requires Lower(s1) == Lower(s2)
    ensures NormalizeQuery(Some(s1)) == NormalizeQuery(Some(s2))
    ensures Filtered(posts, NormalizeQuery(Some(s1)), active) == Filtered(posts, NormalizeQuery(Some(s2)), active)
  {
    TrimLowerCommute(s1);
    TrimLowerCommute(s2);
  }

  /** A post's searchable text is already lower-case, like the normalised query. */
  lemma HaystackIsLowerCase(p: Post)
    ensures Lower(Haystack(p)) == Haystack(p)
  {
    LowerIdempotent(SearchText(p));
  }

  /** A missing `tags` field searches like an empty list. */
  lemma MissingTagsAreEmpty(p: Post)
    requires p.tags.None?
    ensures Haystack(p) == Haystack(p.(tags := Some([])))
  {
  }

  /** Any piece of a post's searchable text, typed in any letter case, matches the post. */
  lemma SubstringMatches(p: Post, needle: string)
    requires Contains(SearchText(p), needle)
    ensures MatchesQuery(p, Lower(needle))
  {
    var i: nat :| OccursAt(SearchText(p), needle, i);
    OccursLower(SearchText(p), needle, i);
  }

  /** Fields are joined by single spaces, so a query may run from the category into the title. */
  lemma QuerySpansFields(p: Post)
    ensures MatchesQuery(p, Lower(p.category + " " + p.title))
  {
    var head := p.category + " " + p.title;
    var tail := " " + p.excerpt + " " + Join(TagsOf(p), " ");
    assert SearchText(p) == head + tail;
    assert OccursAt(head, head, 0);
    OccursInLeft(head, tail, head, 0);
    OccursLower(head + tail, head, 0);
  }

  /** Every tag of a post, in any letter case, is found by the search. */
  lemma QueryFindsTag(p: Post, k: nat)
    requires p.tags.Some? && k < |p.tags.value|
    ensures MatchesQuery(p, Lower(p.tags.value[k]))
  {
    var head := p.category + " " + p.title + " " + p.excerpt + " ";
    var joined := Join(TagsOf(p), " ");
    JoinHasPart(TagsOf(p), " ", k);
    var i: nat :| OccursAt(joined, p.tags.value[k], i);
    OccursInRight(head, joined, p.tags.value[k], i);
    OccursLower(head + joined, p.tags.value[k], |head| + i);
  }

  // ---------------------------------------------------------------------
  // Cards

  /** The fields a card interpolates into its markup. */
  datatype Card = Card(href: string, category: string, date: string, title: string, excerpt: string)

  const DetailPrefix := "./post.html?slug="

  /** `postCard`; `encode` stands for `encodeURIComponent` and `formatDate` for the host's date formatting. */
  function PostCard(p: Post, encode: string -> string, formatDate: string -> string): Card {
    Card(DetailPrefix + encode(p.slug), p.category, formatDate(p.date), p.title, p.excerpt)
  }

  /** `list.map(postCard)`. */
  function Cards(list: seq<Post>, encode: string -> string, formatDate: string -> string): (r: seq<Card>)
    ensures |r| == |list|
  {
    if list == [] then [] else [PostCard(list[0], encode, formatDate)] + Cards(list[1..], encode, formatDate)
  }

  /** One card per post, in list order, each linking to its post's detail page. */
  lemma {:induction false} CardsOnePerPost(list: seq<Post>, encode: string -> string, formatDate: string -> string)
    ensures |Cards(list, encode, formatDate)| == |list|
    ensures forall k :: 0 <= k < |list| ==>
      && Cards(list, encode, formatDate)[k].href == DetailPrefix + encode(list[k].slug)
      && Cards(list, encode, formatDate)[k].category == list[k].category
      && Cards(list, encode, formatDate)[k].date == formatDate(list[k].date)
      && Cards(list, encode, formatDate)[k].title == list[k].title
      && Cards(list, encode, formatDate)[k].excerpt == list[k].excerpt
  {
    if list != [] {
      CardsOnePerPost(list[1..], encode, formatDate);
    }
  }

  /** With an injective encoding, posts with different slugs get different links. */
  lemma DistinctSlugsDistinctLinks(list: seq<Post>, encode: string -> string, formatDate: string -> string, i: nat, j: nat)
    requires forall a, b :: encode(a) == encode(b) ==> a == b
    requires i < |list| && j < |list| && list[i].slug != list[j].slug
    ensures |Cards(list, encode, formatDate)| == |list|
    ensures Cards(list, encode, formatDate)[i].href != Cards(list, encode, formatDate)[j].href
  {
    CardsOnePerPost(list, encode, formatDate);
    var ei, ej := encode(list[i].slug), encode(list[j].slug);
    assert (DetailPrefix + ei)[|DetailPrefix|..] == ei;
    assert (DetailPrefix + ej)[|DetailPrefix|..] == ej;
  }

  // ---------------------------------------------------------------------
  // Filter buttons

  /** `Array.prototype.findIndex`-style search for the first button with a given `data-filter`. */
  function FirstNamed(filters: seq<string>, name: string): (r: Option<nat>)
    ensures r.None? <==> name !in filters
    ensures r.Some? ==> r.value < |filters| && filters[r.value] == name
    ensures r.Some? ==> forall i :: 0 <= i < r.value ==> filters[i] != name
  {
    if filters == [] then None
    else if filters[0] == name then Some(0)
    else match FirstNamed(filters[1..], name)
      case None => None
      case Some(i) => Some(i + 1)
  }

  /**
   * `document.querySelector("[data-filter].active")?.dataset.filter || "all"`:
   * the filter of the first active button, or "all" when there is none or its
   * filter is the empty string.
   */
  function SelectedFilter(filters: seq<string>, active: seq<bool>): (r: string)
    requires |active| == |filters|
    ensures r == "all" || r in filters
    ensures r != ""
  {
    if filters == [] then "all"
    else if active[0] then (if filters[0] == "" then "all" else filters[0])
    else SelectedFilter(filters[1..], active[1..])
  }

  /** With no button active the filter defaults to "all". */
  lemma {:induction false} NoActiveMeansAll(filters: seq<string>, active: seq<bool>)
    requires |active| == |filters|
    requires forall i :: 0 <= i < |active| ==> !active[i]
    ensures SelectedFilter(filters, active) == "all"
  {
    if filters != [] {
      NoActiveMeansAll(filters[1..], active[1..]);
    }
  }

  /** When only button `k` is active, the filter is button `k`'s. */
  lemma {:induction false} OnlyActiveSelected(filters: seq<string>, active: seq<bool>, k: nat)
    requires |active| == |filters| && k < |filters|
    requires forall i :: 0 <= i < |active| ==> active[i] == (i == k)
    ensures SelectedFilter(filters, active) == if filters[k] == "" then "all" else filters[k]
  {
    if k > 0 {
      OnlyActiveSelected(filters[1..], active[1..], k - 1);
    }
  }

  /** The start-up default: the first button whose filter is "all" gains the active class. */
  function WithDefault(filters: seq<string>, active: seq<bool>): (r: seq<bool>)
    requires |active| == |filters|
    ensures |r| == |filters|
    ensures forall i :: 0 <= i < |r| && r[i] != active[i] ==> r[i] && filters[i] == "all"
    ensures "all" in filters ==> exists i :: 0 <= i < |r| && r[i] && filters[i] == "all"
  {
    match FirstNamed(filters, "all")
    case None => active
    case Some(i) => active[i := true]
  }

  /** Starting from no active button, the default leaves the filter at "all". */
  lemma DefaultSelectsAll(filters: seq<string>, active: seq<bool>)
    requires |active| == |filters|
    requires forall i :: 0 <= i < |active| ==> !active[i]
    ensures |WithDefault(filters, active)| == |filters|
    ensures SelectedFilter(filters, WithDefault(filters, active)) == "all"
  {
    match FirstNamed(filters, "all")
    case None =>
      NoActiveMeansAll(filters, active);
    case Some(i) =>
      OnlyActiveSelected(filters, active[i := true], i);
  }

  /** The first page render (all posts) is what `apply` would show for a blank query under "all". */
  lemma InitialViewIsUnfiltered(posts: seq<Post>, encode: string -> string, formatDate: string -> string)
    ensures Cards(posts, encode, formatDate) == Cards(Filtered(posts, NormalizeQuery(None), "all"), encode, formatDate)
  {
    BlankQueryShowsAll(posts, None);
  }

  // ---------------------------------------------------------------------
  // Worked scenarios

  const Sample := Post("a", "Hello", "x", "2024-01-05", "world", None)

  /** An empty query under "all" renders one card, linking to `post.html?slug=a`. */
  lemma SampleShowsOneCard(encode: string -> string, formatDate: string -> string)
    requires encode("a") == "a"
    ensures Cards(Filtered([Sample], NormalizeQuery(Some("")), "all"), encode, formatDate)
      == [Card("./post.html?slug=a", "x", formatDate("2024-01-05"), "Hello", "world")]
  {
    BlankQueryShowsAll([Sample], Some(""));
    assert DetailPrefix + encode(Sample.slug) == "./post.html?slug=a";
    assert Cards([Sample], encode, formatDate) == [PostCard(Sample, encode, formatDate)] + Cards([], encode, formatDate);
  }

  /** A query holding a letter that appears in no field, in either case, matches nothing. */
  lemma AbsentLetterNeverMatches(p: Post, q: string, c: char)
    requires 'a' <= c <= 'z' && c in q
    requires c !in SearchText(p) && (c as int - 32) as char !in SearchText(p)
    ensures !MatchesQuery(p, q)
  {
    var text, hay := SearchText(p), Haystack(p);
    var k :| 0 <= k < |q| && q[k] == c;
    LowerAt(text);
    forall i: nat
      ensures !OccursAt(hay, q, i)
    {
      if i + |q| <= |hay| {
        assert text[i + k] in text;
        assert hay[i..i + |q|][k] == hay[i + k] != c;
      }
    }
  }

  lemma SampleLacksZzz()
    ensures !MatchesQuery(Sample, "zzz")
  {
    assert SearchText(Sample) == "x Hello world ";
    AbsentLetterNeverMatches(Sample, "zzz", 'z');
  }

  lemma ZzzIsNormal()
    ensures NormalizeQuery(Some("zzz")) == "zzz"
  {
    assert Trim("zzz") == "zzz";
    LowerAt("zzz");
  }

  /** The query "zzz" matches nothing in the sample index. */
  lemma SampleRejectsZzz()
    ensures Filtered([Sample], NormalizeQuery(Some("zzz")), "all") == []
  {
    ZzzIsNormal();
    SampleLacksZzz();
    assert !Kept("zzz", "all")(Sample);
    assert Filter([Sample], Kept("zzz", "all")) == Filter([], Kept("zzz", "all"));
  }

  // ---------------------------------------------------------------------
  // The page

  /** The content of `#postsGrid`. */
  datatype Grid = Unrendered | Listing(cards: seq<Card>) | Notice(html: string)

  class BlogPage {
    /** The `data-filter` value of each filter button, in document order. */
    const filters: seq<string>
    /** Whether each filter button carries the `active` class. */
    const active: array<bool>
    /** `encodeURIComponent` and the host's date formatting. */
    const encode: string -> string
    const formatDate: string -> string
    /** The value of the search box, `None` when the page has none. */
    var search: Option<string>
    var posts: seq<Post>
    var grid: Grid
    /** Whether `main` has registered the click and input listeners. */
    var listening: bool

    ghost predicate Valid()
      reads this
    {
      active.Length == |filters|
    }

    function ActiveFilter(): string
      reads this, active
      requires Valid()
    {
      SelectedFilter(filters, active[..])
    }

    constructor (filters: seq<string>, classes: seq<bool>, search: Option<string>,
                 encode: string -> string, formatDate: string -> string)
      requires |classes| == |filters|
      ensures Valid() && fresh(active)
      ensures this.filters == filters && active[..] == classes
      ensures this.search == search && this.encode == encode && this.formatDate == formatDate
      ensures posts == [] && grid == Unrendered && !listening
    {
      this.filters := filters;
      this.active := new bool[|classes|](i requires 0 <= i < |classes| => classes[i]);
      this.search := search;
      this.encode := encode;
      this.formatDate := formatDate;
      posts := [];
      grid := Unrendered;
      listening := false;
    }

    /** `render`: replace the grid with one card per post of `list`. */
    method Render(list: seq<Post>)
      modifies this`grid
      ensures grid == Listing(Cards(list, encode, formatDate))
    {
      grid := Listing(Cards(list, encode, formatDate));
    }

    /** `apply`: render the loaded posts that pass the current query and category. */
    method Apply()
      requires Valid()
      modifies this`grid
      ensures grid == Listing(Cards(Filtered(posts, NormalizeQuery(search), ActiveFilter()), encode, formatDate))
    {
      var q := NormalizeQuery(search);
      var category := SelectedFilter(filters, active[..]);
      Render(Filtered(posts, q, category));
    }

    /** The user types into the search box; the input listener re-applies the filter. */
    method OnInput(value: string)
      requires Valid() && search.Some?
      modifies this`search, this`grid
      ensures search == Some(value)
      ensures listening ==> grid == Listing(Cards(Filtered(posts, NormalizeQuery(search), ActiveFilter()), encode, formatDate))
      ensures !listening ==> grid == old(grid)
    {
      search := Some(value);
      if listening {
        Apply();
      }
    }

    /** A click on filter button `k`: it becomes the only active button and the filter is re-applied. */
    method Click(k: nat)
      requires Valid() && k < |filters|
      modifies active, this`grid
      ensures listening ==> forall i :: 0 <= i < active.Length ==> active[i] == (i == k)
      ensures listening ==> ActiveFilter() == if filters[k] == "" then "all" else filters[k]
      ensures listening ==> grid == Listing(Cards(Filtered(posts, NormalizeQuery(search), ActiveFilter()), encode, formatDate))
      ensures !listening ==> active[..] == old(active[..]) && grid == old(grid)
    {
      if !listening {
        return;
      }
      for i := 0 to active.Length
        invariant forall j :: 0 <= j < i ==> !active[j]
      {
        active[i] := false;
      }
      active[k] := true;
      OnlyActiveSelected(filters, active[..], k);
      Apply();
    }

    /** `main`: load the index, register the listeners, mark the default button and render every post. */
    method Start(res: Response<seq<Post>>)
      requires Valid()
      modifies this`posts, this`grid, this`listening, active
      ensures !res.ok ==> grid == Notice(LoadFailedHtml) && posts == old(posts)
      ensures !res.ok ==> active[..] == old(active[..]) && listening == old(listening)
      ensures res.ok ==> posts == res.body && listening
      ensures res.ok ==> active[..] == WithDefault(filters, old(active[..]))
      ensures res.ok ==> grid == Listing(Cards(res.body, encode, formatDate))
    {
      match LoadPosts(res)
      case Failure(_) =>
        grid := Notice(LoadFailedHtml);
      case Success(loaded) =>
        posts := loaded;
        listening := true;
        var first := FirstNamed(filters, "all");
        if first.Some? {
          active[first.value] := true;
        }
        Render(posts);
    }
  }
}

/**
 * The post detail page (post.js): resolve `?slug=` against the index, fill
 * the header fields from the matching record, then inject the post's
 * pre-rendered HTML fragment; any failure ends in one error message.
 */
module PostPage {
  import opened Common

  const IndexUrl := "./posts.json"
  const MissingSlugMessage := "Missing ?slug="
  const IndexFailedMessage := "posts.json failed to load"
  const NotFoundMessage := "Post not found in posts.json"
  const TitlePrefix := "Decrypt \U{2014} "

  /** Where `loadPostHTML` fetches a post's body fragment. */
  function FragmentUrl(slug: string): string {
    "./posts/" + slug + ".html"
  }

  function MissingFragmentMessage(slug: string): string {
    "Missing: posts/" + slug + ".html"
  }

  /** What the top-level handler writes into `#postBody` for an error with message `message`. */
  function ErrorHtml(message: string): string {
    "<div style=\"color:#ffb4b4\">This post failed to load: " + message + "</div>"
  }

  /** `loadIndex`: a response that is not ok fails; otherwise its body is the index. */
  function LoadIndex(res: Response<seq<Post>>): (r: Result<seq<Post>>)
    ensures r.Failure? <==> !res.ok
    ensures r.Failure? ==> r.message == IndexFailedMessage
    ensures r.Success? ==> r.value == res.body
  {
    if !res.ok then Failure(IndexFailedMessage) else Success(res.body)
  }

  /** `loadPostHTML`: a response that is not ok fails, naming the missing fragment. */
  function LoadPostHtml(slug: string, res: Response<string>): (r: Result<string>)
    ensures r.Failure? <==> !res.ok
    ensures r.Failure? ==> r.message == MissingFragmentMessage(slug)
    ensures r.Success? ==> r.value == res.body
  {
    if !res.ok then Failure(MissingFragmentMessage(slug)) else Success(res.body)
  }

  /** `posts.find(p => p.slug === slug)`. */
  function Find(posts: seq<Post>, slug: string): (r: Option<Post>)
    ensures r.None? <==> forall i :: 0 <= i < |posts| ==> posts[i].slug != slug
    ensures r.Some? ==> r.value in posts && r.value.slug == slug
  {
    if posts == [] then None
    else if posts[0].slug == slug then Some(posts[0])
    else Find(posts[1..], slug)
  }

  /** The record found is the first one carrying the slug. */
  lemma {:induction false} FindReturnsFirst(posts: seq<Post>, slug: string, i: nat)
    requires i < |posts| && posts[i].slug == slug
    requires forall j :: 0 <= j < i ==> posts[j].slug != slug
    ensures Find(posts, slug) == Some(posts[i])
  {
    if i > 0 {
      FindReturnsFirst(posts[1..], slug, i - 1);
    }
  }

  /** With unique slugs, the lookup returns the one record that carries the slug. */
  lemma FindUnique(posts: seq<Post>, slug: string, i: nat)
    requires i < |posts| && posts[i].slug == slug
    requires forall j :: 0 <= j < |posts| && j != i ==> posts[j].slug != slug
    ensures Find(posts, slug) == Some(posts[i])
  {
    FindReturnsFirst(posts, slug, i);
  }

  /** The header fields `main` writes from the matched record. */
  datatype Header = Header(documentTitle: string, category: string, date: string, title: string, excerpt: string)

  function HeaderOf(meta: Post, formatDate: string -> string): Header {
    Header(TitlePrefix + meta.title, meta.category, formatDate(meta.date), meta.title, meta.excerpt)
  }

  /**
   * Where `main` ends: the URLs it fetched, the header it wrote (if it got that
   * far) and the final `#postBody` content.
   */
  datatype Resolution = Resolution(requests: seq<string>, header: Option<Header>, body: string)

  /**
   * `main` followed by its `.catch` handler. `slugParam` is `qs("slug")`,
   * `index` is the posts.json response and `fetchFragment` answers each
   * fragment URL.
   */
  function Resolve(slugParam: Option<string>, index: Response<seq<Post>>,
                   fetchFragment: string -> Response<string>, formatDate: string -> string): Resolution
  {
    if slugParam.None? || slugParam.value == "" then
      Resolution([], None, ErrorHtml(MissingSlugMessage))
    else
      var slug := slugParam.value;
      match LoadIndex(index)
      case Failure(m) => Resolution([IndexUrl], None, ErrorHtml(m))
      case Success(posts) =>
        match Find(posts, slug)
        case None => Resolution([IndexUrl], None, ErrorHtml(NotFoundMessage))
        case Some(meta) =>
          var url := FragmentUrl(slug);
          match LoadPostHtml(slug, fetchFragment(url))
          case Failure(m) => Resolution([IndexUrl, url], Some(HeaderOf(meta, formatDate)), ErrorHtml(m))
          case Success(html) => Resolution([IndexUrl, url], Some(HeaderOf(meta, formatDate)), html)
  }

  /** A missing or empty slug fails before anything is fetched. */
  lemma MissingSlugFailsFirst(slugParam: Option<string>, index: Response<seq<Post>>,
                              fetchFragment: string -> Response<string>, formatDate: string -> string)
    requires slugParam.None? || slugParam.value == ""
    ensures Resolve(slugParam, index, fetchFragment, formatDate)
      == Resolution([], None, "<div style=\"color:#ffb4b4\">This post failed to load: Missing ?slug=</div>")
  {
  }

  /** An index response that is not ok fails after fetching only the index. */
  lemma IndexFailureReported(slug: string, index: Response<seq<Post>>,
                             fetchFragment: string -> Response<string>, formatDate: string -> string)
    requires slug != "" && !index.ok
    ensures Resolve(Some(slug), index, fetchFragment, formatDate)
      == Resolution([IndexUrl], None, ErrorHtml("posts.json failed to load"))
  {
  }

  /** An unknown slug fails with "not found" and no fragment is requested. */
  lemma UnknownSlugFetchesNoFragment(slug: string, index: Response<seq<Post>>,
                                     fetchFragment: string -> Response<string>, formatDate: string -> string)
    requires slug != "" && index.ok
    requires forall i :: 0 <= i < |index.body| ==> index.body[i].slug != slug
    ensures Resolve(Some(slug), index, fetchFragment, formatDate).requests == [IndexUrl]
    ensures Resolve(Some(slug), index, fetchFragment, formatDate).header == None
    ensures Resolve(Some(slug), index, fetchFragment, formatDate).body == ErrorHtml("Post not found in posts.json")
  {
  }

  /**
   * Once the first record with the slug is found, the header is filled from
   * it verbatim and `./posts/<slug>.html` is requested; the body is then the
   * fragment text, or the "Missing" error when that response is not ok.
   */
  lemma FoundPostIsRendered(slug: string, index: Response<seq<Post>>, i: nat,
                            fetchFragment: string -> Response<string>, formatDate: string -> string)
    requires slug != "" && index.ok
    requires i < |index.body| && index.body[i].slug == slug
    requires forall j :: 0 <= j < i ==> index.body[j].slug != slug
    ensures Resolve(Some(slug), index, fetchFragment, formatDate).requests == [IndexUrl, "./posts/" + slug + ".html"]
    ensures Resolve(Some(slug), index, fetchFragment, formatDate).header == Some(Header(
      "Decrypt \U{2014} " + index.body[i].title, index.body[i].category, formatDate(index.body[i].date),
      index.body[i].title, index.body[i].excerpt))
    ensures fetchFragment("./posts/" + slug + ".html").ok ==>
      Resolve(Some(slug), index, fetchFragment, formatDate).body == fetchFragment("./posts/" + slug + ".html").body
    ensures !fetchFragment("./posts/" + slug + ".html").ok ==>
      Resolve(Some(slug), index, fetchFragment, formatDate).body == ErrorHtml("Missing: posts/" + slug + ".html")
  {
    FindReturnsFirst(index.body, slug, i);
  }

  /**
   * Every run ends either with the fetched fragment as the body, after both
   * fetches succeeded, or with one of the four error messages.
   */
  lemma OutcomeIsFragmentOrError(slugParam: Option<string>, index: Response<seq<Post>>,
                                 fetchFragment: string -> Response<string>, formatDate: string -> string)
    ensures var r := Resolve(slugParam, index, fetchFragment, formatDate);
      || (slugParam.Some? && r.requests == [IndexUrl, FragmentUrl(slugParam.value)]
          && fetchFragment(FragmentUrl(slugParam.value)).ok && r.body == fetchFragment(FragmentUrl(slugParam.value)).body)
      || r.body == ErrorHtml(MissingSlugMessage)
      || r.body == ErrorHtml(IndexFailedMessage)
      || r.body == ErrorHtml(NotFoundMessage)
      || (slugParam.Some? && r.body == ErrorHtml(MissingFragmentMessage(slugParam.value)))
  {
  }

  /** The detail page's fields that `main` and its error handler write. */
  class PostDocument {
    /** `document.title`. */
    var title: string
    /** `textContent` of `#postCategory`, `#postDate`, `#postTitle`, `#postExcerpt`. */
    var category: string
    var date: string
    var postTitle: string
    var excerpt: string
    /** `innerHTML` of `#postBody`. */
    var body: string
    /** The URLs fetched so far, in order. */
    var requests: seq<string>

    constructor (title: string, category: string, date: string, postTitle: string, excerpt: string, body: string)
      ensures this.title == title && this.category == category && this.date == date
      ensures this.postTitle == postTitle && this.excerpt == excerpt && this.body == body
      ensures requests == []
    {
      this.title := title;
      this.category := category;
      this.date := date;
      this.postTitle := postTitle;
      this.excerpt := excerpt;
      this.body := body;
      requests := [];
    }

    /** The `.catch` handler: show the error's message in the body. */
    method ShowError(message: string)
      modifies this`body
      ensures body == ErrorHtml(message)
    {
      body := ErrorHtml(message);
    }

    /** `main().catch(...)`, step by step, with each `throw` an early exit into `ShowError`. */
    method Start(slugParam: Option<string>, index: Response<seq<Post>>,
                fetchFragment: string -> Response<string>, formatDate: string -> string)
      modifies this
      ensures var r := Resolve(slugParam, index, fetchFragment, formatDate);
        && requests == old(requests) + r.requests
        && body == r.body
        && (r.header.None? ==>
              title == old(title) && category == old(category) && date == old(date)
              && postTitle == old(postTitle) && excerpt == old(excerpt))
        && (r.header.Some? ==>
              title == r.header.value.documentTitle && category == r.header.value.category
              && date == r.header.value.date && postTitle == r.header.value.title
              && excerpt == r.header.value.excerpt)
    {
      if slugParam.None? || slugParam.value == "" {
        ShowError(MissingSlugMessage);
        return;
      }
      var slug := slugParam.value;

      requests := requests + [IndexUrl];
      var loaded := LoadIndex(index);
      if loaded.Failure? {
        ShowError(loaded.message);
        return;
      }

      var meta := Find(loaded.value, slug);
      if meta.None? {
        ShowError(NotFoundMessage);
        return;
      }

      title := TitlePrefix + meta.value.title;
      category := meta.value.category;
      date := formatDate(meta.value.date);
      postTitle := meta.value.title;
      excerpt := meta.value.excerpt;

      var url := FragmentUrl(slug);
      requests := requests + [url];
      var html := LoadPostHtml(slug, fetchFragment(url));
      if html.Failure? {
        ShowError(html.message);
        return;
      }
      body := html.value;
    }
  }

  /** Asking for `?slug=missing` against the one-post sample index shows "not found" and fetches no fragment. */
  lemma MissingSlugScenario(fetchFragment: string -> Response<string>, formatDate: string -> string)
    ensures var index := Response(true, [Post("a", "Hello", "x", "2024-01-05", "world", None)]);
      var r := Resolve(Some("missing"), index, fetchFragment, formatDate);
      r.requests == [IndexUrl] && r.header.None? && r.body == ErrorHtml(NotFoundMessage)
  {
    var index := Response(true, [Post("a", "Hello", "x", "2024-01-05", "world", None)]);
    UnknownSlugFetchesNoFragment("missing", index, fetchFragment, formatDate);
  }
}

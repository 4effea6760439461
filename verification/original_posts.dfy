/** The list of original posts: paged and searchable, with delete and a one-at-a-time
    AI rewrite whose button is disabled for posts already converted. */
module OriginalPostList {
  import opened Seqs
  import opened JsText
  import Endpoints

  /** A post with the fields the list reads; `status` may be missing. */
  datatype Post = Post(id: string, title: string, status: Option<string>)

  function PostId(post: Post): string {
    post.id
  }

  /** A post counts as converted when its status is one of the two converted ones. */
  predicate IsConverted(post: Post) {
    post.status == Some("Converted Draft") || post.status == Some("Published Converted")
  }

  /** The convert button is disabled for the post being rewritten and for converted
      posts. */
  predicate ConvertDisabled(rewritingId: Option<string>, post: Post) {
    rewritingId == Some(post.id) || IsConverted(post)
  }

  /** A rewrite is in flight: `rewritingId` is set to a non-empty id. */
  predicate InFlight(rewritingId: Option<string>) {
    rewritingId.Some? && rewritingId.value != ""
  }

  /** `handleConvert`'s guard and dialog: the rewrite address, or nothing while a
      rewrite is in flight or when the dialog is declined. The handler does not look
      at the post's status. */
  function ConvertStep(rewritingId: Option<string>, post: Post, confirmed: bool): (request: Option<string>)
    ensures request.Some? <==> !InFlight(rewritingId) && confirmed
    ensures request.Some? ==> request.value == Endpoints.OriginalPosts + "/rewrite/" + post.id
  {
    if InFlight(rewritingId) then None
    else if !confirmed then None
    else Some(Endpoints.OriginalPosts + "/rewrite/" + post.id)
  }

  /** `rewritingId` after a convert step. */
  function AfterConvertStep(rewritingId: Option<string>, post: Post, confirmed: bool): Option<string> {
    if ConvertStep(rewritingId, post, confirmed).Some? then Some(post.id) else rewritingId
  }

  /** One rewrite at a time: once a convert of `post` has started, its own button is
      disabled and every further convert, of any post, sends nothing until the
      rewrite finishes; once it finishes, a confirmed convert starts again. */
  lemma OneRewriteAtATime(rewritingId: Option<string>, post: Post, confirmed: bool,
                          other: Post, confirmedAgain: bool)
    requires post.id != ""
    ensures ConvertStep(rewritingId, post, confirmed).Some? ==>
      var after := AfterConvertStep(rewritingId, post, confirmed);
      ConvertDisabled(after, post) && ConvertStep(after, other, confirmedAgain).None?
    ensures ConvertStep(None, other, true).Some?
  {
    if ConvertStep(rewritingId, post, confirmed).Some? {
      assert AfterConvertStep(rewritingId, post, confirmed) == Some(post.id);
      assert InFlight(Some(post.id));
    }
  }

  /** An empty id is falsy, so the handler's guard lets a second rewrite start while
      a post with an empty id is being rewritten. */
  lemma EmptyIdDoesNotBlock(post: Post, other: Post)
    requires post.id == ""
    ensures ConvertStep(AfterConvertStep(None, post, true), other, true).Some?
  {
    assert AfterConvertStep(None, post, true) == Some("");
  }

  /** Only the button keeps converted posts from being rewritten: an enabled button
      belongs to an unconverted post that is not being rewritten, while the handler
      itself would rewrite a converted post. */
  lemma ConvertButtonRule(rewritingId: Option<string>, post: Post)
    ensures !ConvertDisabled(rewritingId, post) ==> !IsConverted(post) && rewritingId != Some(post.id)
    ensures IsConverted(post) ==> ConvertDisabled(rewritingId, post) && ConvertStep(None, post, true).Some?
  {
  }

  /** The request address without the search part. */
  function PageUrl(page: int): string {
    Endpoints.OriginalPosts + "?pageNumber=" + IntToString(page)
  }

  /** `fetchPosts`'s address: the page always, the keyword only for a non-empty term. */
  function PostsQuery(page: int, searchTerm: string): string {
    PageUrl(page) + if searchTerm != "" then "&keyword=" + searchTerm else ""
  }

  lemma IntToStringHasNoAmpersand(n: int)
    ensures '&' !in IntToString(n)
  {
    var r := IntToString(n);
    var digits := NatToString(if n >= 0 then n else -n);
    assert forall i :: 0 <= i < |digits| ==> digits[i] != '&';
    if n < 0 {
      assert r == "-" + digits;
    }
  }

  lemma PageUrlHasNoAmpersand(page: int)
    ensures '&' !in PageUrl(page)
  {
    IntToStringHasNoAmpersand(page);
    assert '&' !in Endpoints.OriginalPosts + "?pageNumber=";
  }

  /** Appending the optional keyword part to an address without `&`. */
  lemma KeywordPart(base: string, searchTerm: string)
    requires '&' !in base
    ensures Contains(base + if searchTerm != "" then "&keyword=" + searchTerm else "", "&keyword=")
            <==> searchTerm != ""
  {
    var url := base + if searchTerm != "" then "&keyword=" + searchTerm else "";
    if searchTerm == "" {
      assert url == base;
      NotContainsMissingChar(base, "&keyword=", '&');
    } else {
      assert url[|base|..|base| + 9] == "&keyword=";
      assert OccursAt(url, "&keyword=", |base|);
      ContainsAt(url, "&keyword=", |base|);
    }
  }

  /** The query names a keyword exactly when the search term is non-empty, and then
      the keyword is the whole term. */
  lemma PostsQueryKeyword(page: int, searchTerm: string)
    ensures Contains(PostsQuery(page, searchTerm), "&keyword=") <==> searchTerm != ""
    ensures searchTerm != "" ==> PostsQuery(page, searchTerm)[|PageUrl(page)| + 9..] == searchTerm
    ensures PostsQuery(page, searchTerm)[..|PageUrl(page)|] == PageUrl(page)
  {
    PageUrlHasNoAmpersand(page);
    KeywordPart(PageUrl(page), searchTerm);
  }

  /** `posts.filter(post => post._id !== id)`. */
  function WithoutPost(posts: seq<Post>, id: string): seq<Post> {
    WithoutKey(posts, PostId, id)
  }

  /** Deleting removes every post with that id and keeps all others in order. */
  lemma WithoutPostRemovesExactly(posts: seq<Post>, id: string)
    ensures forall i :: 0 <= i < |WithoutPost(posts, id)| ==> WithoutPost(posts, id)[i].id != id
    ensures forall i :: 0 <= i < |posts| && posts[i].id != id ==> posts[i] in WithoutPost(posts, id)
    ensures IsSubsequence(WithoutPost(posts, id), posts)
  {
    WithoutKeyProperties(posts, PostId, id);
  }

  /** Pagination shows only for more than one page. */
  predicate ShowsPagination(totalPages: int) {
    totalPages > 1
  }

  predicate PrevDisabled(page: int) {
    page == 1
  }

  predicate NextDisabled(page: int, totalPages: int) {
    page == totalPages
  }

  /** From a page within range, each enabled button leads to a page within range. */
  lemma StepsStayInRange(page: int, totalPages: int)
    requires 1 <= page <= totalPages
    ensures !PrevDisabled(page) ==> 1 <= page - 1 <= totalPages
    ensures !NextDisabled(page, totalPages) ==> 1 <= page + 1 <= totalPages
  {
  }

  /** The buttons compare with `===`, and a new search keeps the page: on a page past
      the last one (a search that found fewer pages), Next stays enabled and leads
      further away. */
  lemma NextEnabledPastLastPage(page: int, totalPages: int)
    requires page > totalPages
    ensures !NextDisabled(page, totalPages) && page + 1 > totalPages
  {
  }

  /** How a list request ended: a reply whose `posts`, `pages` and `total` may each be
      missing, or an exception. */
  datatype FetchOutcome = Listed(posts: Option<seq<Post>>, pages: Option<int>, total: Option<int>) | FetchThrew

  class OriginalPosts {
    var posts: seq<Post>
    var loading: bool
    var searchTerm: string
    var page: int
    var totalPages: int
    var totalPosts: int
    var rewritingId: Option<string>

    constructor()
      ensures posts == [] && loading && searchTerm == "" && page == 1
      ensures totalPages == 0 && totalPosts == 0 && rewritingId.None?
    {
      posts := [];
      loading := true;
      searchTerm := "";
      page := 1;
      totalPages := 0;
      totalPosts := 0;
      rewritingId := None;
    }

    /** `fetchPosts` up to the request. */
    method BeginFetch() returns (url: string)
      modifies this`loading
      ensures loading && url == PostsQuery(page, searchTerm)
    {
      loading := true;
      url := PageUrl(page);
      if searchTerm != "" {
        url := url + "&keyword=" + searchTerm;
      }
    }

    /** `fetchPosts` after the request: missing fields become [], 0 and 0; a failure
        keeps the list; loading always ends. */
    method FinishFetch(outcome: FetchOutcome)
      modifies this`posts, this`totalPages, this`totalPosts, this`loading
      ensures !loading
      ensures outcome.Listed? ==> posts == outcome.posts.GetOr([]) && totalPages == outcome.pages.GetOr(0)
                                  && totalPosts == outcome.total.GetOr(0)
      ensures outcome.FetchThrew? ==> posts == old(posts) && totalPages == old(totalPages) && totalPosts == old(totalPosts)
    {
      if outcome.Listed? {
        posts := outcome.posts.GetOr([]);
        totalPages := outcome.pages.GetOr(0);
        totalPosts := outcome.total.GetOr(0);
      }
      loading := false;
    }

    /** Typing a search term; the page is kept. */
    method SetSearchTerm(term: string)
      modifies this`searchTerm
      ensures searchTerm == term
    {
      searchTerm := term;
    }

    /** `handleDelete(id)`: after confirmation, the posts with that id leave the list
        once the request returns, whatever its status; a failed request keeps them. */
    method Delete(id: string, confirmed: bool, requestFailed: bool) returns (removed: bool)
      modifies this`posts
      ensures removed == (confirmed && !requestFailed)
      ensures posts == (if removed then WithoutPost(old(posts), id) else old(posts))
    {
      if !confirmed {
        return false;
      }
      if requestFailed {
        return false;
      }
      posts := WithoutPost(posts, id);
      removed := true;
    }

    /** `handleConvert(post)` up to the request: nothing while another rewrite is in
        flight or when the dialog is declined; otherwise the post is marked as being
        rewritten and its rewrite is requested. */
    method BeginConvert(post: Post, confirmed: bool) returns (request: Option<string>)
      modifies this`rewritingId
      ensures request == ConvertStep(old(rewritingId), post, confirmed)
      ensures rewritingId == AfterConvertStep(old(rewritingId), post, confirmed)
      ensures request.Some? ==> ConvertDisabled(rewritingId, post)
    {
      if rewritingId.Some? && rewritingId.value != "" {
        return None;
      }
      if !confirmed {
        return None;
      }
      rewritingId := Some(post.id);
      request := Some(Endpoints.OriginalPosts + "/rewrite/" + post.id);
    }

    /** `handleConvert` after the request: the rewrite is over on every path and a
        successful one reloads the list. */
    method FinishConvert(ok: bool) returns (refetch: bool)
      modifies this`rewritingId
      ensures rewritingId.None? && refetch == ok
    {
      rewritingId := None;
      refetch := ok;
    }

    /** The Previous button, clickable only when shown and enabled. */
    method PrevPage()
      requires ShowsPagination(totalPages) && !PrevDisabled(page)
      modifies this`page
      ensures page == old(page) - 1
    {
      page := page - 1;
    }

    /** The Next button, clickable only when shown and enabled. */
    method NextPage()
      requires ShowsPagination(totalPages) && !NextDisabled(page, totalPages)
      modifies this`page
      ensures page == old(page) + 1
    {
      page := page + 1;
    }
  }
}

/** The list of raw scraped articles: paged and searchable, with delete. */
module RawPostList {
  import opened Seqs
  import opened JsText
  import Endpoints

  /** An article with the field the list's handlers read. */
  datatype Article = Article(id: string, title: string)

  function ArticleId(article: Article): string {
    article.id
  }

  /** A page number as the screen holds it: a reply may leave it `undefined`, and
      arithmetic on `undefined` gives `NaN`, which stays `NaN`. */
  datatype PageValue = Page(n: int) | Undefined | NotANumber

  /** A reply field that may be missing, as stored by `setPage(data.page)`. */
  function Stored(field: Option<int>): (v: PageValue)
    ensures field.Some? <==> v.Page?
    ensures field.Some? ==> v.n == field.value
  {
    if field.Some? then Page(field.value) else Undefined
  }

  /** `p - 1` and `p + 1` on a page value. */
  function Step(p: PageValue, delta: int): (r: PageValue)
    ensures p.Page? <==> r.Page?
    ensures p.Page? ==> r.n == p.n + delta
  {
    if p.Page? then Page(p.n + delta) else NotANumber
  }

  /** The text of the `pageNumber` parameter for `fetchArticles(pageNumber)`: an
      `undefined` argument takes the default 1, `NaN` is written as "NaN". */
  function PageArgText(p: PageValue): (text: string)
    ensures p.Page? ==> text == IntToString(p.n)
    ensures p.Undefined? ==> text == IntToString(1)
    ensures p.NotANumber? ==> text == "NaN"
  {
    match p
    case Page(n) => IntToString(n)
    case Undefined => IntToString(1)
    case NotANumber => "NaN"
  }

  /** The query parameters of `fetchArticles`, before URL encoding: `pageNumber`
      always, then `keyword` for a non-empty search term. */
  function QueryParams(pageText: string, searchTerm: string): (params: seq<(string, string)>)
    ensures |params| >= 1 && params[0] == ("pageNumber", pageText)
    ensures |params| == 2 <==> searchTerm != ""
    ensures |params| <= 2
    ensures |params| == 2 ==> params[1] == ("keyword", searchTerm)
  {
    [("pageNumber", pageText)] + if searchTerm != "" then [("keyword", searchTerm)] else []
  }

  /** The requested page can be read back from the query. */
  lemma QueryNamesPage(pageNumber: nat, searchTerm: string)
    ensures var value := QueryParams(PageArgText(Page(pageNumber)), searchTerm)[0].1;
      (forall i :: 0 <= i < |value| ==> IsDigit(value[i])) && ParseDigits(value) == pageNumber
  {
    ParseNatToString(pageNumber);
  }

  /** An `undefined` page asks for page 1; a `NaN` page asks for no number at all. */
  lemma MissingPageQuery(searchTerm: string)
    ensures QueryParams(PageArgText(Undefined), searchTerm)[0] == ("pageNumber", "1")
    ensures QueryParams(PageArgText(NotANumber), searchTerm)[0] == ("pageNumber", "NaN")
  {
    assert NatToString(1) == "1";
  }

  /** `prev.filter(a => a._id !== id)`. */
  function WithoutArticle(articles: seq<Article>, id: string): seq<Article> {
    WithoutKey(articles, ArticleId, id)
  }

  /** Deleting removes exactly the articles with that id and keeps the rest in order. */
  lemma WithoutArticleRemovesExactly(articles: seq<Article>, id: string)
    ensures forall i :: 0 <= i < |WithoutArticle(articles, id)| ==> WithoutArticle(articles, id)[i].id != id
    ensures forall i :: 0 <= i < |articles| && articles[i].id != id ==> articles[i] in WithoutArticle(articles, id)
    ensures IsSubsequence(WithoutArticle(articles, id), articles)
    ensures WithoutArticle(WithoutArticle(articles, id), id) == WithoutArticle(articles, id)
  {
    WithoutKeyProperties(articles, ArticleId, id);
  }

  /** `page <= 1`; a comparison with `undefined` or `NaN` is false. */
  predicate PrevDisabled(page: PageValue) {
    page.Page? && page.n <= 1
  }

  /** `page >= totalPages`; a comparison with `undefined` or `NaN` is false. */
  predicate NextDisabled(page: PageValue, totalPages: PageValue) {
    page.Page? && totalPages.Page? && page.n >= totalPages.n
  }

  /** Once the page is not a number both buttons are enabled and stepping keeps it
      not a number, so the list can never get back to a page by stepping. */
  lemma PageNotANumberSticks(page: PageValue, totalPages: PageValue, delta: int)
    requires !page.Page?
    ensures !PrevDisabled(page) && !NextDisabled(page, totalPages)
    ensures Step(page, delta) == NotANumber
  {
  }

  /** The reply of a list request; the code reads its fields without checking the
      status, so an error body leaves them missing. */
  datatype ArticlesReply = ArticlesReply(articles: Option<seq<Article>>, page: Option<int>, pages: Option<int>)

  class RawPosts {
    /** `None` when a reply left the list `undefined`. */
    var articles: Option<seq<Article>>
    var loading: bool
    var page: PageValue
    var totalPages: PageValue
    var searchTerm: string

    constructor()
      ensures articles == Some([]) && loading && page == Page(1) && totalPages == Page(0) && searchTerm == ""
    {
      articles := Some([]);
      loading := true;
      page := Page(1);
      totalPages := Page(0);
      searchTerm := "";
    }

    /** The table reads `articles.length`, which throws once the list is `undefined`. */
    predicate RenderThrows()
      reads this
    {
      articles.None?
    }

    /** `fetchArticles(pageNumber)` up to the request. */
    method BeginFetch(pageNumber: PageValue) returns (params: seq<(string, string)>)
      modifies this`loading
      ensures loading && params == QueryParams(PageArgText(pageNumber), searchTerm)
    {
      loading := true;
      var pageText;
      match pageNumber {
        case Page(n) => pageText := IntToString(n);
        case Undefined => pageText := IntToString(1);
        case NotANumber => pageText := "NaN";
      }
      params := [("pageNumber", pageText)];
      if searchTerm != "" {
        params := params + [("keyword", searchTerm)];
      }
    }

    /** The debounced search effect: a changed term always asks for page 1. */
    method SearchChanged(term: string) returns (params: seq<(string, string)>)
      modifies this`searchTerm, this`loading
      ensures searchTerm == term && loading
      ensures params == QueryParams(PageArgText(Page(1)), term)
    {
      searchTerm := term;
      params := BeginFetch(Page(1));
    }

    /** The page effect: a new page asks for that page. */
    method PageChanged() returns (params: seq<(string, string)>)
      modifies this`loading
      ensures loading && params == QueryParams(PageArgText(page), searchTerm)
    {
      params := BeginFetch(page);
    }

    /** `fetchArticles` after the request: the reply's list, page and page count are
        stored as they are, missing ones as `undefined`, and a missing list makes the
        table throw; a failure keeps them; loading always ends. */
    method FinishFetch(reply: Option<ArticlesReply>)
      modifies this`articles, this`page, this`totalPages, this`loading
      ensures !loading
      ensures reply.Some? ==> articles == reply.value.articles && page == Stored(reply.value.page)
                              && totalPages == Stored(reply.value.pages)
      ensures reply.Some? ==> (RenderThrows() <==> reply.value.articles.None?)
      ensures reply.None? ==> articles == old(articles) && page == old(page) && totalPages == old(totalPages)
    {
      if reply.Some? {
        articles := reply.value.articles;
        page := if reply.value.page.Some? then Page(reply.value.page.value) else Undefined;
        totalPages := if reply.value.pages.Some? then Page(reply.value.pages.value) else Undefined;
      }
      loading := false;
    }

    /** `handleDelete(id)`: after confirmation, the articles with that id leave the
        list once the request returns; a failed request keeps them. */
    method Delete(id: string, confirmed: bool, requestFailed: bool) returns (removed: bool)
      modifies this`articles
      ensures removed == (confirmed && !requestFailed && old(articles).Some?)
      ensures articles == (if removed then Some(WithoutArticle(old(articles).value, id)) else old(articles))
    {
      if !confirmed {
        return false;
      }
      if requestFailed {
        return false;
      }
      if articles.None? {
        return false;
      }
      articles := Some(WithoutArticle(articles.value, id));
      removed := true;
    }

    /** The previous-page button, clickable only when enabled: one page back, never
        below page 1, and a page within range stays within range; a page that is not
        a number stays not a number. */
    method PrevPage()
      requires !PrevDisabled(page)
      modifies this`page
      ensures page == Step(old(page), -1)
      ensures old(page).Page? ==> page.n >= 1
      ensures old(page).Page? && totalPages.Page? && old(page).n <= totalPages.n ==> page.n <= totalPages.n
    {
      page := if page.Page? then Page(page.n - 1) else NotANumber;
    }

    /** The next-page button, clickable only when enabled: one page on, never past
        the last page, and a page within range stays within range; a page that is not
        a number stays not a number. */
    method NextPage()
      requires !NextDisabled(page, totalPages)
      modifies this`page
      ensures page == Step(old(page), 1)
      ensures old(page).Page? && totalPages.Page? ==> page.n <= totalPages.n
      ensures old(page).Page? && old(page).n >= 1 ==> page.n >= 1
    {
      page := if page.Page? then Page(page.n + 1) else NotANumber;
    }
  }
}

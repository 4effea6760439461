/** The list of scraped websites: the case-insensitive search over name and base
    address, and the buttons that open the form and the scraper log. */
module WebsiteList {
  import opened Seqs
  import opened JsText

  /** A stored site with the fields the list reads. */
  datatype Website = Website(id: string, name: string, baseUrl: string, isActive: bool)

  /** The search callback: the lower-cased name or base address contains the
      lower-cased term. */
  predicate Matches(site: Website, term: string) {
    Contains(Lower(site.name), Lower(term)) || Contains(Lower(site.baseUrl), Lower(term))
  }

  /** `filteredWebsites`: the sites the search keeps, in their original order. */
  function Filtered(sites: seq<Website>, term: string): (r: seq<Website>)
    ensures |r| <= |sites|
  {
    Filter((site: Website) => Matches(site, term), sites)
  }

  /** A site is shown exactly when it is in the list and matches the term; the shown
      sites are the list with some sites left out, never reordered. */
  lemma FilteredMembers(sites: seq<Website>, term: string)
    ensures forall site :: site in Filtered(sites, term) <==> site in sites && Matches(site, term)
    ensures IsSubsequence(Filtered(sites, term), sites)
  {
    forall site
      ensures site in Filtered(sites, term) <==> site in sites && Matches(site, term)
    {
      FilterMembers((site: Website) => Matches(site, term), sites, site);
    }
    FilterIsSubsequence((site: Website) => Matches(site, term), sites);
  }

  /** An empty search term shows every site. */
  lemma EmptyTermShowsAll(sites: seq<Website>)
    ensures Filtered(sites, "") == sites
  {
    forall i | 0 <= i < |sites|
      ensures Matches(sites[i], "")
    {
      ContainsEmpty(Lower(sites[i].name));
    }
    FilterKeepsAll((site: Website) => Matches(site, ""), sites);
  }

  /** The search ignores the case of the term. */
  lemma {:induction false} SearchIgnoresTermCase(sites: seq<Website>, term: string)
    ensures Filtered(sites, Lower(term)) == Filtered(sites, term)
    decreases |sites|
  {
    if sites != [] {
      LowerIdempotent(term);
      SearchIgnoresTermCase(sites[1..], term);
    }
  }

  /** The footer line under the table. */
  function ShowingText(sites: seq<Website>, term: string): string {
    "Showing " + NatToString(|Filtered(sites, term)|) + " sources"
  }

  /** The footer counts exactly the sites shown. */
  lemma ShowingCountsShownSites(sites: seq<Website>, term: string)
    ensures exists digits :: ShowingText(sites, term) == "Showing " + digits + " sources"
                             && (forall i :: 0 <= i < |digits| ==> IsDigit(digits[i]))
                             && ParseDigits(digits) == |Filtered(sites, term)|
  {
    ParseNatToString(|Filtered(sites, term)|);
    assert ShowingText(sites, term) == "Showing " + NatToString(|Filtered(sites, term)|) + " sources";
  }

  /** The status badge's label. */
  function StatusLabel(isActive: bool): (text: string)
    ensures text == "Active" <==> isActive
    ensures text == "Inactive" <==> !isActive
  {
    if isActive then "Active" else "Inactive"
  }

  /** The site the scraper log is opened for; the id is absent before any run. */
  datatype ScrapeTarget = ScrapeTarget(id: Option<string>, name: string)

  /** How loading the list ended: a reply with the sites, a refused request, or an
      exception with its message. */
  datatype FetchOutcome = Fetched(sites: seq<Website>) | Refused | FetchThrew(message: string)

  class WebsitesList {
    var websites: seq<Website>
    var loading: bool
    var error: Option<string>
    var searchTerm: string
    var isModalOpen: bool
    var editingSite: Option<Website>
    var isLogModalOpen: bool
    /** Declared by the screen and compared by the run button, but never set. */
    var scrapingId: Option<string>
    var activeScrapeSite: ScrapeTarget

    constructor()
      ensures websites == [] && loading && error.None? && searchTerm == "" && !isModalOpen
      ensures editingSite.None? && !isLogModalOpen && scrapingId.None? && activeScrapeSite == ScrapeTarget(None, "")
    {
      websites := [];
      loading := true;
      error := None;
      searchTerm := "";
      isModalOpen := false;
      editingSite := None;
      isLogModalOpen := false;
      scrapingId := None;
      activeScrapeSite := ScrapeTarget(None, "");
    }

    /** The rows on screen. */
    function Visible(): seq<Website>
      reads this
    {
      Filtered(websites, searchTerm)
    }

    /** The run button of a row is disabled while that site is marked as scraping. */
    predicate RunDisabled(site: Website)
      reads this
    {
      scrapingId == Some(site.id)
    }

    method SetSearchTerm(term: string)
      modifies this`searchTerm
      ensures searchTerm == term
    {
      searchTerm := term;
    }

    /** `fetchWebsites` after the request: the list is replaced on success, otherwise
        the error is set; loading always ends. */
    method FinishFetch(outcome: FetchOutcome)
      modifies this`websites, this`error, this`loading
      ensures !loading
      ensures outcome.Fetched? ==> websites == outcome.sites && error == old(error)
      ensures outcome.Refused? ==> websites == old(websites) && error == Some("Failed to fetch websites")
      ensures outcome.FetchThrew? ==> websites == old(websites) && error == Some(outcome.message)
    {
      match outcome {
        case Fetched(sites) => websites := sites;
        case Refused => error := Some("Failed to fetch websites");
        case FetchThrew(message) => error := Some(message);
      }
      loading := false;
    }

    /** `handleRunScraper(id, name)`: the log is opened for that site. */
    method RunScraper(id: string, name: string)
      modifies this`activeScrapeSite, this`isLogModalOpen
      ensures activeScrapeSite == ScrapeTarget(Some(id), name) && isLogModalOpen
    {
      activeScrapeSite := ScrapeTarget(Some(id), name);
      isLogModalOpen := true;
    }

    /** The add button: the form opens in add mode. */
    method OpenAdd()
      modifies this`editingSite, this`isModalOpen
      ensures editingSite.None? && isModalOpen
    {
      editingSite := None;
      isModalOpen := true;
    }

    /** A row's edit button: the form opens in edit mode for that site. */
    method OpenEdit(site: Website)
      modifies this`editingSite, this`isModalOpen
      ensures editingSite == Some(site) && isModalOpen
    {
      editingSite := Some(site);
      isModalOpen := true;
    }

    method CloseModal()
      modifies this`isModalOpen
      ensures !isModalOpen
    {
      isModalOpen := false;
    }

    /** Closing the scraper log always reloads the list. */
    method CloseLogModal() returns (refetch: bool)
      modifies this`isLogModalOpen
      ensures !isLogModalOpen && refetch
    {
      isLogModalOpen := false;
      refetch := true;
    }
  }
}

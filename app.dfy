/** The primary front end's top-level component (src/App.tsx): the active tab, the search
    results and the counter of recent ratings, and the handlers that update them. */
module App {
  import opened Wrappers
  import opened Text
  import opened Lists
  import opened Types
  import MockApi

  datatype Tab = RecommendationsTab | ProfileTab | SimilarTab | AdminTab | SearchTab

  /** The four tab buttons of the navigation bar. */
  datatype TabButton = RecommendationsButton | ProfileButton | SimilarButton | AdminButton

  /** The tab a button selects: never the search tab, and each button its own tab. */
  function ButtonTarget(b: TabButton): (t: Tab)
    ensures t != SearchTab
  {
    match b
    case RecommendationsButton => RecommendationsTab
    case ProfileButton => ProfileTab
    case SimilarButton => SimilarTab
    case AdminButton => AdminTab
  }

  /** Each button selects its own tab. */
  lemma ButtonTargetsDistinct(b: TabButton, b': TabButton)
    ensures ButtonTarget(b) == ButtonTarget(b') ==> b == b'
  {
  }

  /** The content components the page can show. */
  datatype Panel = RecommendationSectionPanel | UserProfilePanel | SimilarItemsPanel
                 | AdminPanelPanel | SearchResultsPanel

  /** The five `activeTab === ...` conditionals of the page body, in order: exactly one of
      them renders, and different tabs render different panels. */
  function Panels(tab: Tab): (r: seq<Panel>)
    ensures |r| == 1
  {
    (if tab == RecommendationsTab then [RecommendationSectionPanel] else [])
    + (if tab == ProfileTab then [UserProfilePanel] else [])
    + (if tab == SimilarTab then [SimilarItemsPanel] else [])
    + (if tab == AdminTab then [AdminPanelPanel] else [])
    + (if tab == SearchTab then [SearchResultsPanel] else [])
  }

  /** Different tabs render different panels. */
  lemma PanelsDistinct(t: Tab, t': Tab)
    ensures t != t' ==> Panels(t) != Panels(t')
  {
    if t != t' {
      assert Panels(t)[0] != Panels(t')[0];
    }
  }

  class App {
    /** `mockMovies`, the catalogue the mock service searches. */
    const catalogue: seq<Movie>
    /** The id of the signed-in `user`. */
    const userId: int
    var activeTab: Tab
    var searchResults: seq<Movie>
    var selectedMovieId: int
    var recentRatings: int

    /** The initial state of the component's state cells. */
    constructor (catalogue: seq<Movie>, userId: int)
      ensures this.catalogue == catalogue && this.userId == userId
      ensures activeTab == RecommendationsTab && searchResults == Take(catalogue, 3)
      ensures selectedMovieId == 1 && recentRatings == 5
    {
      this.catalogue := catalogue;
      this.userId := userId;
      activeTab := RecommendationsTab;
      searchResults := Take(catalogue, 3);
      selectedMovieId := 1;
      recentRatings := 5;
    }

    /** `handleMovieRate`: a rating that the service accepts adds one to the counter; one
        whose request is rejected (`rejected`, the caught error) leaves it as it was. */
    method HandleMovieRate(movieId: int, rating: real, rejected: bool)
      modifies this`recentRatings
      ensures recentRatings == if rejected then old(recentRatings) else old(recentRatings) + 1
    {
      if !rejected {
        var response := MockApi.RateMovie(userId, movieId, rating);
        recentRatings := recentRatings + 1;
      }
    }

    /** `handleSearch`: a blank query empties the results and keeps the tab; any other
        query (untrimmed) replaces the results with the search output and switches to the
        search tab exactly when something was found. */
    method HandleSearch(query: string)
      modifies this`searchResults, this`activeTab
      ensures AllSpace(query) ==> searchResults == [] && activeTab == old(activeTab)
      ensures !AllSpace(query) ==> searchResults == MockApi.SearchMovies(catalogue, query)
      ensures !AllSpace(query) ==>
        (activeTab == SearchTab <==> |searchResults| > 0 || old(activeTab) == SearchTab)
      ensures activeTab == old(activeTab) || activeTab == SearchTab
    {
      TrimEmptyIff(query);
      if Trim(query) == "" {
        searchResults := [];
        return;
      }
      var results := MockApi.SearchMovies(catalogue, query);
      searchResults := results;
      if |results| > 0 {
        activeTab := SearchTab;
      }
    }

    /** A click on a tab button: selects that button's tab, never the search tab. */
    method ClickTab(b: TabButton)
      modifies this`activeTab
      ensures activeTab == ButtonTarget(b) && activeTab != SearchTab
    {
      activeTab := ButtonTarget(b);
    }

    /** The movie selector of the similar-items tab. */
    method SelectMovie(movieId: int)
      modifies this`selectedMovieId
      ensures selectedMovieId == movieId
    {
      selectedMovieId := movieId;
    }
  }
}

/** The search header and category badges of app/page.tsx: the state slots
    of the `Dashboard` component and the handlers that change them. */
module DashboardPage {
  import opened Js

  /** No entry occurs twice. */
  predicate NoDuplicates(list: seq<string>) {
    forall i, j :: 0 <= i < j < |list| ==> list[i] != list[j]
  }

  /** The recent-search list after submitting `query`: a non-blank trimmed
      query not yet listed goes in front of the first four entries; anything
      else leaves the list as it was. */
  function NextRecentSearches(prev: seq<string>, query: string): (r: seq<string>)
    ensures Trim(query) != "" && Trim(query) !in prev ==>
      r == [Trim(query)] + prev[..if |prev| < 4 then |prev| else 4]
    ensures Trim(query) == "" || Trim(query) in prev ==> r == prev
  {
    var q := Trim(query);
    if q != "" && q !in prev then [q] + prev[..if |prev| < 4 then |prev| else 4] else prev
  }

  /** A list of at most five stays at most five, and the submitted query is
      listed afterwards unless it was blank. */
  lemma RecentSearchesBounded(prev: seq<string>, query: string)
    requires |prev| <= 5
    ensures |NextRecentSearches(prev, query)| <= 5
    ensures Trim(query) != "" ==> Trim(query) in NextRecentSearches(prev, query)
    ensures Trim(query) != "" && Trim(query) !in prev ==> NextRecentSearches(prev, query)[0] == Trim(query)
  {
  }

  /** A submit never introduces a duplicate. */
  lemma RecentSearchesStayDistinct(prev: seq<string>, query: string)
    requires NoDuplicates(prev)
    ensures NoDuplicates(NextRecentSearches(prev, query))
  {
    var r := NextRecentSearches(prev, query);
    if r != prev {
      forall i, j | 0 <= i < j < |r| ensures r[i] != r[j] {
        assert r[j] == prev[j - 1];
        if i > 0 {
          assert r[i] == prev[i - 1];
        }
      }
    }
  }

  /** Submitting the same query twice in a row changes the list once. */
  lemma SubmitIdempotent(prev: seq<string>, query: string)
    ensures NextRecentSearches(NextRecentSearches(prev, query), query) == NextRecentSearches(prev, query)
  {
  }

  /** The category after clicking the badge of `category`. */
  function ClickedCategory(selected: Option<string>, category: string): (r: Option<string>)
    ensures r == None <==> selected == Some(category)
    ensures r != None ==> r == Some(category)
  {
    if selected == Some(category) then None else Some(category)
  }

  /** Two clicks on one badge restore the selection when it was empty or that
      badge; from another badge they leave nothing selected. */
  lemma TwoClicks(selected: Option<string>, category: string)
    ensures selected == None || selected == Some(category) ==>
      ClickedCategory(ClickedCategory(selected, category), category) == selected
    ensures selected != None && selected != Some(category) ==>
      ClickedCategory(ClickedCategory(selected, category), category) == None
  {
  }

  /** The initial recent searches. */
  const InitialRecentSearches: seq<string> := ["quantum physics", "renaissance art", "mathematical proofs"]

  lemma InitialRecentSearchesDistinct()
    ensures NoDuplicates(InitialRecentSearches) && |InitialRecentSearches| <= 5
  {
  }

  /** The state slots of the component that the search header and the
      category badges use. */
  class Dashboard {
    var searchQuery: string
    var selectedCategory: Option<string>
    var showSearchSuggestions: bool
    var recentSearches: seq<string>

    /** The recent-search list is bounded and free of duplicates. */
    predicate Valid()
      reads this
    {
      |recentSearches| <= 5 && NoDuplicates(recentSearches)
    }

    constructor ()
      ensures searchQuery == "" && selectedCategory == None && !showSearchSuggestions
      ensures recentSearches == InitialRecentSearches
      ensures Valid()
    {
      searchQuery := "";
      selectedCategory := None;
      showSearchSuggestions := false;
      recentSearches := InitialRecentSearches;
      InitialRecentSearchesDistinct();
    }

    /** `handleSearchChange(value)`: the query follows the input, and a
        non-empty value opens the suggestions. */
    method HandleSearchChange(value: string)
      modifies this
      ensures searchQuery == value
      ensures showSearchSuggestions == (value != "" || old(showSearchSuggestions))
      ensures unchanged(`selectedCategory, `recentSearches)
    {
      searchQuery := value;
      if |value| > 0 {
        showSearchSuggestions := true;
      }
    }

    /** `handleSearchSubmit(query)`: records the query and closes the suggestions. */
    method HandleSearchSubmit(query: string)
      modifies this
      ensures recentSearches == NextRecentSearches(old(recentSearches), query)
      ensures !showSearchSuggestions
      ensures unchanged(`searchQuery, `selectedCategory)
      ensures old(Valid()) ==> Valid()
    {
      var q := Trim(query);
      if q != "" && q !in recentSearches {
        recentSearches := [q] + recentSearches[..if |recentSearches| < 4 then |recentSearches| else 4];
      }
      showSearchSuggestions := false;
      if old(Valid()) {
        RecentSearchesBounded(old(recentSearches), query);
        RecentSearchesStayDistinct(old(recentSearches), query);
      }
    }

    /** Picking a suggestion: the query becomes it, then it is submitted. */
    method PickSuggestion(query: string)
      modifies this
      ensures searchQuery == query
      ensures recentSearches == NextRecentSearches(old(recentSearches), query)
      ensures !showSearchSuggestions
      ensures unchanged(`selectedCategory)
      ensures old(Valid()) ==> Valid()
    {
      searchQuery := query;
      HandleSearchSubmit(query);
    }

    /** Focusing the input opens the suggestions; Escape or a press outside
        the input closes them. */
    method SetSuggestionsShown(shown: bool)
      modifies this
      ensures showSearchSuggestions == shown
      ensures unchanged(`searchQuery, `selectedCategory, `recentSearches)
    {
      showSearchSuggestions := shown;
    }

    /** A click on, or Enter or Space over, the badge of `category`. */
    method ClickCategory(category: string)
      modifies this
      ensures selectedCategory == ClickedCategory(old(selectedCategory), category)
      ensures unchanged(`searchQuery, `showSearchSuggestions, `recentSearches)
    {
      selectedCategory := if selectedCategory == Some(category) then None else Some(category);
    }
  }
}

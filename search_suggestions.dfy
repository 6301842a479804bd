/** The drop-down of components/search-suggestions.tsx: the suggestions its
    effect derives from the query, and what the drop-down shows. */
module SearchSuggestions {
  import opened Js

  /** The fixed list the suggestions are drawn from. */
  const MockSuggestions: seq<string> := [
    "quantum physics fundamentals",
    "quantum mechanics",
    "quantum computing",
    "renaissance art techniques",
    "renaissance history",
    "mathematical proofs",
    "math formulas",
    "physics equations",
    "art history timeline",
    "science concepts"
  ]

  /** A suggestion is offered when it contains the query, ignoring case, and
      is not the query itself. */
  predicate Offered(suggestion: string, query: string) {
    Includes(Lower(suggestion), Lower(query)) && suggestion != query
  }

  /** The offered entries of `list`, in list order. */
  function Matching(list: seq<string>, query: string): (r: seq<string>)
    ensures |r| <= |list|
    ensures forall s :: s in r <==> s in list && Offered(s, query)
  {
    if list == [] then []
    else if Offered(list[0], query) then [list[0]] + Matching(list[1..], query)
    else Matching(list[1..], query)
  }

  /** Two offered entries appear in the result in the order they have in
      the list. */
  lemma {:induction false} MatchingKeepsOrder(list: seq<string>, query: string, i: nat, j: nat)
    requires i < j < |list| && Offered(list[i], query) && Offered(list[j], query)
    ensures exists a, b :: (0 <= a < b < |Matching(list, query)|
      && Matching(list, query)[a] == list[i] && Matching(list, query)[b] == list[j])
  {
    var r := Matching(list, query);
    var tail := Matching(list[1..], query);
    assert list[j] == list[1..][j - 1];
    if i == 0 {
      assert list[j] in tail;
      var b :| 0 <= b < |tail| && tail[b] == list[j];
      assert r[0] == list[i] && r[b + 1] == list[j];
    } else {
      assert list[i] == list[1..][i - 1];
      MatchingKeepsOrder(list[1..], query, i - 1, j - 1);
      var a, b :| 0 <= a < b < |tail| && tail[a] == list[i] && tail[b] == list[j];
      if Offered(list[0], query) {
        assert r[a + 1] == list[i] && r[b + 1] == list[j];
      } else {
        assert r[a] == list[i] && r[b] == list[j];
      }
    }
  }

  /** The two state slots the effect sets. */
  datatype Derived = Derived(suggestions: seq<string>, showSuggestions: bool)

  /** The effect on a change of query: up to five matches, shown when there
      is any match; nothing for an empty query. */
  function Derive(query: string): (d: Derived)
    ensures |d.suggestions| <= 5
    ensures forall s :: s in d.suggestions ==> s in MockSuggestions && Offered(s, query)
    ensures query == "" ==> d == Derived([], false)
    ensures query != "" ==> (d.showSuggestions <==> Matching(MockSuggestions, query) != [])
    ensures query != "" ==> d.suggestions == Matching(MockSuggestions, query)[..if |Matching(MockSuggestions, query)| < 5 then |Matching(MockSuggestions, query)| else 5]
  {
    if |query| > 0 then
      var m := Matching(MockSuggestions, query);
      var k := if |m| < 5 then |m| else 5;
      assert forall s :: s in m[..k] ==> s in m;
      Derived(m[..k], |m| > 0)
    else Derived([], false)
  }

  /** The drop-down is shown exactly when it has suggestions to list. */
  lemma ShownIffListed(query: string)
    ensures Derive(query).showSuggestions <==> Derive(query).suggestions != []
  {
  }

  /** Whatever matches is listed when there are at most five matches. */
  lemma FewMatchesAllListed(query: string, s: string)
    requires query != "" && s in MockSuggestions && Offered(s, query)
    requires |Matching(MockSuggestions, query)| <= 5
    ensures s in Derive(query).suggestions
  {
    var m := Matching(MockSuggestions, query);
    assert m[..|m|] == m;
  }

  /** The parts of the drop-down that are rendered. */
  datatype DropDown = DropDown(suggestions: seq<string>, recent: seq<string>, popular: seq<string>)

  /** The component's output: nothing at all, or the three sections, of which
      recent and popular searches (at most five each) only for an empty query. */
  function Render(d: Derived, query: string, recentSearches: seq<string>, popularSearches: seq<string>): (r: Option<DropDown>)
    ensures r.None? <==> !d.showSuggestions && recentSearches == [] && query == ""
    ensures r.Some? ==> r.value.suggestions == d.suggestions
    ensures r.Some? && query != "" ==> r.value.recent == [] && r.value.popular == []
    ensures r.Some? ==> |r.value.recent| <= 5 && |r.value.popular| <= 5
  {
    if !d.showSuggestions && |recentSearches| == 0 && |query| == 0 then None
    else
      Some(DropDown(d.suggestions,
        if |query| == 0 then recentSearches[..if |recentSearches| < 5 then |recentSearches| else 5] else [],
        if |query| == 0 then popularSearches[..if |popularSearches| < 5 then |popularSearches| else 5] else []))
  }

  /** With recent searches and an empty query the drop-down lists them; with
      no recent searches it renders nothing exactly for the empty query, so a
      query without matches still renders an empty card. */
  lemma RenderAfterEffect(query: string, recentSearches: seq<string>, popularSearches: seq<string>)
    ensures var r := Render(Derive(query), query, recentSearches, popularSearches);
      && (query == "" && recentSearches != [] ==> r.Some? && r.value.suggestions == [] && r.value.recent != [])
      && (recentSearches == [] ==> (r.None? <==> query == ""))
  {
  }
}

/** The inbox list of components/inbox-view.tsx: turning stored items into
    inbox items, the seven filters, the sort, and the category list. */
module InboxView {
  import opened Js
  import opened Sorting
  import opened InboxCard
  import opened AdvancedFilters

  // ---------------------------------------------------------------------
  // Stored items

  /** A row of the items listing as the API returns it.  `tags` and `cards`
      are the already decoded JSON columns, `None` when the column is empty. */
  datatype ApiItem = ApiItem(
    id: string,
    title: Option<string>,
    rawText: Option<string>,
    rawImagePath: Option<string>,
    summary: Option<string>,
    tags: Option<seq<string>>,
    cards: Option<seq<(string, string)>>,
    createdAt: int)

  /** The id of the `index`-th flashcard of an item: `${id}-card-${index}`. */
  function CardId(id: string, index: nat): (r: string)
    ensures |r| > |id| + 6 && r[..|id|] == id
  {
    id + "-card-" + NatToString(index)
  }

  /** The flashcards of an item, numbered from `from`. */
  function Faces(id: string, cards: seq<(string, string)>, from: nat): (faces: seq<CardFace>)
    ensures |faces| == |cards|
    ensures forall i :: 0 <= i < |cards| ==>
      faces[i] == CardFace(CardId(id, from + i), cards[i].0, cards[i].1)
  {
    if cards == [] then []
    else [CardFace(CardId(id, from), cards[0].0, cards[0].1)] + Faces(id, cards[1..], from + 1)
  }

  /** `convertToInboxItem(apiItem)`. */
  function ConvertToInboxItem(api: ApiItem): (item: InboxItem)
    ensures item.id == api.id && item.createdAt == api.createdAt
    ensures item.title == (if Truthy(api.title) then api.title.value else "Untitled")
    ensures item.content == OrElse(api.rawText, "") && item.summary == OrElse(api.summary, "")
    ensures item.contentType == ImageContent <==> Truthy(api.rawImagePath)
    ensures item.processed <==> Truthy(api.summary)
    ensures item.imageUrl == api.rawImagePath
    ensures api.tags.Some? ==> item.tags == api.tags.value
    ensures api.tags.None? ==> item.tags == []
    ensures api.cards.None? ==> item.flashcards == []
    ensures api.cards.Some? ==> |item.flashcards| == |api.cards.value|
    ensures api.cards.Some? ==> forall i :: 0 <= i < |api.cards.value| ==>
      item.flashcards[i] == CardFace(CardId(api.id, i), api.cards.value[i].0, api.cards.value[i].1)
  {
    var cards := if api.cards.Some? then api.cards.value else [];
    InboxItem(
      api.id,
      OrElse(api.title, "Untitled"),
      OrElse(api.rawText, ""),
      if Truthy(api.rawImagePath) then ImageContent else TextContent,
      api.rawImagePath,
      OrElse(api.summary, ""),
      if api.tags.Some? then api.tags.value else [],
      Faces(api.id, cards, 0),
      api.createdAt,
      Truthy(api.summary))
  }

  /** Different positions give different flashcard ids within an item. */
  lemma CardIdsDistinct(id: string, i: nat, j: nat)
    requires i != j
    ensures CardId(id, i) != CardId(id, j)
  {
    if CardId(id, i) == CardId(id, j) {
      assert CardId(id, i)[|id| + 6..] == NatToString(i);
      assert CardId(id, j)[|id| + 6..] == NatToString(j);
      NatToStringInjective(i, j);
    }
  }

  /** The flashcards of one converted item have pairwise distinct ids. */
  lemma ConvertedCardIdsDistinct(api: ApiItem)
    ensures var faces := ConvertToInboxItem(api).flashcards;
      forall i, j :: 0 <= i < j < |faces| ==> faces[i].id != faces[j].id
  {
    var faces := ConvertToInboxItem(api).flashcards;
    forall i, j | 0 <= i < j < |faces|
      ensures faces[i].id != faces[j].id
    {
      CardIdsDistinct(api.id, i, j);
    }
  }

  // ---------------------------------------------------------------------
  // Filters

  /** What the list is filtered by: the header search and category, the
      advanced filters, the clock, and the local time zone offset used by
      `toDateString`. */
  datatype View = View(
    searchQuery: string,
    selectedCategory: Option<string>,
    filters: FilterOptions,
    now: int,
    zoneOffset: int)

  /** `s.toLowerCase().includes(q.toLowerCase())`. */
  predicate ContainsIgnoringCase(s: string, q: string) {
    Includes(Lower(s), Lower(q))
  }

  predicate SameIgnoringCase(a: string, b: string) {
    Lower(a) == Lower(b)
  }

  predicate MatchesSearch(item: InboxItem, q: string) {
    || q == ""
    || ContainsIgnoringCase(item.title, q)
    || ContainsIgnoringCase(item.content, q)
    || ContainsIgnoringCase(item.summary, q)
    || exists k :: 0 <= k < |item.tags| && ContainsIgnoringCase(item.tags[k], q)
  }

  predicate HasTag(item: InboxItem, category: string) {
    exists k :: 0 <= k < |item.tags| && SameIgnoringCase(item.tags[k], category)
  }

  predicate MatchesCategory(item: InboxItem, category: Option<string>) {
    category.None? || HasTag(item, category.value)
  }

  predicate MatchesAdvancedCategories(item: InboxItem, categories: seq<string>) {
    |categories| == 0 || exists c :: 0 <= c < |categories| && HasTag(item, categories[c])
  }

  function ContentTypeName(t: ContentType): string {
    match t
    case TextContent => "text"
    case ImageContent => "image"
  }

  predicate MatchesContentTypes(item: InboxItem, types: seq<string>) {
    |types| == 0 || ContentTypeName(item.contentType) in types
  }

  predicate MatchesProcessed(item: InboxItem, processed: Option<bool>) {
    processed.None? || item.processed == processed.value
  }

  /** The local calendar day of a time: the day `toDateString` names. */
  function LocalDay(time: int, zoneOffset: int): int {
    (time + zoneOffset) / DayMs
  }

  predicate MatchesDateRange(item: InboxItem, range: DateRange, now: int, zoneOffset: int) {
    match range
    case All => true
    case Today => LocalDay(item.createdAt, zoneOffset) == LocalDay(now, zoneOffset)
    case Week => item.createdAt >= now - 7 * DayMs
    case Month => item.createdAt >= now - 30 * DayMs
  }

  predicate MatchesHasFlashcards(item: InboxItem, hasFlashcards: Option<bool>) {
    hasFlashcards.None? || (if hasFlashcards.value then |item.flashcards| > 0 else |item.flashcards| == 0)
  }

  /** The filter callback: all seven conditions hold. */
  predicate Matches(item: InboxItem, v: View) {
    && MatchesSearch(item, v.searchQuery)
    && MatchesCategory(item, v.selectedCategory)
    && MatchesAdvancedCategories(item, v.filters.categories)
    && MatchesContentTypes(item, v.filters.contentTypes)
    && MatchesProcessed(item, v.filters.processed)
    && MatchesDateRange(item, v.filters.dateRange, v.now, v.zoneOffset)
    && MatchesHasFlashcards(item, v.filters.hasFlashcards)
  }

  /** `items.filter(...)`: the matching items in order, each as often as it occurs. */
  function Filtered(items: seq<InboxItem>, v: View): (r: seq<InboxItem>)
    ensures forall x :: multiset(r)[x] == if Matches(x, v) then multiset(items)[x] else 0
  {
    if items == [] then []
    else
      assert items == [items[0]] + items[1..];
      (if Matches(items[0], v) then [items[0]] else []) + Filtered(items[1..], v)
  }

  /** The filtered list is a sub-multiset of the items and every member matches. */
  lemma FilteredIsSubMultiset(items: seq<InboxItem>, v: View)
    ensures multiset(Filtered(items, v)) <= multiset(items)
    ensures forall x :: x in Filtered(items, v) ==> Matches(x, v)
  {
    var r := Filtered(items, v);
    forall x | x in r
      ensures Matches(x, v)
    {
      assert multiset(r)[x] > 0;
    }
  }

  /** With the initial filters, an empty search and no category, nothing is dropped. */
  lemma {:induction false} DefaultsKeepEverything(items: seq<InboxItem>, now: int, zoneOffset: int)
    ensures Filtered(items, View("", None, Cleared, now, zoneOffset)) == items
  {
    if items != [] {
      DefaultsKeepEverything(items[1..], now, zoneOffset);
    }
  }

  /** The week and month ranges keep exactly the items created in the last 7 and 30 days. */
  lemma RangesCountBackFromNow(item: InboxItem, now: int, zoneOffset: int)
    ensures MatchesDateRange(item, Week, now, zoneOffset) <==> now - item.createdAt <= 7 * 86400000
    ensures MatchesDateRange(item, Month, now, zoneOffset) <==> now - item.createdAt <= 30 * 86400000
    ensures MatchesDateRange(item, Week, now, zoneOffset) ==> MatchesDateRange(item, Month, now, zoneOffset)
  {
  }

  lemma LowerIdempotent(s: string)
    ensures Lower(Lower(s)) == Lower(s)
  {
  }

  /** The search does not depend on the case of the query. */
  lemma SearchIgnoresCase(item: InboxItem, q: string)
    ensures MatchesSearch(item, q) <==> MatchesSearch(item, Lower(q))
  {
    LowerIdempotent(q);
  }

  /** A search that finds its query in the title, or the category a tag
      spells in another case, lets the item through those two filters. */
  lemma SearchAndCategoryWitnesses(item: InboxItem, q: string, k: nat)
    requires k < |item.tags|
    ensures ContainsIgnoringCase(item.title, q) ==> MatchesSearch(item, q)
    ensures ContainsIgnoringCase(item.tags[k], q) ==> MatchesSearch(item, q)
    ensures MatchesCategory(item, Some(Lower(item.tags[k])))
  {
    LowerIdempotent(item.tags[k]);
  }

  // ---------------------------------------------------------------------
  // Sorting

  datatype SortKey = ByDate | ByTitle | ByCategory
  datatype SortOrder = Asc | Desc

  /** `localeCompare`, read as the lexicographic order of code points: negative,
      zero or positive. */
  function CompareStrings(a: string, b: string): (c: int)
    ensures -1 <= c <= 1
    ensures c == 0 <==> a == b
  {
    if a == [] && b == [] then 0
    else if a == [] then -1
    else if b == [] then 1
    else if a[0] < b[0] then -1
    else if a[0] > b[0] then 1
    else
      var c := CompareStrings(a[1..], b[1..]);
      assert c == 0 ==> a == [a[0]] + a[1..] == [b[0]] + b[1..] == b;
      c
  }

  lemma {:induction false} CompareStringsAntisymmetric(a: string, b: string)
    ensures CompareStrings(a, b) == -CompareStrings(b, a)
  {
    if a != [] && b != [] && a[0] == b[0] {
      CompareStringsAntisymmetric(a[1..], b[1..]);
    }
  }

  lemma {:induction false} CompareStringsTransitive(a: string, b: string, c: string)
    requires CompareStrings(a, b) <= 0 && CompareStrings(b, c) <= 0
    ensures CompareStrings(a, c) <= 0
  {
    if a != [] && b != [] && c != [] && a[0] == b[0] == c[0] {
      CompareStringsTransitive(a[1..], b[1..], c[1..]);
    }
  }

  /** `a.tags[0] || ""`. */
  function FirstTag(item: InboxItem): string {
    if item.tags == [] then "" else item.tags[0]
  }

  /** The comparison of the sort callback before the order is applied. */
  function Compare(key: SortKey, a: InboxItem, b: InboxItem): int {
    match key
    case ByDate => a.createdAt - b.createdAt
    case ByTitle => CompareStrings(a.title, b.title)
    case ByCategory => CompareStrings(FirstTag(a), FirstTag(b))
  }

  /** The sort callback returns at most 0: `a` may stay before `b`. */
  predicate InOrder(key: SortKey, order: SortOrder, a: InboxItem, b: InboxItem) {
    (if order == Asc then Compare(key, a, b) else -Compare(key, a, b)) <= 0
  }

  lemma CompareAntisymmetric(key: SortKey, a: InboxItem, b: InboxItem)
    ensures Compare(key, a, b) == -Compare(key, b, a)
  {
    match key
    case ByDate =>
    case ByTitle => CompareStringsAntisymmetric(a.title, b.title);
    case ByCategory => CompareStringsAntisymmetric(FirstTag(a), FirstTag(b));
  }

  lemma CompareTransitive(key: SortKey, a: InboxItem, b: InboxItem, c: InboxItem)
    requires Compare(key, a, b) <= 0 && Compare(key, b, c) <= 0
    ensures Compare(key, a, c) <= 0
  {
    match key
    case ByDate =>
    case ByTitle => CompareStringsTransitive(a.title, b.title, c.title);
    case ByCategory => CompareStringsTransitive(FirstTag(a), FirstTag(b), FirstTag(c));
  }

  /** Every choice of key and order gives a consistent comparator. */
  lemma InOrderIsTotalPreorder(key: SortKey, order: SortOrder)
    ensures TotalPreorder((a, b) => InOrder(key, order, a, b))
  {
    forall a, b
      ensures InOrder(key, order, a, b) || InOrder(key, order, b, a)
    {
      CompareAntisymmetric(key, a, b);
    }
    forall a, b, c | InOrder(key, order, a, b) && InOrder(key, order, b, c)
      ensures InOrder(key, order, a, c)
    {
      if order == Asc {
        CompareTransitive(key, a, b, c);
      } else {
        CompareAntisymmetric(key, a, b);
        CompareAntisymmetric(key, b, c);
        CompareAntisymmetric(key, a, c);
        CompareTransitive(key, c, b, a);
      }
    }
  }

  /** `filteredAndSortedItems`: the matching items, sorted by the chosen key
      and order; items that compare equal keep their order. */
  function FilteredAndSorted(items: seq<InboxItem>, v: View, key: SortKey, order: SortOrder): (r: seq<InboxItem>)
    ensures multiset(r) == multiset(Filtered(items, v))
  {
    Sort(Filtered(items, v), (a, b) => InOrder(key, order, a, b))
  }

  /** The result holds exactly the matching items, as often as they occur,
      and is ordered by the chosen key and order. */
  lemma FilteredAndSortedSpec(items: seq<InboxItem>, v: View, key: SortKey, order: SortOrder)
    ensures var r := FilteredAndSorted(items, v, key, order);
      && (forall x :: multiset(r)[x] == if Matches(x, v) then multiset(items)[x] else 0)
      && forall i, j :: 0 <= i < j < |r| ==> InOrder(key, order, r[i], r[j])
  {
    InOrderIsTotalPreorder(key, order);
    SortSorted(Filtered(items, v), (a, b) => InOrder(key, order, a, b));
  }

  /** The default view, newest first. */
  lemma NewestFirst(items: seq<InboxItem>, v: View)
    ensures var r := FilteredAndSorted(items, v, ByDate, Desc);
      forall i, j :: 0 <= i < j < |r| ==> r[i].createdAt >= r[j].createdAt
  {
    FilteredAndSortedSpec(items, v, ByDate, Desc);
  }

  // ---------------------------------------------------------------------
  // Categories

  /** `items.flatMap((item) => item.tags)`. */
  function AllTags(items: seq<InboxItem>): (tags: seq<string>)
    ensures forall i, k :: 0 <= i < |items| && 0 <= k < |items[i].tags| ==> items[i].tags[k] in tags
    ensures forall t :: t in tags ==> exists i :: 0 <= i < |items| && t in items[i].tags
  {
    if items == [] then []
    else
      var rest := AllTags(items[1..]);
      assert forall t :: t in rest ==> exists i :: 1 <= i < |items| && t in items[i].tags by {
        forall t | t in rest
          ensures exists i :: 1 <= i < |items| && t in items[i].tags
        {
          var i :| 0 <= i < |items[1..]| && t in items[1..][i].tags;
          assert items[i + 1] == items[1..][i];
        }
      }
      items[0].tags + rest
  }

  /** The tags come item by item, each item's tags in their own order. */
  lemma {:induction false} AllTagsAppend(a: seq<InboxItem>, b: seq<InboxItem>)
    ensures AllTags(a + b) == AllTags(a) + AllTags(b)
  {
    if a == [] {
      assert a + b == b;
    } else {
      assert (a + b)[0] == a[0] && (a + b)[1..] == a[1..] + b;
      AllTagsAppend(a[1..], b);
    }
  }

  lemma AllTagsOne(item: InboxItem)
    ensures AllTags([item]) == item.tags
  {
    assert AllTags([item]) == item.tags + AllTags([]);
  }

  lemma RemovedMembers(list: seq<string>, value: string)
    ensures forall x :: x in RemoveAll(list, value) <==> x in list && x != value
  {
    forall x | x != value
      ensures x in RemoveAll(list, value) <==> x in list
    {
      assert multiset(RemoveAll(list, value))[x] == multiset(list)[x];
    }
  }

  /** `Array.from(new Set(values))`: each value once; the order is stated
      by `DistinctKeepsFirstOrder`. */
  function Distinct(values: seq<string>): (r: seq<string>)
    ensures forall x :: x in r <==> x in values
    ensures forall i, j :: 0 <= i < j < |r| ==> r[i] != r[j]
    decreases |values|
  {
    if values == [] then []
    else
      var rest := RemoveAll(values[1..], values[0]);
      RemovedMembers(values[1..], values[0]);
      assert values == [values[0]] + values[1..];
      [values[0]] + Distinct(rest)
  }

  /** The position of the first occurrence of `x` in `values`. */
  function FirstIndex(values: seq<string>, x: string): (k: nat)
    requires x in values
    ensures k < |values| && values[k] == x
    ensures forall i :: 0 <= i < k ==> values[i] != x
  {
    if values[0] == x then 0
    else
      var k := 1 + FirstIndex(values[1..], x);
      assert forall i :: 1 <= i < k ==> values[i] == values[1..][i - 1];
      k
  }

  /** Removing a value keeps the order in which the others first occur. */
  lemma {:induction false} RemoveAllKeepsFirstOrder(list: seq<string>, value: string, a: string, b: string)
    requires a in RemoveAll(list, value) && b in RemoveAll(list, value)
    requires FirstIndex(RemoveAll(list, value), a) < FirstIndex(RemoveAll(list, value), b)
    ensures a in list && b in list
    ensures FirstIndex(list, a) < FirstIndex(list, b)
  {
    RemovedMembers(list, value);
    var tail := list[1..];
    var rest := RemoveAll(tail, value);
    RemovedMembers(tail, value);
    if list[0] == value {
      assert RemoveAll(list, value) == rest;
      RemoveAllKeepsFirstOrder(tail, value, a, b);
    } else {
      assert RemoveAll(list, value) == [list[0]] + rest;
      if a != list[0] {
        assert b != list[0];
        assert FirstIndex(RemoveAll(list, value), a) == 1 + FirstIndex(rest, a);
        assert FirstIndex(RemoveAll(list, value), b) == 1 + FirstIndex(rest, b);
        RemoveAllKeepsFirstOrder(tail, value, a, b);
      }
    }
  }

  /** `Set` iteration order: the values come out in the order of their first
      occurrence. */
  lemma {:induction false} DistinctKeepsFirstOrder(values: seq<string>)
    ensures forall i, j :: 0 <= i < j < |Distinct(values)| ==>
      FirstIndex(values, Distinct(values)[i]) < FirstIndex(values, Distinct(values)[j])
    decreases |values|
  {
    if values != [] {
      var v := values[0];
      var rest := RemoveAll(values[1..], v);
      var d := Distinct(rest);
      var r := Distinct(values);
      assert r == [v] + d;
      DistinctKeepsFirstOrder(rest);
      RemovedMembers(values[1..], v);
      forall i, j | 0 <= i < j < |r|
        ensures FirstIndex(values, r[i]) < FirstIndex(values, r[j])
      {
        if i > 0 {
          assert r[i] == d[i - 1] && r[j] == d[j - 1];
          assert d[i - 1] in rest && d[j - 1] in rest;
          assert FirstIndex(rest, d[i - 1]) < FirstIndex(rest, d[j - 1]);
          RemoveAllKeepsFirstOrder(values[1..], v, d[i - 1], d[j - 1]);
          assert FirstIndex(values, r[i]) == 1 + FirstIndex(values[1..], r[i]);
          assert FirstIndex(values, r[j]) == 1 + FirstIndex(values[1..], r[j]);
        } else {
          assert r[j] != v;
        }
      }
    }
  }

  /** `availableCategories`: every tag of every item, each exactly once. */
  function AvailableCategories(items: seq<InboxItem>): (categories: seq<string>)
    ensures forall i, k :: 0 <= i < |items| && 0 <= k < |items[i].tags| ==> items[i].tags[k] in categories
    ensures forall t :: t in categories ==> exists i :: 0 <= i < |items| && t in items[i].tags
    ensures forall i, j :: 0 <= i < j < |categories| ==> categories[i] != categories[j]
  {
    Distinct(AllTags(items))
  }
}

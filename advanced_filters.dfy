/** The filter record of components/advanced-filters.tsx and the updates the
    panel hands to `onFiltersChange`: single-field updates, clearing, the
    active-filter badge count, the checkbox lists and the tri-state selects. */
module AdvancedFilters {
  import opened Js

  datatype DateRange = All | Today | Week | Month

  /** `FilterOptions`; `null` in a tri-state field is `None`. */
  datatype FilterOptions = FilterOptions(
    categories: seq<string>,
    contentTypes: seq<string>,
    processed: Option<bool>,
    dateRange: DateRange,
    difficulty: seq<string>,
    hasFlashcards: Option<bool>,
    reviewCount: (int, int))

  /** The keys of `FilterOptions`. */
  datatype FilterKey = Categories | ContentTypes | Processed | DateRangeKey | Difficulty | HasFlashcards | ReviewCount

  /** A value of one of the fields. */
  datatype FilterValue = Strings(strings: seq<string>) | Tri(tri: Option<bool>) | Range(range: DateRange) | Bounds(bounds: (int, int))

  /** The value stored under `key`. */
  function Field(f: FilterOptions, key: FilterKey): FilterValue {
    match key
    case Categories => Strings(f.categories)
    case ContentTypes => Strings(f.contentTypes)
    case Processed => Tri(f.processed)
    case DateRangeKey => Range(f.dateRange)
    case Difficulty => Strings(f.difficulty)
    case HasFlashcards => Tri(f.hasFlashcards)
    case ReviewCount => Bounds(f.reviewCount)
  }

  /** The value has the type `FilterOptions[key]`. */
  predicate Fits(key: FilterKey, value: FilterValue) {
    match key
    case Categories | ContentTypes | Difficulty => value.Strings?
    case Processed | HasFlashcards => value.Tri?
    case DateRangeKey => value.Range?
    case ReviewCount => value.Bounds?
  }

  /** `updateFilter(key, value)`: `{ ...filters, [key]: value }`. */
  function UpdateFilter(f: FilterOptions, key: FilterKey, value: FilterValue): (r: FilterOptions)
    requires Fits(key, value)
    ensures Field(r, key) == value
    ensures forall k :: k != key ==> Field(r, k) == Field(f, k)
  {
    match key
    case Categories => f.(categories := value.strings)
    case ContentTypes => f.(contentTypes := value.strings)
    case Processed => f.(processed := value.tri)
    case DateRangeKey => f.(dateRange := value.range)
    case Difficulty => f.(difficulty := value.strings)
    case HasFlashcards => f.(hasFlashcards := value.tri)
    case ReviewCount => f.(reviewCount := value.bounds)
  }

  /** Two filter records with the same value under every key are the same record. */
  lemma FieldsDetermineFilters(f: FilterOptions, g: FilterOptions)
    requires forall k :: Field(f, k) == Field(g, k)
    ensures f == g
  {
    assert Field(f, Categories) == Field(g, Categories);
    assert Field(f, ContentTypes) == Field(g, ContentTypes);
    assert Field(f, Processed) == Field(g, Processed);
    assert Field(f, DateRangeKey) == Field(g, DateRangeKey);
    assert Field(f, Difficulty) == Field(g, Difficulty);
    assert Field(f, HasFlashcards) == Field(g, HasFlashcards);
    assert Field(f, ReviewCount) == Field(g, ReviewCount);
  }

  /** Writing back the value a field already has changes nothing, and a
      second write to the same field replaces the first. */
  lemma UpdateFilterLaws(f: FilterOptions, key: FilterKey, v: FilterValue, w: FilterValue)
    requires Fits(key, v) && Fits(key, w)
    ensures UpdateFilter(f, key, Field(f, key)) == f
    ensures UpdateFilter(UpdateFilter(f, key, v), key, w) == UpdateFilter(f, key, w)
  {
    FieldsDetermineFilters(UpdateFilter(f, key, Field(f, key)), f);
    FieldsDetermineFilters(UpdateFilter(UpdateFilter(f, key, v), key, w), UpdateFilter(f, key, w));
  }

  /** The filters `clearAllFilters` installs; they are also the initial filters
      of the inbox view. */
  const Cleared := FilterOptions([], [], None, All, [], None, (0, 20))

  function Indicator(b: bool): nat {
    if b then 1 else 0
  }

  /** The slider counts as a filter when it is narrowed at either end. */
  predicate ReviewCountActive(bounds: (int, int)) {
    bounds.0 > 0 || bounds.1 < 20
  }

  /** `getActiveFilterCount()`: one for every filter that is set. */
  function ActiveFilterCount(f: FilterOptions): (count: nat)
    ensures count <= 7
    ensures count == 0 ==> (f.categories == [] && f.contentTypes == [] && f.processed == None
      && f.dateRange == All && f.difficulty == [] && f.hasFlashcards == None
      && !ReviewCountActive(f.reviewCount))
  {
    Indicator(|f.categories| > 0) + Indicator(|f.contentTypes| > 0) + Indicator(f.processed != None)
    + Indicator(f.dateRange != All) + Indicator(|f.difficulty| > 0) + Indicator(f.hasFlashcards != None)
    + Indicator(ReviewCountActive(f.reviewCount))
  }

  /** The slider adds one to the count exactly when it is narrowed. */
  lemma ReviewCountCounted(f: FilterOptions, bounds: (int, int))
    ensures ActiveFilterCount(f.(reviewCount := bounds))
      == ActiveFilterCount(f.(reviewCount := (0, 20))) + (if bounds.0 > 0 || bounds.1 < 20 then 1 else 0)
  {
  }

  /** Within the slider's range 0..20, no filter is active exactly when the
      filters are the cleared ones; in particular clearing leaves a count of 0. */
  lemma NoActiveFilterIffCleared(f: FilterOptions)
    requires 0 <= f.reviewCount.0 && f.reviewCount.1 <= 20
    ensures ActiveFilterCount(f) == 0 <==> f == Cleared
  {
    if ActiveFilterCount(f) == 0 {
      assert f.reviewCount == (0, 20);
    }
  }

  // ---------------------------------------------------------------------
  // Checkbox lists

  /** `list.filter((c) => c !== value)`. */
  function RemoveAll(list: seq<string>, value: string): (r: seq<string>)
    ensures value !in r
    ensures |r| <= |list|
    ensures forall x :: x != value ==> multiset(r)[x] == multiset(list)[x]
  {
    if list == [] then []
    else
      assert list == [list[0]] + list[1..];
      (if list[0] == value then [] else [list[0]]) + RemoveAll(list[1..], value)
  }

  /** Removal keeps the order of what remains: it removes piecewise. */
  lemma {:induction false} RemoveAllAppend(a: seq<string>, b: seq<string>, value: string)
    ensures RemoveAll(a + b, value) == RemoveAll(a, value) + RemoveAll(b, value)
  {
    if a == [] {
      assert a + b == b;
    } else {
      assert (a + b)[1..] == a[1..] + b;
      RemoveAllAppend(a[1..], b, value);
    }
  }

  /** A list without the value is left as it is. */
  lemma {:induction false} RemoveAbsent(list: seq<string>, value: string)
    requires value !in list
    ensures RemoveAll(list, value) == list
  {
    if list != [] {
      RemoveAbsent(list[1..], value);
    }
  }

  /** The `onCheckedChange` handler of a checkbox: checking appends the value,
      unchecking removes every occurrence. */
  function Toggle(list: seq<string>, value: string, checked: bool): (r: seq<string>)
    ensures checked ==> r == list + [value]
    ensures !checked ==> value !in r && forall x :: x != value ==> multiset(r)[x] == multiset(list)[x]
  {
    if checked then list + [value] else RemoveAll(list, value)
  }

  /** Checking and then unchecking a box gives back the list it started from. */
  lemma CheckThenUncheck(list: seq<string>, value: string)
    requires value !in list
    ensures Toggle(Toggle(list, value, true), value, false) == list
  {
    RemoveAllAppend(list, [value], value);
    RemoveAbsent(list, value);
    assert RemoveAll([value], value) == [];
  }

  // ---------------------------------------------------------------------
  // Tri-state selects

  /** The select's value for a tri-state field: "all" for null. */
  function TriEncode(x: Option<bool>, yes: string, no: string): (value: string)
    ensures yes != "all" && no != "all" ==> (value == "all" <==> x == None)
    ensures value in {"all", yes, no}
  {
    match x
    case None => "all"
    case Some(b) => if b then yes else no
  }

  /** The field for a select value: null for "all", otherwise whether it is the "yes" label. */
  function TriDecode(value: string, yes: string): (x: Option<bool>)
    ensures x == None <==> value == "all"
    ensures x == Some(true) <==> value != "all" && value == yes
  {
    if value == "all" then None else Some(value == yes)
  }

  /** Decoding the encoded field gives it back, for any labels distinct from
      each other and from "all". */
  lemma TriRoundTrip(x: Option<bool>, yes: string, no: string)
    requires yes != no && yes != "all" && no != "all"
    ensures TriDecode(TriEncode(x, yes, no), yes) == x
  {
  }

  /** The processing-status select: all / processed / unprocessed. */
  lemma ProcessedSelectRoundTrip(x: Option<bool>)
    ensures TriDecode(TriEncode(x, "processed", "unprocessed"), "processed") == x
  {
    TriRoundTrip(x, "processed", "unprocessed");
  }

  /** The flashcards select: all / with / without. */
  lemma FlashcardsSelectRoundTrip(x: Option<bool>)
    ensures TriDecode(TriEncode(x, "with", "without"), "with") == x
  {
    TriRoundTrip(x, "with", "without");
  }
}

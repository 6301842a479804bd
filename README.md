# learninghub in Dafny

A Dafny model of the logic at the centre of learninghub, a note-taking and
spaced-repetition app (a Next.js web app with a SQLite store and a browser
extension that captures pages). The model covers the two schedulers that
decide when a flashcard comes back. It also covers the string and record
transformations around them, and the small client-side state holders.
Each core source file becomes one Dafny module:

- `Srs` (lib/srs.ts): the SM-2-style updater, the due test, days until
  review, and the validation of parsed schedule data.
- `SrsReview` (components/srs-review.tsx): the interval tables, the due
  list re-derived from the current cards, and the review session as a class.
- `FlashcardView` (components/flashcard.tsx): the two-step flip with its
  animation guard, the rating handler and the difficulty colours.
- `CsvExport` (app/api/srs/export/route.ts): the CSV file with the field
  quoting of section 2 of RFC 4180 (rule 7) and LF line ends, with a CSV
  reader against which the export round-trips.
- `Db` (lib/db.ts): the text and parameters of the item listing query, the
  preference update, and the `|| null` normalisation of the inserts.
- `InboxView` (components/inbox-view.tsx): the conversion of stored items,
  the seven filters, the comparator and the category list.
- `AdvancedFilters` (components/advanced-filters.tsx): field updates, the
  active-filter count, the checkbox lists and the three-way selects.
- `InboxCard` (components/inbox-card.tsx): tag parsing and the edit form.
- `UseItems` (hooks/use-items.ts) and `ItemsRoute` (app/api/items/route.ts):
  paginated fetching on both sides of the request.
- `UseProcessing` (hooks/use-processing.ts): the set of items being processed.
- `DashboardStats` (app/api/dashboard/stats/route.ts): the recent-activity
  list and the answers of the stats handler.
- `DashboardUsage` (components/dashboard-wrapper.tsx): plan limits and usage bars.
- `DashboardPage` (app/page.tsx): the recent-search list and the category badges.
- `SearchSuggestions` (components/search-suggestions.tsx): the suggestion
  filter and when the drop-down renders.
- `ExtensionOptions` (extension/options.js): settings validation, save,
  reset and load.
- `InboxRoute` (app/api/inbox/route.ts): the capture handler, the removal
  of the `data:` URL header of section 3 of RFC 2397, and the stored image path.

Two support modules hold what the JavaScript runtime provides:

- `Js`: truthiness, `||`, `parseInt` with NaN, `String(n)`, `trim`,
  `split`, `join`, `toLowerCase` and `includes`.
- `Sorting`: a stable insertion sort that stands in for `Array.prototype.sort`
  with a comparator that is a total preorder.

React components and hooks become classes whose fields are the `useState`
slots and whose methods are the handlers. Where a property spans several
steps, a method is specified by a transition function on a state value, and
the lemmas are stated about that function. The clock, the generated ids,
database answers and the outcome of each I/O step are parameters.

Two behaviours of the code are modelled as written, although they look
unintended:

- lib/srs.ts:36-44 maps `good` to 2, and the branch commented "Failed or
  hard" tests `q < 3`. So `good` resets progress like `again` and `hard`,
  and only `easy` grows the interval (`Srs.LapseResets`).
- components/srs-review.tsx:84 computes the due list again from the current
  cards on every render. A rated card is no longer due, so it leaves that
  list, while lines 105-106 still advance the index. The consequence is
  recorded under Findings.

## Model

| member | source | states |
|---|---|---|
| Srs.QualityOrdinal | lib/srs.ts:37-39 | the quality map gives 0..3, and 3 exactly for easy |
| Srs.Round | lib/srs.ts:54 | `Math.round` lies within one half of its argument |
| Srs.Ceil | lib/srs.ts:79 | `Math.ceil` is the least integer not below its argument |
| Srs.CreateSrsData | lib/srs.ts:17-29 | a new card has interval 1, no repetitions, ease 2.5, is valid, is not due now and is due one day later |
| Srs.ClampEase | lib/srs.ts:59 | the ease after `Math.max` is at least 1.3 and at least the raw value, and is one of the two |
| Srs.UpdateSrs | lib/srs.ts:62 | the next review is the interval in days after the rating time |
| Srs.LapseResets | lib/srs.ts:41-44 | again, hard and good (ordinals below 3) reset repetitions to 0 and interval to 1 and keep the ease |
| Srs.EasyDelta | lib/srs.ts:58 | with quality 3 the SM-2 ease increment is -0.14 |
| Srs.EasyFields | lib/srs.ts:45-60 | easy adds one repetition, takes the interval from the ladder and clamps the lowered ease |
| Srs.PassIntervalGrown | lib/srs.ts:53-55 | from the third passing repetition the interval is the rounded product of interval and ease |
| Srs.EasyAdvances | lib/srs.ts:47-59 | easy gives interval 1 on the first repetition, 6 on the second, and ease max(ease - 0.14, 1.3) |
| Srs.EasyGrowsByEase | lib/srs.ts:53-54 | past the second repetition easy sets the interval to round(interval * ease) |
| Srs.EaseBounded | lib/srs.ts:57-59 | on a valid state no rating raises the ease or takes it under 1.3 |
| Srs.RoundedProductAtLeast | lib/srs.ts:54 | rounding a whole interval of at least 1 times an ease of at least 1.3 never shortens it |
| Srs.PassIntervalValid | lib/srs.ts:49-55 | the interval after a pass is a whole number of at least one day |
| Srs.UpdatePreservesValid | lib/srs.ts:31-70 | whole interval of at least one day, whole repetitions and ease at least 1.3 are kept by every rating |
| Srs.IntervalNonDecreasing | lib/srs.ts:53-55 | from the third consecutive easy on the interval never shrinks |
| Srs.GrownIntervalAtLeast | lib/srs.ts:53-55 | past the first two repetitions, the next interval of a whole interval of at least one day with ease at least 1.3 is never shorter |
| Srs.IsDueForReview | lib/srs.ts:72-74 | due exactly when the review time has come, and exactly when `getDaysUntilReview` is not positive (also `DueIffNoDaysLeft`) |
| Srs.GetDaysUntilReview | lib/srs.ts:76-80 | the days until the review, rounded up: not below the exact day count and less than one day above it |
| Srs.DueIffNoDaysLeft | lib/srs.ts:72-80 | a card is due exactly when `getDaysUntilReview` is not positive |
| Srs.NumberField | lib/srs.ts:90-93 | a field is read only when the parsed value is an object holding a number under that key |
| Srs.ParseSrsData | lib/srs.ts:86-101 | the data is returned exactly when all four fields are numbers, and then holds their values; a throwing parse gives null |
| SrsReview.Intervals | components/srs-review.tsx:16-20 | each rating has a table of six intervals |
| SrsReview.IntervalDays | components/srs-review.tsx:22 | the interval chosen is between 1 and 90 days |
| SrsReview.CalculateNextReview | components/srs-review.tsx:14-25 | the next review is between one and ninety days after now |
| SrsReview.LastEntryFromFive | components/srs-review.tsx:22 | from five reviews on the last table entry (90, 60 or 30 days) is used |
| SrsReview.TablesOrdered | components/srs-review.tsx:16-22 | more reviews never shorten the interval, and easy >= medium >= hard at every count |
| SrsReview.DueCards | components/srs-review.tsx:84 | the due list holds exactly the cards whose review time has come |
| SrsReview.DueCardsAppend | components/srs-review.tsx:84 | the filter keeps the input order (it distributes over concatenation) |
| SrsReview.DueCardsIdempotent | components/srs-review.tsx:84 | filtering the due list again changes nothing |
| SrsReview.DueCardsUnique | components/srs-review.tsx:84 | distinct ids stay distinct in the due list |
| SrsReview.RateCards | components/srs-review.tsx:89-100 | rating maps the card list to one of the same length |
| SrsReview.RateCardsOnlyTarget | components/srs-review.tsx:89-100 | only the card with the id changes: new difficulty, one more review, next review from the count before it |
| SrsReview.RatingLeavesDueList | components/srs-review.tsx:84-100 | until a day has passed, rating takes exactly the rated card out of the re-derived due list |
| SrsReview.WithoutUniqueId | components/srs-review.tsx:84-85 | with distinct ids, dropping the rated id removes exactly its position |
| SrsReview.CurrentCard | components/srs-review.tsx:85 | a card is on screen exactly when the index is inside the due list |
| SrsReview.AfterRating | components/srs-review.tsx:88-111 | one more review, the same number of cards, the index either one further or back to 0, and never a session reactivated; the exact step is `RatingStep` |
| SrsReview.RatingStep | components/srs-review.tsx:102-111 | a rating counts one review; the index advances unless the card was the last due one, when the session ends at 0 |
| SrsReview.AsWrittenSkipsNextCard | components/srs-review.tsx:84-111 | as written, the card after the rated one is skipped: the screen shows the card two places further |
| SrsReview.ThreeCardsDue | components/srs-review.tsx:84 | three cards due at time 0 form the due list, with distinct ids |
| SrsReview.ThreeDueCardsReviewOnlyTwo | components/srs-review.tsx:84-117 | three due cards: the session ends after two ratings and card "2" is never shown or rated |
| SrsReview.InPlaceShowsNextCard | components/srs-review.tsx:84-111 | with the index kept in place, the next card shown is the one right after the rated card |
| SrsReview.InPlaceFirstStep | components/srs-review.tsx:84-117 | the first corrected step shows the first due card, removes it from the due list and keeps the index at 0 |
| SrsReview.InPlaceReviewsEveryDueCard | components/srs-review.tsx:84-117 | with the corrected step a session over n due cards stays active n - 1 ratings, ends on the n-th, and leaves none due |
| SrsReview.RateCardsKeepsIds | components/srs-review.tsx:89-100 | rating keeps the ids distinct |
| SrsReview.Session.constructor | components/srs-review.tsx:77-81 | the initial state: the card list, index 0, nothing reviewed, inactive, daily goal 20 |
| SrsReview.Session.Progress | components/srs-review.tsx:86 | the progress is in (0, 100] while a card is on screen and 0 with nothing due |
| SrsReview.Session.HandleCardRating | components/srs-review.tsx:88-112 | the new state is the written rating step applied to the old one |
| SrsReview.Session.StartReview | components/srs-review.tsx:114-117 | the session becomes active at index 0 |
| SrsReview.Session.ResetReview | components/srs-review.tsx:119-122 | the session becomes inactive at index 0 |
| FlashcardView.RatingButtons | components/flashcard.tsx:135-170 | rating buttons are shown exactly on the back side, and then hard, medium and easy are all offered |
| FlashcardView.FlipRequested | components/flashcard.tsx:30-37 | a flip request leaves the card animating and does not turn it; an idle card owes the opposite of the side shown now, and an animating card is unchanged (also `FlipTakesTwoSteps`) |
| FlashcardView.TimerFired | components/flashcard.tsx:32-35 | the timer writes the side it owes and ends the animation; with no timer owed nothing changes (also `TwoFlipsRestore`) |
| FlashcardView.FlipWhileAnimatingIgnored | components/flashcard.tsx:31 | a flip request during the animation changes nothing |
| FlashcardView.FlipTakesTwoSteps | components/flashcard.tsx:30-37 | a flip starts the animation at once and turns the card only when the timer fires |
| FlashcardView.TwoFlipsRestore | components/flashcard.tsx:30-37 | two completed flips show the original side again |
| FlashcardView.HandlersKeepConsistent | components/flashcard.tsx:30-42 | every handler keeps "a timer is outstanding" and "animating" in step |
| FlashcardView.RateHidesButtons | components/flashcard.tsx:39-42 | after a rating no button is shown; with no flip in flight none appears when the timer fires |
| FlashcardView.GetDifficultyColor | components/flashcard.tsx:44-55 | easy, medium and hard get green, yellow and red classes; exactly the other names get gray |
| FlashcardView.DifficultyName | components/flashcard.tsx:86-87 | a difficulty is rendered as one of "easy", "medium", "hard" |
| FlashcardView.DifficultyColorsDistinct | components/flashcard.tsx:44-55 | the three difficulties get three different colours, none of them the default gray |
| FlashcardView.Card.constructor | components/flashcard.tsx:27-28 | a card starts on the front side and not animating |
| FlashcardView.Card.HandleFlip | components/flashcard.tsx:30-37 | the new state is the flip request applied to the old one |
| FlashcardView.Card.CompleteFlip | components/flashcard.tsx:33-36 | the new state is the timer's write applied to the old one |
| FlashcardView.Card.HandleRate | components/flashcard.tsx:39-42 | the card's id and the rating are reported, and the card goes back to the front |
| AdvancedFilters.UpdateFilter | components/advanced-filters.tsx:33-35 | the updated record holds the new value under the key and every other field unchanged |
| AdvancedFilters.FieldsDetermineFilters | components/advanced-filters.tsx:14-22 | two filter records that agree on every key are equal |
| AdvancedFilters.UpdateFilterLaws | components/advanced-filters.tsx:33-35 | writing back a field's own value changes nothing; a second write to a field replaces the first |
| AdvancedFilters.ActiveFilterCount | components/advanced-filters.tsx:49-59 | the count is at most 7 and is 0 only when no filter is set |
| AdvancedFilters.ReviewCountCounted | components/advanced-filters.tsx:57 | the slider adds one exactly when it is narrowed at either end |
| AdvancedFilters.NoActiveFilterIffCleared | components/advanced-filters.tsx:37-59 | within the slider's range, the count is 0 exactly for the record `clearAllFilters` installs |
| AdvancedFilters.RemoveAll | components/advanced-filters.tsx:113-116 | the filtered list lacks the value, is no longer, and keeps every other value as often as before |
| AdvancedFilters.RemoveAllAppend | components/advanced-filters.tsx:115 | the filter keeps order: it distributes over concatenation |
| AdvancedFilters.RemoveAbsent | components/advanced-filters.tsx:115 | a list without the value is kept as it is |
| AdvancedFilters.Toggle | components/advanced-filters.tsx:109-118 | checking appends the value; unchecking removes every copy and keeps the rest |
| AdvancedFilters.CheckThenUncheck | components/advanced-filters.tsx:109-118 | checking then unchecking an unchecked box restores the list |
| AdvancedFilters.TriEncode | components/advanced-filters.tsx:166 | the select shows "all" exactly for null, otherwise one of the two labels |
| AdvancedFilters.TriDecode | components/advanced-filters.tsx:167-169 | "all" gives null, the "yes" label true, anything else false |
| AdvancedFilters.TriRoundTrip | components/advanced-filters.tsx:166-169 | decoding the shown value gives the field back, for any two distinct labels other than "all" |
| AdvancedFilters.ProcessedSelectRoundTrip | components/advanced-filters.tsx:166-177 | the processing-status select round-trips |
| AdvancedFilters.FlashcardsSelectRoundTrip | components/advanced-filters.tsx:233-244 | the flashcards select round-trips |
| Sorting.Sort | components/inbox-view.tsx:119 | sorting returns a permutation of its input |
| Sorting.InsertSorted | components/inbox-view.tsx:119 | inserting into a sorted list keeps it sorted, for a total and transitive comparator |
| Sorting.SortSorted | components/inbox-view.tsx:119 | the sorted list is ordered by any total, transitive comparator |
| Sorting.Ties | components/inbox-view.tsx:119 | the elements the comparator ties with a given one, in list order; never more than the list holds |
| Sorting.InsertTies | components/inbox-view.tsx:119 | inserting `x` puts it in front of every element of the list it ties with; the other tied elements keep their order |
| Sorting.SortStable | components/inbox-view.tsx:119 | the sort is stable: for every element, the elements tied with it come out in the order they went in |
| InboxView.CardId | components/inbox-view.tsx:31 | a flashcard id starts with the item id and is longer than it plus `-card-` |
| InboxView.Faces | components/inbox-view.tsx:30-34 | the i-th flashcard is `${id}-card-${i}` with the i-th stored front and back |
| InboxView.ConvertToInboxItem | components/inbox-view.tsx:18-38 | every field: "Untitled" and "" defaults, image type exactly for a truthy image path, processed exactly for a truthy summary, tags and numbered flashcards |
| InboxView.CardIdsDistinct | components/inbox-view.tsx:31 | different positions give different flashcard ids |
| InboxView.ConvertedCardIdsDistinct | components/inbox-view.tsx:30-34 | the flashcards of one converted item have pairwise distinct ids |
| InboxView.Filtered | components/inbox-view.tsx:63-116 | the filtered list holds exactly the matching items, each as often as in the input |
| InboxView.FilteredIsSubMultiset | components/inbox-view.tsx:63-116 | the filtered list is a sub-multiset of the items and every member matches all seven filters |
| InboxView.DefaultsKeepEverything | components/inbox-view.tsx:52-116 | with the initial filters, an empty search and no category nothing is dropped |
| InboxView.RangesCountBackFromNow | components/inbox-view.tsx:92-97 | week and month keep exactly the items from the last 7 and 30 days, and week implies month |
| InboxView.LowerIdempotent | components/inbox-view.tsx:67 | lower-casing twice is lower-casing once |
| InboxView.SearchIgnoresCase | components/inbox-view.tsx:65-70 | the search gives the same answer for a query and its lower-case form |
| InboxView.SearchAndCategoryWitnesses | components/inbox-view.tsx:65-74 | a query in the title or a tag lets the item through the search; a tag in any case selects its category |
| InboxView.CompareStrings | components/inbox-view.tsx:126-129 | the string comparison gives -1, 0 or 1, and 0 exactly for equal strings |
| InboxView.CompareStringsAntisymmetric | components/inbox-view.tsx:126-129 | swapping the arguments negates the comparison |
| InboxView.CompareStringsTransitive | components/inbox-view.tsx:126-129 | the comparison is transitive |
| InboxView.CompareAntisymmetric | components/inbox-view.tsx:119-131 | the date, title and category comparisons are antisymmetric |
| InboxView.CompareTransitive | components/inbox-view.tsx:119-131 | the date, title and category comparisons are transitive |
| InboxView.InOrderIsTotalPreorder | components/inbox-view.tsx:119-133 | every key and order gives a total and transitive comparator |
| InboxView.FilteredAndSorted | components/inbox-view.tsx:62-136 | the result holds exactly the matching items, as often as they occur; its order is stated by `FilteredAndSortedSpec` |
| InboxView.FilteredAndSortedSpec | components/inbox-view.tsx:62-136 | the result is exactly the matching items, as often as they occur, ordered by the chosen key and order |
| InboxView.NewestFirst | components/inbox-view.tsx:119-133 | the default date, descending view lists newer items first |
| InboxView.AllTags | components/inbox-view.tsx:170 | every tag of every item is in the flat list, and everything in it is a tag of some item |
| InboxView.AllTagsAppend | components/inbox-view.tsx:170 | `flatMap` distributes over concatenation, so the tags come item by item in item order |
| InboxView.AllTagsOne | components/inbox-view.tsx:170 | one item contributes its own tags, in their own order |
| InboxView.Distinct | components/inbox-view.tsx:170 | the same values, each once |
| InboxView.FirstIndex | components/inbox-view.tsx:170 | the position of a value's first occurrence: it holds the value and no earlier position does |
| InboxView.RemoveAllKeepsFirstOrder | components/inbox-view.tsx:170 | removing every copy of one value keeps the order in which the other values first occur |
| InboxView.DistinctKeepsFirstOrder | components/inbox-view.tsx:170 | the categories come out in the order in which each tag first occurs, as a `Set` iterates |
| InboxView.AvailableCategories | components/inbox-view.tsx:170 | every tag of every item appears exactly once, and nothing else does |
| InboxCard.Mapped | components/inbox-card.tsx:50 | the mapped list has the same length and holds the function applied to each piece |
| InboxCard.TrimAll | components/inbox-card.tsx:50 | each piece is replaced by its trimmed text |
| InboxCard.NonEmpty | components/inbox-card.tsx:51 | `.filter(Boolean)` keeps exactly the non-empty strings and never lengthens the list |
| InboxCard.TrimmedTags | components/inbox-card.tsx:50-51 | trimming and filtering never gives more tags than pieces |
| InboxCard.TrimmedTagsClean | components/inbox-card.tsx:50-51 | every tag kept is non-empty and has no white space at either end |
| InboxCard.ParseTags | components/inbox-card.tsx:48-51 | at most one tag more than there are commas; every tag non-empty and trimmed |
| InboxCard.NonEmptyAppend | components/inbox-card.tsx:51 | the filter keeps order: it distributes over concatenation |
| InboxCard.MappedAppend | components/inbox-card.tsx:50 | the map keeps order: it distributes over concatenation |
| InboxCard.TrimmedTagsAppend | components/inbox-card.tsx:50-51 | trimming and filtering distributes over concatenation |
| InboxCard.NonEmptyKeepsAll | components/inbox-card.tsx:51 | a list of non-empty strings passes the filter whole |
| InboxCard.TrimmedOne | components/inbox-card.tsx:50-51 | one piece gives its trimmed text, or nothing when that is empty |
| InboxCard.ParseTagsAtComma | components/inbox-card.tsx:48-51 | tags keep their typed order: the text before the first comma gives the first tag |
| InboxCard.SpacedAt | components/inbox-card.tsx:42 | each tag after the first is written with one space before it |
| InboxCard.JoinSpaced | components/inbox-card.tsx:42 | joining with ", " is joining the space-prefixed tags with "," |
| InboxCard.TrimSpaced | components/inbox-card.tsx:50 | trimming a space-prefixed clean tag gives the tag |
| InboxCard.TrimmedSpacedTags | components/inbox-card.tsx:50-51 | space-prefixed clean tags trim and filter back to the tags |
| InboxCard.JoinAsParts | components/inbox-card.tsx:42-49 | the text of `tags.join(", ")` splits at commas into the first tag and the space-prefixed others |
| InboxCard.TrimmedParts | components/inbox-card.tsx:50-51 | those pieces trim and filter back to the tags |
| InboxCard.PartsWithoutComma | components/inbox-card.tsx:42 | no piece holds a comma when no tag does |
| InboxCard.ParseJoinedTags | components/inbox-card.tsx:42-51 | parsing `tags.join(", ")` of non-empty, trimmed, comma-free tags gives the tags back |
| InboxCard.EditForm.constructor | components/inbox-card.tsx:39-42 | the buffers start from the item's title, summary and joined tags, not editing |
| InboxCard.EditForm.HandleSave | components/inbox-card.tsx:44-54 | the item id and exactly the title, summary and parsed tags are submitted; edit mode ends, buffers stay |
| InboxCard.EditForm.HandleCancel | components/inbox-card.tsx:56-61 | all three buffers are reset from the item and edit mode ends |
| InboxCard.CancelThenSave | components/inbox-card.tsx:42-61 | cancelling then saving submits the item's own title, summary and clean tags |
| CsvExport.Escape | app/api/srs/export/route.ts:11-13 | doubling every `"` lengthens the value by exactly its number of quotes |
| CsvExport.Quote | app/api/srs/export/route.ts:11-13 | a field is wrapped in double quotes at both ends |
| CsvExport.Fields | app/api/srs/export/route.ts:11-13 | a card yields three values: front, back and tags, each `""` when missing |
| CsvExport.Row | app/api/srs/export/route.ts:14 | a line starts and ends with a quote and holds at least the three empty quoted fields and two commas |
| CsvExport.Rows | app/api/srs/export/route.ts:10-15 | one line per card, in card order |
| CsvExport.ExportCsv | app/api/srs/export/route.ts:9-17 | the file starts with the `Front,Back,Tags` header line, and is exactly the header iff there are no cards |
| CsvExport.Table | app/api/srs/export/route.ts:10-15 | the intended table: one three-value record per card, in order |
| CsvExport.ReadQuotedEscape | app/api/srs/export/route.ts:11-13 | reading an escaped value up to its closing quote recovers the value and leaves the rest untouched |
| CsvExport.FieldRoundTrip | app/api/srs/export/route.ts:11-13 | a quoted field reads back as the original value |
| CsvExport.RowRoundTrip | app/api/srs/export/route.ts:14 | a line reads back as the card's three values, whatever follows it |
| CsvExport.RowsRoundTrip | app/api/srs/export/route.ts:10-17 | the joined lines read back as one record per card |
| CsvExport.ExportRoundTrip | app/api/srs/export/route.ts:9-17 | parsing the exported file as CSV gives the header-free table of every card's front, back and tags: quotes, commas and line breaks inside values survive |
| CsvExport.JoinedRowsEndInQuote | app/api/srs/export/route.ts:17 | joining non-empty rows with line breaks leaves no trailing line break |
| CsvExport.NoTrailingNewline | app/api/srs/export/route.ts:17 | with at least one card the file ends with the last row's closing quote |
| Db.RenderPlaceholders | lib/db.ts:143-150 | a statement built from pieces has exactly one `?` per placeholder piece, when no supplied name holds a `?` |
| Db.PiecesAppend | lib/db.ts:143-147 | placeholder counts add up under concatenation, and literal pieces stay literal |
| Db.JoinPiecesFacts | lib/db.ts:144 | joining literal parts with a placeholder-free separator keeps them literal and keeps the sum of their placeholders |
| Db.Conditions | lib/db.ts:133-141 | one condition for a non-empty search and one for a non-empty tag |
| Db.BuildItemsQuery | lib/db.ts:111-151 | `getItems` builds the statement the pieces spell, the parameters `%q%` twice, `%"tag"%`, limit, offset, and the statement holds exactly as many `?` as parameters |
| Db.FixedPieces | lib/db.ts:120-147 | the fixed SQL holds no stray `?`: the search condition has two placeholders, the tag condition one, the ORDER/LIMIT/OFFSET tail two, the SELECT none |
| Db.WhereHoles | lib/db.ts:133-145 | the WHERE part holds two placeholders for a search and one for a tag |
| Db.PlaceholdersMatchParams | lib/db.ts:111-151 | for every option combination, the number of `?` in the statement equals the number of bound parameters |
| Db.WhereShapes | lib/db.ts:133-145 | ` WHERE ` appears only with a search or a tag; the search condition comes first and the two are joined by ` AND ` |
| Db.ParamDefaults | lib/db.ts:118-148 | an absent limit and offset become 50 and 0, given ones (even NaN) are passed as they are; the search pattern appears twice before the tag pattern |
| Db.Assignments | lib/db.ts:216 | one `key = ?` per preference key, in key order |
| Db.UpdateUserPrefs | lib/db.ts:214-219 | the values bound are the preference values, in the order of their keys |
| Db.AssignmentFacts | lib/db.ts:216 | the assignments carry one placeholder per key, and are literal when no key holds a `?` |
| Db.UpdatePlaceholdersMatchValues | lib/db.ts:214-219 | the update statement holds exactly one `?` per value, as long as no key contains a `?` |
| Db.Nullable | lib/db.ts:98-102 | `value \|\| null` is null exactly for a missing or empty value and the value otherwise |
| Db.CreateItemParams | lib/db.ts:95-103 | seven parameters in column order: id, the time, then url, title, raw text, image path and source, each null when missing or empty and otherwise its own text |
| Db.CreateAIOutputParams | lib/db.ts:166-174 | seven parameters in column order: id, item id, the time and model name, then summary, tags and srs, each null when missing or empty and otherwise its own text |
| Db.CreateCardParams | lib/db.ts:189-196 | six parameters in column order: id, item id, front and back, then tags (null when missing or empty, otherwise its own text), the time last |
| ItemsRoute.ReadOptions | app/api/items/route.ts:7-10 | an empty or absent search or tag is dropped and a present one kept; a present limit or offset is `parseInt` of its text, and an empty or absent one reads as 50 and 0 |
| ItemsRoute.ParseDefaults | app/api/items/route.ts:9-10 | the default strings `'50'` and `'0'` parse to the numbers 50 and 0 |
| ItemsRoute.Respond | app/api/items/route.ts:19-26 | the body carries the rows and the limit and offset used; more rows are reported exactly when the page is as long as the limit |
| ItemsRoute.OptionsReachQuery | app/api/items/route.ts:12-17 | the query receives the parsed limit and offset (NaN included) as its last two parameters and has one `?` per parameter |
| ItemsRoute.DefaultPage | app/api/items/route.ts:9-24 | without limit and offset the handler reads 50 rows from offset 0, and reports more exactly when 50 came back |
| ItemsRoute.NaNLimitHasNoMore | app/api/items/route.ts:9-24 | a limit that is not a number never reports more rows, since no length equals NaN |
| UseItems.ErrorMessage | hooks/use-items.ts:41-57 | a non-ok response reports `Failed to fetch items`; a thrown error reports its own message, or `An error occurred` when it has none |
| UseItems.Request | hooks/use-items.ts:34-38 | the query string holds the search and tag only when non-empty, the limit, and offset 0 on a reset or the held offset otherwise |
| UseItems.Finished | hooks/use-items.ts:45-60 | loading ends; a reset replaces the list and sets the offset to the page length, a next page is appended and the offset advances by its length; a failure keeps everything but records the error |
| UseItems.FetchKeepsSynced | hooks/use-items.ts:29-61 | when the offset counts the items held, it still does after starting a fetch and after every way the fetch can end |
| UseItems.ResetResyncs | hooks/use-items.ts:47-49 | a successful reset leaves exactly the fetched page, with the offset counting it, whatever came before |
| UseItems.FailureKeepsList | hooks/use-items.ts:56-57 | a failed fetch keeps the list, the offset and `hasMore`, and sets an error |
| UseItems.RequestReadsBack | hooks/use-items.ts:34-38 | the items route reads the hook's query string back as the hook's own search, tag, limit and offset |
| UseItems.LoadMoreFromRoute | hooks/use-items.ts:50-55 | a next page served by the route is appended, the offset still counts the items, and more is expected exactly after a full page |
| UseItems.LoadMoreStarted | hooks/use-items.ts:68-72 | a next-page fetch starts exactly when none is loading and more is expected; otherwise nothing changes |
| UseItems.RefetchFailureLosesOffset | hooks/use-items.ts:63-66 | as written, a refetch that fails leaves one item held with offset 0, and the next `loadMore` asks for offset 0 again |
| UseItems.CorrectedRefetchKeepsSynced | hooks/use-items.ts:63-66 | without the early `setOffset(0)`, a refetch keeps the offset counting the items however it ends |
| UseItems.ItemsHook.constructor | hooks/use-items.ts:20-27 | the hook starts empty, loading, without error, at offset 0, expecting more, with a page size of 50 unless given |
| UseItems.ItemsHook.BeginFetch | hooks/use-items.ts:29-40 | the request sent, and loading set with the error cleared |
| UseItems.ItemsHook.CompleteFetch | hooks/use-items.ts:41-60 | the new state is the finished fetch of the old one |
| UseItems.ItemsHook.Refetch | hooks/use-items.ts:63-66 | the offset is cleared and a reset request sent |
| UseItems.ItemsHook.LoadMore | hooks/use-items.ts:68-72 | a request is sent exactly when no fetch is running and more is expected, and it asks for the held offset |
| UseProcessing.CallbackFor | hooks/use-processing.ts:21-30 | exactly one callback: `onSuccess` with the data for an ok response, otherwise `onError` with the server's error, `Failed to process item`, the thrown message or `An error occurred` |
| UseProcessing.ErrorMessagesNonEmpty | hooks/use-processing.ts:23-29 | a failure never reports an empty message, unless the thrown error itself had one |
| UseProcessing.Processing.constructor | hooks/use-processing.ts:9 | nothing is in flight at first |
| UseProcessing.Processing.Begin | hooks/use-processing.ts:12-15 | a request is sent exactly when the id was not in flight; afterwards the id is in flight and no other id changed |
| UseProcessing.Processing.Finish | hooks/use-processing.ts:26-36 | the callback for the response runs, and the id leaves the set whatever happened, no other id changing |
| UseProcessing.ProcessItem | hooks/use-processing.ts:11-38 | for an id not in flight, one callback for the response runs and the in-flight set ends as it began |
| DashboardStats.FromItem | app/api/dashboard/stats/route.ts:60-65 | an item entry keeps the id and time, is marked as an item, and is titled `Untitled Item` when the title is missing or empty |
| DashboardStats.CardTitle | app/api/dashboard/stats/route.ts:68 | lengths count UTF-16 code units: a front of at most 50 units is kept; a longer one keeps a prefix of 50 units (49 when the 50th begins a surrogate pair) followed by `...`, at most 53 units in all |
| DashboardStats.NarrowCardTitle | app/api/dashboard/stats/route.ts:68 | without characters above U+FFFF, a front of at most 50 characters is kept and a longer one is cut to 50 and followed by `...` |
| DashboardStats.WideCardTitle | app/api/dashboard/stats/route.ts:68 | a front of more than 25 characters above U+FFFF (emoji, say) is cut after 25 of them |
| DashboardStats.FromCard | app/api/dashboard/stats/route.ts:66-71 | a card entry keeps the id and time, is marked as a card, and is titled by its shortened front |
| DashboardStats.FromItems | app/api/dashboard/stats/route.ts:60 | one entry per item, in order |
| DashboardStats.FromCards | app/api/dashboard/stats/route.ts:66 | one entry per card, in order |
| DashboardStats.NewerFirstIsTotalPreorder | app/api/dashboard/stats/route.ts:73 | the comparator `b - a` on the times is a total preorder, so sorting by it is well defined |
| DashboardStats.ByDate | app/api/dashboard/stats/route.ts:59-73 | the merged entries are a permutation of the item and card entries, newest first |
| DashboardStats.RecentActivity | app/api/dashboard/stats/route.ts:59-74 | at most ten entries, all drawn from the merged ones, newest first |
| DashboardStats.NothingDropped | app/api/dashboard/stats/route.ts:43-74 | with at most five items and five cards, as the queries return, the cut to ten drops nothing |
| DashboardStats.MergedEntry | app/api/dashboard/stats/route.ts:59-72 | every merged entry is the item entry or card entry at its position |
| DashboardStats.EntriesComeFromInputs | app/api/dashboard/stats/route.ts:59-74 | every recent entry is made from one of the items or one of the cards returned |
| DashboardStats.DashboardStats | app/api/dashboard/stats/route.ts:6-89 | 401 exactly without a user id, 404 exactly when the user is not found, the stats exactly when every call answers, with the user's counts, the processed count and the recent activity; otherwise 500 |
| DashboardStats.ChecksBeforeLaterCalls | app/api/dashboard/stats/route.ts:9-24 | the 401 and 404 answers do not depend on the calls that would come after them |
| DashboardStats.StatsActivity | app/api/dashboard/stats/route.ts:59-81 | a successful answer lists at most ten entries, newest first, drawn from the returned items and cards |
| DashboardUsage.LimitsFor | components/dashboard-wrapper.tsx:76-83 | the lookup finds a row exactly for the free, pro and enterprise plans (free allows 10 items and 50 cards, the others are unlimited, -1); it finds an inherited property without limits exactly for the names of `Object.prototype`, and `undefined` for any other name |
| DashboardUsage.CurrentPlan | components/dashboard-wrapper.tsx:82 | a missing or empty plan is the free plan, any other is kept |
| DashboardUsage.TableLimitsValid | components/dashboard-wrapper.tsx:76-80 | every limit in the table is unlimited or positive, so the divisions are defined |
| DashboardUsage.Usage | components/dashboard-wrapper.tsx:85-91 | 100 for an unlimited plan; otherwise the count (0 when missing) as a percentage of the limit, never negative |
| DashboardUsage.LabelInfinityIffUnlimited | components/dashboard-wrapper.tsx:138 | the label is the infinity sign exactly for an unlimited plan, and `count/limit` otherwise |
| DashboardUsage.Panel | components/dashboard-wrapper.tsx:82-91 | the panel fails exactly when the lookup gives `undefined`, and otherwise shows the session's plan; for a plan in the table, each bar is the usage of its count against the plan's limit and each label the `count/limit` or `∞` text of that limit |
| DashboardUsage.FreePlanPanel | components/dashboard-wrapper.tsx:82-154 | a session with no plan, an empty plan or `free` shows the free plan: ten percent per item and two percent per card, with labels `n/10` and `n/50` |
| DashboardUsage.PaidPlansUnlimited | components/dashboard-wrapper.tsx:78-91 | the paid plans show full bars and infinity labels whatever the counts |
| DashboardUsage.FullBarAtLimit | components/dashboard-wrapper.tsx:85-91 | on a limited plan a bar reaches 100 exactly when the count has reached the limit |
| DashboardUsage.InheritedPlanShowsNaN | components/dashboard-wrapper.tsx:83-91 | a plan named after an inherited property still renders, with NaN in both bars and labels of the form `count/undefined` |
| DashboardUsage.UnknownPlanHasNoPanel | components/dashboard-wrapper.tsx:83-85 | any other plan outside the table leaves the limits undefined, so reading them throws and no panel is shown |
| DashboardPage.NextRecentSearches | app/page.tsx:45-48 | a non-blank trimmed query not yet listed goes in front of the first four entries; a blank or already listed one leaves the list alone |
| DashboardPage.RecentSearchesBounded | app/page.tsx:45-48 | a list of at most five stays at most five, and a non-blank query is listed afterwards, in front when it is new |
| DashboardPage.RecentSearchesStayDistinct | app/page.tsx:46-47 | a submit never introduces a duplicate entry |
| DashboardPage.SubmitIdempotent | app/page.tsx:45-48 | submitting the same query twice in a row changes the list once |
| DashboardPage.ClickedCategory | app/page.tsx:137-141 | a click clears the selection exactly when that badge was selected, and selects the badge otherwise |
| DashboardPage.TwoClicks | app/page.tsx:137-141 | two clicks on one badge restore the selection when it was empty or that badge; coming from another badge they leave nothing selected |
| DashboardPage.InitialRecentSearchesDistinct | app/page.tsx:24-28 | the three initial recent searches are distinct and within the bound of five |
| DashboardPage.Dashboard.constructor | app/page.tsx:20-28 | empty query, no category, suggestions hidden, the three initial searches, and the list invariant holds |
| DashboardPage.Dashboard.HandleSearchChange | app/page.tsx:38-43 | the query follows the input; the suggestions open for a non-empty value and otherwise stay as they were |
| DashboardPage.Dashboard.HandleSearchSubmit | app/page.tsx:45-50 | the recent list is updated for the query, the suggestions close, and the list stays bounded and duplicate-free |
| DashboardPage.Dashboard.PickSuggestion | app/page.tsx:101-104 | the query becomes the suggestion, which is then submitted |
| DashboardPage.Dashboard.SetSuggestionsShown | app/page.tsx:86-93 | focus opens the suggestions, Escape or a press outside closes them; nothing else changes |
| DashboardPage.Dashboard.ClickCategory | app/page.tsx:137-143 | a click, Enter or Space on a badge toggles it as the selected category; nothing else changes |
| SearchSuggestions.Matching | components/search-suggestions.tsx:28-41 | exactly the entries that contain the query ignoring case and are not the query itself, never more than the list holds |
| SearchSuggestions.MatchingKeepsOrder | components/search-suggestions.tsx:39-41 | the filter keeps the list order of any two offered entries |
| SearchSuggestions.Derive | components/search-suggestions.tsx:26-49 | an empty query clears the suggestions and hides them; otherwise the first five matches of the fixed list, shown exactly when anything matched |
| SearchSuggestions.ShownIffListed | components/search-suggestions.tsx:43-47 | after the effect the suggestions are shown exactly when there are some to list |
| SearchSuggestions.FewMatchesAllListed | components/search-suggestions.tsx:43 | with at most five matches every match is listed |
| SearchSuggestions.Render | components/search-suggestions.tsx:51-113 | nothing is rendered exactly when there is nothing to suggest, no recent search and no query; recent and popular searches, at most five each, only for an empty query |
| SearchSuggestions.RenderAfterEffect | components/search-suggestions.tsx:26-53 | with an empty query and recent searches the drop-down lists them and no suggestion; without recent searches it renders nothing exactly for the empty query, so a query without matches renders an empty card |
| ExtensionOptions.ReadForm | extension/options.js:41-45 | the URL is taken as typed and the two numbers are what `parseInt` makes of their fields |
| ExtensionOptions.Validate | extension/options.js:48-61 | the first broken rule in order: an empty URL, then an interval below 5 or above 300, then a length below 1000 or above 20000 |
| ExtensionOptions.ValidatedRanges | extension/options.js:53-58 | accepted settings have a URL, and every accepted number lies within its range |
| ExtensionOptions.NotANumberAccepted | extension/options.js:53-58 | numbers that are NaN pass validation, since every comparison with NaN is false |
| ExtensionOptions.ParseEmpty | extension/options.js:43-44 | an empty field parses to NaN |
| ExtensionOptions.EmptyFieldsAccepted | extension/options.js:43-58 | with a URL and both number fields empty, the settings read as NaN and are accepted |
| ExtensionOptions.DefaultsValid | extension/options.js:73-77 | the reset defaults pass validation |
| ExtensionOptions.Save | extension/options.js:39-69 | settings are stored exactly when they validate and storage does not throw; a validation failure shows its message; the status is an error exactly when nothing was stored |
| ExtensionOptions.Reset | extension/options.js:71-91 | the defaults are stored and shown unless storage throws, and they are valid; the status is "Settings reset to defaults" on success and the error "Failed to reset settings" exactly when storage throws |
| ExtensionOptions.NumberOr | extension/options.js:31-32 | a stored non-zero number is shown; a missing, zero or NaN one gives the fallback |
| ExtensionOptions.Load | extension/options.js:22-32 | each field shows its stored value, or its default when the stored value is missing or falsy |
| ExtensionOptions.LoadAfterSave | extension/options.js:22-69 | empty storage loads the defaults; what a save stored loads back, except that NaN numbers come back as the defaults |
| InboxRoute.LowerRun | app/api/inbox/route.ts:30 | the `[a-z]+` part of the pattern: the longest prefix of lower-case letters, stopping before the first other character |
| InboxRoute.LowerRunOf | app/api/inbox/route.ts:30 | letters followed by a non-letter give exactly those letters |
| InboxRoute.HeaderLength | app/api/inbox/route.ts:30 | the pattern matches exactly when the text starts with `data:image/`, at least one lower-case letter and `;base64,`, and the match runs over those three parts |
| InboxRoute.StripHeader | app/api/inbox/route.ts:30 | a matched header is removed and nothing else; an unmatched string is kept as it is |
| InboxRoute.StripDataUrl | app/api/inbox/route.ts:30 | removing the header of `data:image/<subtype>;base64,<payload>` gives the payload back |
| InboxRoute.StrippedHadHeader | app/api/inbox/route.ts:30 | conversely, a string that loses a header is an image `data:` URL around what is left |
| InboxRoute.OtherStringsKept | app/api/inbox/route.ts:30 | a string not starting with `data:image/` is kept whole |
| InboxRoute.StripsOneHeader | app/api/inbox/route.ts:30 | the pattern is anchored: only the first header goes, one nested in the payload stays |
| InboxRoute.ImagePath | app/api/inbox/route.ts:32-36 | the stored path is `/captures/<id>.png` |
| InboxRoute.ImagePathNamesItem | app/api/inbox/route.ts:32-36 | the id can be read back out of the stored path |
| InboxRoute.ImagePathInjective | app/api/inbox/route.ts:32-36 | distinct ids never share an image path |
| InboxRoute.CapturedItem | app/api/inbox/route.ts:44-51 | the item inserted has the generated id, the body's url, title and selection, the image path if one was saved, and the source `browser_extension` |
| InboxRoute.Post | app/api/inbox/route.ts:7-61 | a body that is not JSON, or is JSON `null`, gets a 500 with nothing written or inserted; a 400 exactly without url and title, with nothing written or inserted; otherwise, once the directory exists, the screenshot (if any) is written as `<id>.png` without its header, the item is inserted with the image path only when both steps succeeded, and the answer is the id unless the insert throws, then a 500 |
| InboxRoute.FailedScreenshotStillCreates | app/api/inbox/route.ts:37-53 | a screenshot that cannot be saved, whether `mkdir` or `writeFile` fails, still gives the created id, with an item without image path |
| Js.OrElse | app/api/items/route.ts:7-10 | `s \|\| fallback` gives the string when it is present and non-empty, and the fallback otherwise |
| Js.OrNull | lib/db.ts:98-102 | `s \|\| null` is null exactly for an absent or empty string and the string otherwise |
| Js.DigitChar | hooks/use-items.ts:37-38 | each digit 0..9 prints as a decimal digit character that reads back as itself |
| Js.NatToString | hooks/use-items.ts:37-38 | `toString()` of a non-negative integer is a non-empty run of decimal digits, of two or more exactly from 10 on |
| Js.NatToStringInjective | components/inbox-view.tsx:31 | different numbers print differently, so ids that end in them differ |
| Js.DigitsValueOfNatToString | hooks/use-items.ts:37-38 | the digits printed for a number have that number as their value |
| Js.LeadingDigits | app/api/items/route.ts:9-10 | the longest run of decimal digits at the front, stopping before the first other character |
| Js.LeadingDigitsOfDigits | app/api/items/route.ts:9-10 | a string made only of digits is read whole |
| Js.ParseInt | app/api/items/route.ts:9-10 | the empty text gives NaN and only a text holding a minus sign gives a negative number; `ParseIntNaN` states exactly when NaN comes out and `ParseIntOfNatToString` that printed numbers read back |
| Js.ParseIntOfNatToString | app/api/items/route.ts:9-10 | `parseInt` reads back exactly the number `toString` printed |
| Js.ParseIntNaN | extension/options.js:43-44 | `parseInt` gives NaN exactly when no digit follows the leading white space and sign |
| Js.Lower | components/inbox-view.tsx:67-70 | `toLowerCase` keeps the length and lowers each character on its own |
| Js.IncludesAt | components/inbox-view.tsx:67-70 | an occurrence at some position makes `includes` true |
| Js.IncludesWitness | components/inbox-view.tsx:67-70 | when `includes` is true there is a position where the substring occurs |
| Js.IncludesMeansOccurs | components/search-suggestions.tsx:40 | `includes` holds exactly when the substring occurs somewhere |
| Js.TrimStart | app/page.tsx:46 | the leading white space is dropped and nothing else: the result is a suffix, every character dropped before it is white space, and it does not start with white space |
| Js.TrimEnd | app/page.tsx:46 | the trailing white space is dropped and nothing else: the result is a prefix, every character dropped after it is white space, and it does not end with white space |
| Js.Trim | components/inbox-card.tsx:50 | `trim()` leaves no white space at either end, never lengthens, and keeps an already trimmed string; which characters it removes is stated by `Js.TrimBothEnds` |
| Js.TrimBothEnds | app/page.tsx:46-47 | `trim()` is `trimStart()` followed by `trimEnd()`, so with their contracts it removes exactly the white space at both ends and keeps the slice between |
| Js.UnitLength | app/api/dashboard/stats/route.ts:68 | `length` counts UTF-16 code units: at least one and at most two per character |
| Js.UnitLengthAppend | app/api/dashboard/stats/route.ts:68 | code-unit lengths add up over concatenation |
| Js.NarrowUnitLength | app/api/dashboard/stats/route.ts:68 | without characters above U+FFFF, `length` is the number of characters |
| Js.WideUnitLength | app/api/dashboard/stats/route.ts:68 | a string of characters above U+FFFF has twice as many code units as characters |
| Js.UnitPrefix | app/api/dashboard/stats/route.ts:68 | the longest prefix whose code units fit in the bound: the characters `substring(0, n)` keeps whole |
| Js.CountCharAppend | lib/db.ts:143-147 | occurrences of a character add up over concatenation |
| Js.Split | components/inbox-card.tsx:49 | `split(sep)` gives one more piece than there are separators, none holding the separator |
| Js.SplitNoSeparator | components/inbox-card.tsx:49 | a string without the separator splits into itself alone |
| Js.SplitAppend | components/inbox-card.tsx:49 | splitting cuts at the first separator and goes on with the rest |
| Js.SplitJoin | components/inbox-card.tsx:42-49 | `split` undoes `join` when no part contains the separator |

## Left out

- JavaScript numbers are `real` in `Srs` and `DashboardUsage`, and whole numbers elsewhere. IEEE-754 rounding (for example of `2.5 - 0.14`) is not modelled.
- LimitsFor: the inherited names are those of a standard `Object.prototype`. Properties that other code adds to it at run time are not modelled.
- CardTitle: when the 50th code unit of a long front is the first half of a surrogate pair, `substring(0, 50)` keeps that lone half before `...`. A Dafny string cannot hold half a pair, so the model ends the title before the pair.
- CallbackFor: an `onSuccess` callback that throws is caught at hooks/use-processing.ts:28-30, and then `onError` runs too. The model runs exactly one callback, because the only caller passes `refetch`, which does not throw.
- The export ends each record with LF (app/api/srs/export/route.ts:9,17), not with the CRLF that rule 1 of section 2 of RFC 4180 asks for. The model writes and reads LF as the route does, so files with CRLF line ends are not read back.
- DashboardStats.DashboardStats: the session's user id is a plain optional value. A `getServerSession` call that throws, which the catch at app/api/dashboard/stats/route.ts:8,82-87 turns into a 500, is not modelled.
- InboxRoute.Post: the body's fields are strings or absent. A truthy value of another JSON type is not modelled, for example `"url": 1`, or a numeric `screenshotDataUrl` whose `.replace` throws inside the inner try at app/api/inbox/route.ts:24-40 and so leaves the item without an image.
- `formatSRSData` (lib/srs.ts:82-84) is `JSON.stringify` alone, so it is not modelled.
- Srs.ParseSrsData: takes the value `JSON.parse` produced (or its failure) as a parameter, since the JSON grammar is not modelled. It returns the four fields only, while the source returns the parsed object together with any extra fields it holds.
- InboxView.ConvertToInboxItem: takes the `tags` and `cards` columns already decoded, for the same reason.
- InboxView.CompareStrings: `localeCompare` is modelled as the lexicographic order of code points. Locale collation is not modelled.
- Js.Lower: lowers ASCII letters only; full Unicode case mapping is not modelled.
- Js.Trim, Js.TrimStart, Js.TrimEnd and the skipping of leading white space in Js.ParseInt: the white space they recognise (`Js.IsSpace`) is the ASCII and Latin-1 white space, U+FEFF, U+2028 and U+2029. It does not include U+1680, U+2000 to U+200A, U+202F, U+205F or U+3000, which JavaScript also treats as white space.
- Js.ParseInt: decimal text only. The `0x` prefix and digits beyond the range of exact doubles are not modelled.
- The `today` filter compares local calendar days. They are computed from an explicit time-zone offset instead of `toDateString`.
- ISO date strings, as in the stats response, are the millisecond instants they denote.
- Sorting: a stable insertion sort stands in for the engine's `Array.prototype.sort`. For the total-preorder comparators used here, any stable sort gives the same order.
- Each async handler is a start step and a completion step, with the awaited answer as a parameter. Interleavings of several requests in flight (overlapping `fetchItems` calls, say) are not modelled.
- React's batching of state updates and functional `prev =>` updates are applied in program order.
- `handleUpdateItem` and `addNewItem` in components/inbox-view.tsx (lines 139-168) call a `setItems` that is never defined, so they have no behaviour to model.
- `handleProcessItem` in components/inbox-view.tsx (lines 142-152) only wires `processItem` to `refetch`, which are modelled in `UseProcessing` and `UseItems`.
- Executing SQL, `fetch`, `chrome.storage`, the DOM, `mkdir`/`writeFile` and base64 decoding are left out. Their outcomes (rows, a thrown error, a failed write) are parameters.
- The uuid of a capture and the clock are parameters.
- The 500 answers of the export and items routes are left out. They arise only when the database call throws, and that call is not modelled.
- `loadSettings` reporting a storage failure (extension/options.js:33-36) and the three-second hiding of the status message are left out.
- The options page markup (extension/options.html) is not part of this model.
- The inbox card's `startEditing`, its input `onChange` setters and the process button (components/inbox-card.tsx) only forward a value or a callback, so they are not modelled.
- The dashboard wrapper's stats fetch, the sign-in redirect and the remaining rendering of components/dashboard-wrapper.tsx are not modelled. The same goes for the tab, learning-mode and keyboard wiring of app/page.tsx.
- The database schema and connection set-up of lib/db.ts (lines 5-78), and its other one-statement helpers, are not modelled.

## Findings

| source | as written | input that shows it | evidently intended | confidence | as-written member | corrected member |
|---|---|---|---|---|---|---|
| components/srs-review.tsx:84-111 | after a rating the rated card leaves the re-derived due list and the index also advances, so the card that moves into the rated card's place is skipped | three cards due now; rate the first: the screen shows the third card, and after two ratings the session ends with the second card never shown | keep the index in place, because the due list has already shrunk, so that every due card is shown once | high (not executed) | SrsReview.ThreeDueCardsReviewOnlyTwo | SrsReview.InPlaceReviewsEveryDueCard |
| hooks/use-items.ts:63-66 | `refetch` sets the offset to 0 before the reset fetch, so a failed refetch keeps the old items with offset 0 | one item held at offset 1; refetch and let the request fail; the next `loadMore` asks for offset 0 again and appends duplicates | leave the offset to the reset fetch, which sets it from the page it receives | medium (not executed) | UseItems.RefetchFailureLosesOffset | UseItems.CorrectedRefetchKeepsSynced |

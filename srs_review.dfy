/** The review screen of components/srs-review.tsx: the table-driven
    scheduler, the due-card filter and the review-session state machine.
    Timestamps are milliseconds; `new Date()` is a parameter. */
module SrsReview {
  import opened Js

  datatype Difficulty = Easy | Medium | Hard

  datatype Flashcard = Flashcard(
    id: string,
    front: string,
    back: string,
    category: string,
    difficulty: Difficulty,
    nextReview: int,
    reviewCount: nat)

  /** The interval table, in days, for each rating. */
  function Intervals(difficulty: Difficulty): (t: seq<nat>)
    ensures |t| == 6
  {
    match difficulty
    case Easy => [1, 3, 7, 14, 30, 90]
    case Medium => [1, 2, 5, 10, 21, 60]
    case Hard => [1, 1, 3, 7, 14, 30]
  }

  /** `intervals[difficulty][Math.min(reviewCount, length - 1)]`. */
  function IntervalDays(difficulty: Difficulty, reviewCount: nat): (days: nat)
    ensures 1 <= days <= 90
  {
    var table := Intervals(difficulty);
    table[if reviewCount < |table| - 1 then reviewCount else |table| - 1]
  }

  /** `calculateNextReview(difficulty, reviewCount)` at time `now`. */
  function CalculateNextReview(difficulty: Difficulty, reviewCount: nat, now: int): (t: int)
    ensures now + DayMs <= t <= now + 90 * DayMs
  {
    now + IntervalDays(difficulty, reviewCount) * DayMs
  }

  /** Every review count from 5 on uses the last entry: 90, 60 or 30 days. */
  lemma LastEntryFromFive(difficulty: Difficulty, reviewCount: nat)
    requires reviewCount >= 5
    ensures IntervalDays(difficulty, reviewCount) == IntervalDays(difficulty, 5)
    ensures IntervalDays(difficulty, reviewCount) == (match difficulty case Easy => 90 case Medium => 60 case Hard => 30)
  {
  }

  /** More reviews never shorten the interval, and at every count easy waits
      at least as long as medium, which waits at least as long as hard. */
  lemma TablesOrdered(m: nat, n: nat)
    requires m <= n
    ensures forall d :: IntervalDays(d, m) <= IntervalDays(d, n)
    ensures IntervalDays(Hard, n) <= IntervalDays(Medium, n) <= IntervalDays(Easy, n)
  {
    forall d ensures IntervalDays(d, m) <= IntervalDays(d, n) {
      var t := Intervals(d);
      assert forall i, j :: 0 <= i <= j < 6 ==> t[i] <= t[j];
    }
  }

  // ---------------------------------------------------------------------
  // The due list

  predicate IsDue(card: Flashcard, now: int) {
    card.nextReview <= now
  }

  /** `cards.filter(card => card.nextReview <= now)`. */
  function DueCards(cards: seq<Flashcard>, now: int): (due: seq<Flashcard>)
    ensures |due| <= |cards|
    ensures forall c :: c in due <==> c in cards && IsDue(c, now)
  {
    if cards == [] then []
    else (if IsDue(cards[0], now) then [cards[0]] else []) + DueCards(cards[1..], now)
  }

  /** The filter keeps the input order: it distributes over concatenation. */
  lemma {:induction false} DueCardsAppend(a: seq<Flashcard>, b: seq<Flashcard>, now: int)
    ensures DueCards(a + b, now) == DueCards(a, now) + DueCards(b, now)
  {
    if a == [] {
      assert a + b == b;
    } else {
      assert (a + b)[1..] == a[1..] + b;
      DueCardsAppend(a[1..], b, now);
    }
  }

  /** Deriving the due list again from the due list changes nothing. */
  lemma {:induction false} DueCardsIdempotent(cards: seq<Flashcard>, now: int)
    ensures DueCards(DueCards(cards, now), now) == DueCards(cards, now)
  {
    if cards != [] {
      DueCardsIdempotent(cards[1..], now);
      var head := if IsDue(cards[0], now) then [cards[0]] else [];
      DueCardsAppend(head, DueCards(cards[1..], now), now);
    }
  }

  predicate UniqueIds(cards: seq<Flashcard>) {
    forall i, j :: 0 <= i < j < |cards| ==> cards[i].id != cards[j].id
  }

  lemma {:induction false} DueCardsUnique(cards: seq<Flashcard>, now: int)
    requires UniqueIds(cards)
    ensures UniqueIds(DueCards(cards, now))
  {
    if cards != [] {
      DueCardsUnique(cards[1..], now);
      var rest := DueCards(cards[1..], now);
      forall j | 0 <= j < |rest| ensures rest[j].id != cards[0].id {
        assert rest[j] in cards[1..];
      }
    }
  }

  // ---------------------------------------------------------------------
  // Rating

  /** The rated copy of a card: the new difficulty, a review date computed from
      the count before this review, and one more review. */
  function RateCard(card: Flashcard, rating: Difficulty, now: int): Flashcard {
    card.(difficulty := rating,
          nextReview := CalculateNextReview(rating, card.reviewCount, now),
          reviewCount := card.reviewCount + 1)
  }

  /** `prev.map(card => card.id === cardId ? rated : card)`. */
  function RateCards(cards: seq<Flashcard>, cardId: string, rating: Difficulty, now: int): (r: seq<Flashcard>)
    ensures |r| == |cards|
  {
    if cards == [] then []
    else
      var head := if cards[0].id == cardId then RateCard(cards[0], rating, now) else cards[0];
      [head] + RateCards(cards[1..], cardId, rating, now)
  }

  /** Only the card with the given id changes; count, order and every other card stay. */
  lemma {:induction false} RateCardsOnlyTarget(cards: seq<Flashcard>, cardId: string, rating: Difficulty, now: int)
    ensures var r := RateCards(cards, cardId, rating, now);
      forall i :: 0 <= i < |cards| ==>
        && (cards[i].id != cardId ==> r[i] == cards[i])
        && (cards[i].id == cardId ==>
              && r[i].id == cardId && r[i].front == cards[i].front && r[i].back == cards[i].back
              && r[i].category == cards[i].category
              && r[i].difficulty == rating
              && r[i].reviewCount == cards[i].reviewCount + 1
              && r[i].nextReview == now + IntervalDays(rating, cards[i].reviewCount) * DayMs)
  {
    if cards != [] {
      RateCardsOnlyTarget(cards[1..], cardId, rating, now);
      var r := RateCards(cards, cardId, rating, now);
      assert r[1..] == RateCards(cards[1..], cardId, rating, now);
    }
  }

  /** The cards that are due no longer once every card with the given id has been rated. */
  function WithoutId(cards: seq<Flashcard>, cardId: string): seq<Flashcard> {
    if cards == [] then []
    else (if cards[0].id == cardId then [] else [cards[0]]) + WithoutId(cards[1..], cardId)
  }

  /** Until a day has passed, rating a card takes exactly that card out of the due list. */
  lemma {:induction false} RatingLeavesDueList(cards: seq<Flashcard>, cardId: string, rating: Difficulty,
                                               now: int, t: int)
    requires t < now + DayMs
    ensures DueCards(RateCards(cards, cardId, rating, now), t) == WithoutId(DueCards(cards, t), cardId)
  {
    if cards != [] {
      RatingLeavesDueList(cards[1..], cardId, rating, now, t);
      var head := if IsDue(cards[0], t) then [cards[0]] else [];
      assert DueCards(cards, t) == head + DueCards(cards[1..], t);
      WithoutIdAppend(head, DueCards(cards[1..], t), cardId);
    }
  }

  lemma {:induction false} WithoutIdAppend(a: seq<Flashcard>, b: seq<Flashcard>, cardId: string)
    ensures WithoutId(a + b, cardId) == WithoutId(a, cardId) + WithoutId(b, cardId)
  {
    if a == [] {
      assert a + b == b;
    } else {
      assert (a + b)[1..] == a[1..] + b;
      WithoutIdAppend(a[1..], b, cardId);
    }
  }

  /** In a list of distinct ids, dropping the id at position k removes exactly that entry. */
  lemma {:induction false} WithoutUniqueId(cards: seq<Flashcard>, k: nat)
    requires UniqueIds(cards) && k < |cards|
    ensures WithoutId(cards, cards[k].id) == cards[..k] + cards[k + 1..]
  {
    if k == 0 {
      WithoutAbsentId(cards[1..], cards[0].id);
    } else {
      WithoutUniqueId(cards[1..], k - 1);
      assert cards[1..][k - 1].id == cards[k].id;
      assert cards[..k] == [cards[0]] + cards[1..][..k - 1];
      assert cards[k + 1..] == cards[1..][k..];
    }
  }

  lemma {:induction false} WithoutAbsentId(cards: seq<Flashcard>, cardId: string)
    requires forall i :: 0 <= i < |cards| ==> cards[i].id != cardId
    ensures WithoutId(cards, cardId) == cards
  {
    if cards != [] {
      WithoutAbsentId(cards[1..], cardId);
      assert [cards[0]] + cards[1..] == cards;
    }
  }

  // ---------------------------------------------------------------------
  // The session state machine

  /** The component's state slots. */
  datatype ReviewState = ReviewState(
    cards: seq<Flashcard>,
    currentCardIndex: int,
    reviewedToday: int,
    isReviewActive: bool)

  /** `dueCards[currentCardIndex]`, the card on screen (None renders no card). */
  function CurrentCard(s: ReviewState, shownAt: int): (c: Option<Flashcard>)
    ensures c.Some? <==> 0 <= s.currentCardIndex < |DueCards(s.cards, shownAt)|
  {
    var due := DueCards(s.cards, shownAt);
    if 0 <= s.currentCardIndex < |due| then Some(due[s.currentCardIndex]) else None
  }

  /** `handleCardRating(cardId, rating)` as it is written: `shownAt` is the time
      the due list on screen was derived, `now` the time of the rating. */
  function AfterRating(s: ReviewState, cardId: string, rating: Difficulty, shownAt: int, now: int): (r: ReviewState)
    ensures r.reviewedToday == s.reviewedToday + 1 && |r.cards| == |s.cards|
    ensures r.currentCardIndex == 0 || r.currentCardIndex == s.currentCardIndex + 1
    ensures r.isReviewActive ==> s.isReviewActive
  {
    var due := DueCards(s.cards, shownAt);
    var more := s.currentCardIndex < |due| - 1;
    ReviewState(
      RateCards(s.cards, cardId, rating, now),
      if more then s.currentCardIndex + 1 else 0,
      s.reviewedToday + 1,
      if more then s.isReviewActive else false)
  }

  function Started(s: ReviewState): ReviewState {
    s.(isReviewActive := true, currentCardIndex := 0)
  }

  function Reset(s: ReviewState): ReviewState {
    s.(isReviewActive := false, currentCardIndex := 0)
  }

  /** One rating counts one review; the index advances while the rated card
      was not the last due one, otherwise the session ends at index 0. */
  lemma RatingStep(s: ReviewState, cardId: string, rating: Difficulty, shownAt: int, now: int)
    ensures var r := AfterRating(s, cardId, rating, shownAt, now);
      && r.reviewedToday == s.reviewedToday + 1
      && |r.cards| == |s.cards|
      && (s.currentCardIndex < |DueCards(s.cards, shownAt)| - 1 ==>
            r.currentCardIndex == s.currentCardIndex + 1 && r.isReviewActive == s.isReviewActive)
      && (s.currentCardIndex >= |DueCards(s.cards, shownAt)| - 1 ==>
            r.currentCardIndex == 0 && !r.isReviewActive)
  {
  }

  /** As written, the card after the rated one is skipped: the rated card leaves
      the re-derived due list, so the next card slides into the rated card's
      place while the index moves one further. */
  lemma AsWrittenSkipsNextCard(s: ReviewState, rating: Difficulty, t: int, now: int)
    requires UniqueIds(s.cards) && t < now + DayMs
    requires 0 <= s.currentCardIndex && s.currentCardIndex + 2 < |DueCards(s.cards, t)|
    ensures var due := DueCards(s.cards, t);
      var r := AfterRating(s, due[s.currentCardIndex].id, rating, t, now);
      CurrentCard(r, t) == Some(due[s.currentCardIndex + 2])
  {
    var due := DueCards(s.cards, t);
    var k := s.currentCardIndex;
    DueCardsUnique(s.cards, t);
    RatingLeavesDueList(s.cards, due[k].id, rating, now, t);
    WithoutUniqueId(due, k);
    var after := due[..k] + due[k + 1..];
    assert after[k + 1] == due[k + 2];
  }

  /** Three cards due from time 0, for the concrete case below. */
  const CardA := Flashcard("1", "", "", "", Medium, 0, 0)
  const CardB := Flashcard("2", "", "", "", Medium, 0, 0)
  const CardC := Flashcard("3", "", "", "", Medium, 0, 0)

  lemma ThreeCardsDue()
    ensures DueCards([CardA, CardB, CardC], 0) == [CardA, CardB, CardC]
    ensures UniqueIds([CardA, CardB, CardC])
  {
    assert [CardA, CardB, CardC][1..] == [CardB, CardC];
    assert [CardB, CardC][1..] == [CardC];
    assert [CardC][1..] == [];
    assert DueCards([CardC], 0) == [CardC];
    assert DueCards([CardB, CardC], 0) == [CardB] + DueCards([CardC], 0);
    assert DueCards([CardA, CardB, CardC], 0) == [CardA] + DueCards([CardB, CardC], 0);
  }

  /** A concrete case: three cards due at time 0, each rating given to the
      card on screen.  The session ends after two ratings, and card "2" is
      never shown or rated. */
  lemma ThreeDueCardsReviewOnlyTwo()
    ensures
      var s0 := Started(ReviewState([CardA, CardB, CardC], 0, 0, false));
      var s1 := AfterRating(s0, "1", Easy, 0, 0);
      var s2 := AfterRating(s1, "3", Easy, 0, 0);
      && CurrentCard(s0, 0) == Some(CardA)
      && CurrentCard(s1, 0) == Some(CardC)
      && !s2.isReviewActive && s2.reviewedToday == 2
      && s2.cards[1] == CardB
  {
    var cards := [CardA, CardB, CardC];
    var s0 := Started(ReviewState(cards, 0, 0, false));
    ThreeCardsDue();
    AsWrittenSkipsNextCard(s0, Easy, 0, 0);
    var s1 := AfterRating(s0, "1", Easy, 0, 0);
    RatingLeavesDueList(cards, "1", Easy, 0, 0);
    WithoutUniqueId(cards, 0);
    assert |DueCards(s1.cards, 0)| == 2;
    RateCardsOnlyTarget(cards, "1", Easy, 0);
    RateCardsOnlyTarget(s1.cards, "3", Easy, 0);
  }

  /** The intended step: the rated card drops out of the re-derived list and
      the next card moves into its place, so the index stays where it is. */
  function AfterRatingInPlace(s: ReviewState, cardId: string, rating: Difficulty, shownAt: int, now: int): ReviewState {
    var due := DueCards(s.cards, shownAt);
    var more := s.currentCardIndex < |due| - 1;
    ReviewState(
      RateCards(s.cards, cardId, rating, now),
      if more then s.currentCardIndex else 0,
      s.reviewedToday + 1,
      if more then s.isReviewActive else false)
  }

  /** With the intended step the card shown next is the one right after the
      rated card, and the due list loses exactly the rated card. */
  lemma InPlaceShowsNextCard(s: ReviewState, rating: Difficulty, t: int, now: int)
    requires UniqueIds(s.cards) && t < now + DayMs
    requires 0 <= s.currentCardIndex && s.currentCardIndex + 1 < |DueCards(s.cards, t)|
    ensures var due := DueCards(s.cards, t);
      var k := s.currentCardIndex;
      var r := AfterRatingInPlace(s, due[k].id, rating, t, now);
      && DueCards(r.cards, t) == due[..k] + due[k + 1..]
      && CurrentCard(r, t) == Some(due[k + 1])
      && r.isReviewActive == s.isReviewActive
  {
    var due := DueCards(s.cards, t);
    var k := s.currentCardIndex;
    DueCardsUnique(s.cards, t);
    RatingLeavesDueList(s.cards, due[k].id, rating, now, t);
    WithoutUniqueId(due, k);
    var after := due[..k] + due[k + 1..];
    assert after[k] == due[k + 1];
  }

  /** `steps` ratings with the intended step, each given to the card on screen. */
  function RunInPlace(s: ReviewState, rating: Difficulty, t: int, now: int, steps: nat): ReviewState
    decreases steps
  {
    if steps == 0 then s
    else match CurrentCard(s, t)
      case None => s
      case Some(c) => RunInPlace(AfterRatingInPlace(s, c.id, rating, t, now), rating, t, now, steps - 1)
  }

  /** One intended step from the first due card of an active session. */
  lemma InPlaceFirstStep(s: ReviewState, rating: Difficulty, t: int, now: int)
    requires UniqueIds(s.cards) && t < now + DayMs
    requires s.isReviewActive && s.currentCardIndex == 0
    requires |DueCards(s.cards, t)| >= 1
    ensures var due := DueCards(s.cards, t);
      var s1 := AfterRatingInPlace(s, due[0].id, rating, t, now);
      && CurrentCard(s, t) == Some(due[0])
      && UniqueIds(s1.cards)
      && DueCards(s1.cards, t) == due[1..]
      && s1.currentCardIndex == 0
      && s1.isReviewActive == (|due| > 1)
      && s1.reviewedToday == s.reviewedToday + 1
  {
    var due := DueCards(s.cards, t);
    DueCardsUnique(s.cards, t);
    RatingLeavesDueList(s.cards, due[0].id, rating, now, t);
    WithoutUniqueId(due, 0);
    RateCardsKeepsIds(s.cards, due[0].id, rating, now);
  }

  /** With the intended step, a session started on n due cards stays active for
      n - 1 ratings, ends on the n-th, and has then rated every due card. */
  lemma {:induction false} InPlaceReviewsEveryDueCard(s: ReviewState, rating: Difficulty, t: int, now: int, n: nat)
    requires UniqueIds(s.cards) && t < now + DayMs
    requires s.isReviewActive && s.currentCardIndex == 0
    requires |DueCards(s.cards, t)| == n >= 1
    ensures var r := RunInPlace(s, rating, t, now, n);
      !r.isReviewActive && r.reviewedToday == s.reviewedToday + n && DueCards(r.cards, t) == []
    ensures forall k :: 0 < k < n ==> RunInPlace(s, rating, t, now, k).isReviewActive
    decreases n
  {
    var due := DueCards(s.cards, t);
    var s1 := AfterRatingInPlace(s, due[0].id, rating, t, now);
    InPlaceFirstStep(s, rating, t, now);
    forall k: nat | 0 < k <= n ensures RunInPlace(s, rating, t, now, k) == RunInPlace(s1, rating, t, now, k - 1) {
    }
    if n > 1 {
      InPlaceReviewsEveryDueCard(s1, rating, t, now, n - 1);
    }
  }

  lemma {:induction false} RateCardsKeepsIds(cards: seq<Flashcard>, cardId: string, rating: Difficulty, now: int)
    requires UniqueIds(cards)
    ensures UniqueIds(RateCards(cards, cardId, rating, now))
  {
    var r := RateCards(cards, cardId, rating, now);
    RateCardsOnlyTarget(cards, cardId, rating, now);
    assert forall i :: 0 <= i < |cards| ==> r[i].id == cards[i].id;
  }

  /** The review screen: the component's `useState` slots as fields. */
  class Session {
    var cards: seq<Flashcard>
    var currentCardIndex: int
    var reviewedToday: int
    var isReviewActive: bool
    const dailyGoal: int

    function State(): ReviewState
      reads this
    {
      ReviewState(cards, currentCardIndex, reviewedToday, isReviewActive)
    }

    constructor (initialCards: seq<Flashcard>)
      ensures State() == ReviewState(initialCards, 0, 0, false)
      ensures dailyGoal == 20
    {
      cards := initialCards;
      currentCardIndex := 0;
      reviewedToday := 0;
      isReviewActive := false;
      dailyGoal := 20;
    }

    /** The due list on screen, derived from the current cards at `shownAt`. */
    function Due(shownAt: int): seq<Flashcard>
      reads this
    {
      DueCards(cards, shownAt)
    }

    /** The progress bar: position of the current card among the due cards, in percent. */
    function Progress(shownAt: int): (p: real)
      reads this
      ensures 0 <= currentCardIndex < |Due(shownAt)| ==> 0.0 < p <= 100.0
      ensures |Due(shownAt)| == 0 ==> p == 0.0
    {
      var n := |Due(shownAt)|;
      if n > 0 then (currentCardIndex + 1) as real / n as real * 100.0 else 0.0
    }

    method HandleCardRating(cardId: string, rating: Difficulty, shownAt: int, now: int)
      modifies this
      ensures State() == AfterRating(old(State()), cardId, rating, shownAt, now)
    {
      var due := DueCards(cards, shownAt);
      cards := RateCards(cards, cardId, rating, now);
      reviewedToday := reviewedToday + 1;
      if currentCardIndex < |due| - 1 {
        currentCardIndex := currentCardIndex + 1;
      } else {
        isReviewActive := false;
        currentCardIndex := 0;
      }
    }

    method StartReview()
      modifies this
      ensures State() == Started(old(State()))
      ensures isReviewActive && currentCardIndex == 0
    {
      isReviewActive := true;
      currentCardIndex := 0;
    }

    method ResetReview()
      modifies this
      ensures State() == Reset(old(State()))
      ensures !isReviewActive && currentCardIndex == 0
    {
      isReviewActive := false;
      currentCardIndex := 0;
    }
  }
}

/** The flip-and-rate card of components/flashcard.tsx.  The 150 ms timer
    of a flip becomes an explicit completion step, TimerFired; the value
    the timer will write is held in `pending`. */
module FlashcardView {
  import opened Js
  import opened SrsReview

  /** The component's state slots, plus the write the timer still owes. */
  datatype FlipState = FlipState(isFlipped: bool, isAnimating: bool, pending: Option<bool>)

  /** A timer is outstanding exactly while the card is animating. */
  predicate Consistent(s: FlipState) {
    s.pending.Some? <==> s.isAnimating
  }

  /** `handleFlip()`: ignored while animating; otherwise the animation starts
      and the timer will set the opposite of the side shown now. */
  function FlipRequested(s: FlipState): (r: FlipState)
    ensures r.isAnimating && r.isFlipped == s.isFlipped
    ensures s.isAnimating ==> r == s
    ensures !s.isAnimating ==> r.pending == Some(!s.isFlipped)
  {
    if s.isAnimating then s
    else s.(isAnimating := true, pending := Some(!s.isFlipped))
  }

  /** The timer firing: `setIsFlipped(!isFlipped); setIsAnimating(false)`. */
  function TimerFired(s: FlipState): (r: FlipState)
    ensures s.pending.None? ==> r == s
    ensures s.pending.Some? ==> r.isFlipped == s.pending.value && !r.isAnimating && r.pending.None?
  {
    match s.pending
    case None => s
    case Some(flipped) => FlipState(flipped, false, None)
  }

  /** The state change of `handleRate`: back to the front. */
  function AfterRate(s: FlipState): FlipState {
    s.(isFlipped := false)
  }

  /** The rating buttons rendered below the card, in screen order. */
  function RatingButtons(s: FlipState): (buttons: seq<Difficulty>)
    ensures |buttons| > 0 <==> s.isFlipped
    ensures s.isFlipped ==> Hard in buttons && Medium in buttons && Easy in buttons
  {
    if s.isFlipped then [Hard, Medium, Easy] else []
  }

  /** A flip request during the animation changes nothing. */
  lemma FlipWhileAnimatingIgnored(s: FlipState)
    requires s.isAnimating
    ensures FlipRequested(s) == s
  {
  }

  /** A flip starts the animation at once and turns the card only when it completes. */
  lemma FlipTakesTwoSteps(s: FlipState)
    requires Consistent(s) && !s.isAnimating
    ensures FlipRequested(s).isAnimating && FlipRequested(s).isFlipped == s.isFlipped
    ensures TimerFired(FlipRequested(s)) == FlipState(!s.isFlipped, false, None)
  {
  }

  /** Two completed flips show the original side again. */
  lemma TwoFlipsRestore(s: FlipState)
    requires Consistent(s) && !s.isAnimating
    ensures TimerFired(FlipRequested(TimerFired(FlipRequested(s)))) == s
  {
    FlipTakesTwoSteps(s);
    FlipTakesTwoSteps(TimerFired(FlipRequested(s)));
  }

  /** Every handler keeps the timer and the animation flag in step. */
  lemma HandlersKeepConsistent(s: FlipState)
    requires Consistent(s)
    ensures Consistent(FlipRequested(s)) && Consistent(TimerFired(s)) && Consistent(AfterRate(s))
  {
  }

  /** After a rating no rating button is shown, unless a flip still in flight
      turns the card over again when its timer fires. */
  lemma RateHidesButtons(s: FlipState)
    ensures RatingButtons(AfterRate(s)) == []
    ensures !s.isAnimating && Consistent(s) ==> RatingButtons(TimerFired(AfterRate(s))) == []
  {
  }

  const GreenClasses := "bg-green-100 text-green-800 dark:bg-green-900/30 dark:text-green-300"
  const YellowClasses := "bg-yellow-100 text-yellow-800 dark:bg-yellow-900/30 dark:text-yellow-300"
  const RedClasses := "bg-red-100 text-red-800 dark:bg-red-900/30 dark:text-red-300"
  const GrayClasses := "bg-gray-100 text-gray-800 dark:bg-gray-900/30 dark:text-gray-300"

  /** `getDifficultyColor(difficulty)`: the badge classes for a difficulty name. */
  function GetDifficultyColor(difficulty: string): (classes: string)
    ensures difficulty == "easy" ==> classes == GreenClasses
    ensures difficulty == "medium" ==> classes == YellowClasses
    ensures difficulty == "hard" ==> classes == RedClasses
    ensures classes == GrayClasses <==> difficulty != "easy" && difficulty != "medium" && difficulty != "hard"
  {
    if difficulty == "easy" then GreenClasses
    else if difficulty == "medium" then YellowClasses
    else if difficulty == "hard" then RedClasses
    else GrayClasses
  }

  /** The name a card's difficulty is rendered with. */
  function DifficultyName(d: Difficulty): (name: string)
    ensures name in {"easy", "medium", "hard"}
  {
    match d
    case Easy => "easy"
    case Medium => "medium"
    case Hard => "hard"
  }

  /** The three difficulties get three different colours, none of them the gray default. */
  lemma DifficultyColorsDistinct(d: Difficulty, e: Difficulty)
    ensures GetDifficultyColor(DifficultyName(d)) != GrayClasses
    ensures d != e ==> GetDifficultyColor(DifficultyName(d)) != GetDifficultyColor(DifficultyName(e))
  {
    // The colour names differ in length, so the class strings do too.
    assert |RedClasses| < |GrayClasses| < |GreenClasses| < |YellowClasses|;
  }

  /** One rendered card with its flip state. */
  class Card {
    const card: Flashcard
    var isFlipped: bool
    var isAnimating: bool
    var pending: Option<bool>

    function State(): FlipState
      reads this
    {
      FlipState(isFlipped, isAnimating, pending)
    }

    constructor (card: Flashcard)
      ensures this.card == card
      ensures State() == FlipState(false, false, None)
    {
      this.card := card;
      isFlipped := false;
      isAnimating := false;
      pending := None;
    }

    method HandleFlip()
      modifies this
      ensures State() == FlipRequested(old(State()))
    {
      if isAnimating {
        return;
      }
      isAnimating := true;
      pending := Some(!isFlipped);
    }

    method CompleteFlip()
      modifies this
      ensures State() == TimerFired(old(State()))
    {
      if pending.Some? {
        isFlipped := pending.value;
        isAnimating := false;
        pending := None;
      }
    }

    /** `handleRate(rating)`: reports this card's id and the rating to `onRate`. */
    method HandleRate(rating: Difficulty) returns (cardId: string, reported: Difficulty)
      modifies this
      ensures cardId == card.id && reported == rating
      ensures State() == AfterRate(old(State()))
    {
      cardId, reported := card.id, rating;
      isFlipped := false;
    }
  }
}

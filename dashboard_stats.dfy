/** The GET handler of app/api/dashboard/stats/route.ts: the session check
    and the recent-activity list built from the five newest items and the
    five newest cards.  The session and the query results are parameters;
    the timestamps are milliseconds (the ISO strings of the response are
    read back to the same instants by the sort). */
module DashboardStats {
  import opened Js
  import opened Sorting

  datatype RecentItem = RecentItem(id: string, title: Option<string>, createdAt: int)
  datatype RecentCard = RecentCard(id: string, front: string, createdAt: int)

  datatype ActivityType = ItemActivity | CardActivity
  datatype Activity = Activity(id: string, title: string, kind: ActivityType, createdAt: int)

  /** An item entry: the title, or "Untitled Item" when it has none. */
  function FromItem(item: RecentItem): (a: Activity)
    ensures a.id == item.id && a.kind == ItemActivity && a.createdAt == item.createdAt
    ensures a.title == OrElse(item.title, "Untitled Item")
  {
    Activity(item.id, OrElse(item.title, "Untitled Item"), ItemActivity, item.createdAt)
  }

  /** `front.substring(0, 50) + (front.length > 50 ? '...' : '')`, where
      `length` and `substring` count UTF-16 code units.  A front longer than
      50 units keeps the characters of its first 50 units, or of its first
      49 when the 50th unit is the first half of a surrogate pair. */
  function CardTitle(front: string): (title: string)
    ensures UnitLength(title) <= 53
    ensures UnitLength(front) <= 50 ==> title == front
    ensures UnitLength(front) > 50 ==>
      var cut := |title| - 3;
      && |title| >= 3 && title[cut..] == "..."
      && cut < |front| && title[..cut] == front[..cut]
      && 49 <= UnitLength(title[..cut]) <= 50
      && (UnitLength(title[..cut]) == 49 ==> front[cut] as int > 0xFFFF)
  {
    if UnitLength(front) > 50 then
      var kept := UnitPrefix(front, 50);
      var title := kept + "...";
      assert title[..|kept|] == kept && title[|kept|..] == "...";
      assert front[..|front|] == front;
      assert |kept| < |front|;
      UnitLengthAppend(kept, "...");
      assert UnitLength("...") == 3;
      title
    else front
  }

  /** For a front without characters above U+FFFF, code units are characters:
      up to 50 are kept whole, and a longer front is cut to 50 and followed
      by `...`. */
  lemma NarrowCardTitle(front: string)
    requires forall i :: 0 <= i < |front| ==> front[i] as int <= 0xFFFF
    ensures |front| <= 50 ==> CardTitle(front) == front
    ensures |front| > 50 ==> CardTitle(front) == front[..50] + "..."
  {
    NarrowUnitLength(front);
    if |front| > 50 {
      var kept := UnitPrefix(front, 50);
      NarrowUnitLength(kept);
      assert kept == front[..50];
    }
  }

  /** A front made only of characters above U+FFFF (emoji, say) is cut after
      25 of them, since each takes two code units. */
  lemma WideCardTitle(front: string)
    requires forall i :: 0 <= i < |front| ==> front[i] as int > 0xFFFF
    requires |front| > 25
    ensures CardTitle(front) == front[..25] + "..."
  {
    WideUnitLength(front);
    var kept := UnitPrefix(front, 50);
    WideUnitLength(kept);
    assert kept == front[..25];
  }

  function FromCard(card: RecentCard): (a: Activity)
    ensures a.id == card.id && a.kind == CardActivity && a.createdAt == card.createdAt
    ensures a.title == CardTitle(card.front)
  {
    Activity(card.id, CardTitle(card.front), CardActivity, card.createdAt)
  }

  function FromItems(items: seq<RecentItem>): (r: seq<Activity>)
    ensures |r| == |items|
    ensures forall i :: 0 <= i < |items| ==> r[i] == FromItem(items[i])
  {
    if items == [] then [] else [FromItem(items[0])] + FromItems(items[1..])
  }

  function FromCards(cards: seq<RecentCard>): (r: seq<Activity>)
    ensures |r| == |cards|
    ensures forall i :: 0 <= i < |cards| ==> r[i] == FromCard(cards[i])
  {
    if cards == [] then [] else [FromCard(cards[0])] + FromCards(cards[1..])
  }

  /** The merged list before sorting: item entries, then card entries. */
  function Merged(items: seq<RecentItem>, cards: seq<RecentCard>): seq<Activity> {
    FromItems(items) + FromCards(cards)
  }

  /** The sort callback `b - a` on the times is at most 0: newer first. */
  predicate NewerFirst(a: Activity, b: Activity) {
    b.createdAt - a.createdAt <= 0
  }

  lemma NewerFirstIsTotalPreorder()
    ensures TotalPreorder(NewerFirst)
  {
  }

  /** A prefix keeps at most the elements of the whole. */
  lemma PrefixSubMultiset<T>(s: seq<T>, k: nat)
    requires k <= |s|
    ensures multiset(s[..k]) <= multiset(s)
  {
    assert s == s[..k] + s[k..];
  }

  /** The sorted merged list, newest first. */
  function ByDate(items: seq<RecentItem>, cards: seq<RecentCard>): (r: seq<Activity>)
    ensures |r| == |items| + |cards|
    ensures multiset(r) == multiset(Merged(items, cards))
    ensures forall i, j :: 0 <= i < j < |r| ==> r[i].createdAt >= r[j].createdAt
  {
    var m := Merged(items, cards);
    var r := Sort(m, NewerFirst);
    NewerFirstIsTotalPreorder();
    SortSorted(m, NewerFirst);
    assert |r| == |multiset(r)| == |multiset(m)| == |m|;
    r
  }

  /** `recentActivity`: the merged entries sorted newest first, at most ten. */
  function RecentActivity(items: seq<RecentItem>, cards: seq<RecentCard>): (r: seq<Activity>)
    ensures |r| == if |items| + |cards| < 10 then |items| + |cards| else 10
    ensures multiset(r) <= multiset(Merged(items, cards))
    ensures forall i, j :: 0 <= i < j < |r| ==> r[i].createdAt >= r[j].createdAt
  {
    var sorted := ByDate(items, cards);
    var k := if |sorted| < 10 then |sorted| else 10;
    PrefixSubMultiset(sorted, k);
    sorted[..k]
  }

  /** With at most five items and five cards nothing is dropped. */
  lemma NothingDropped(items: seq<RecentItem>, cards: seq<RecentCard>)
    requires |items| <= 5 && |cards| <= 5
    ensures multiset(RecentActivity(items, cards)) == multiset(Merged(items, cards))
  {
    var sorted := ByDate(items, cards);
    assert sorted[..|sorted|] == sorted;
  }

  /** Every merged entry is an item entry made from one of the items or a
      card entry made from one of the cards, as its type says. */
  lemma MergedEntry(items: seq<RecentItem>, cards: seq<RecentCard>, k: nat)
    requires k < |items| + |cards|
    ensures Merged(items, cards)[k].kind == ItemActivity ==> k < |items| && Merged(items, cards)[k] == FromItem(items[k])
    ensures Merged(items, cards)[k].kind == CardActivity ==>
      k >= |items| && Merged(items, cards)[k] == FromCard(cards[k - |items|])
  {
    if k < |items| {
      assert Merged(items, cards)[k] == FromItems(items)[k];
    } else {
      assert Merged(items, cards)[k] == FromCards(cards)[k - |items|];
    }
  }

  /** Every recent entry comes from one of the items or one of the cards, as
      its type says. */
  lemma EntriesComeFromInputs(items: seq<RecentItem>, cards: seq<RecentCard>, a: Activity)
    requires a in RecentActivity(items, cards)
    ensures a.kind == ItemActivity ==> exists i :: 0 <= i < |items| && a == FromItem(items[i])
    ensures a.kind == CardActivity ==> exists j :: 0 <= j < |cards| && a == FromCard(cards[j])
  {
    var m := Merged(items, cards);
    assert a in multiset(RecentActivity(items, cards));
    assert a in multiset(m);
    var k :| 0 <= k < |m| && m[k] == a;
    MergedEntry(items, cards, k);
  }

  /** The counts of the user record. */
  datatype UserCounts = UserCounts(itemsCount: int, cardsCount: int)

  /** What one awaited database call gives: its value, or an exception. */
  datatype Query<T> = Answer(value: T) | Throws

  /** The four calls the handler makes, in order: the user lookup, the count
      of processed items, the five newest items and the five newest cards. */
  datatype Calls = Calls(
    user: Query<Option<UserCounts>>,
    processedItems: Query<int>,
    recentItems: Query<seq<RecentItem>>,
    recentCards: Query<seq<RecentCard>>)

  datatype StatsResponse =
    | Unauthorized
    | UserNotFound
    | ServerError
    | Stats(itemsCount: int, cardsCount: int, processedItems: int, recentActivity: seq<Activity>)

  /** The handler, given the session's user id and what each call gives; an
      exception from any call that is reached ends in a 500. */
  function DashboardStats(userId: Option<string>, db: Calls): (r: StatsResponse)
    ensures r == Unauthorized <==> !Truthy(userId)
    ensures r == UserNotFound <==> Truthy(userId) && db.user == Answer(None)
    ensures r.Stats? <==> (Truthy(userId) && db.user.Answer? && db.user.value.Some?
      && db.processedItems.Answer? && db.recentItems.Answer? && db.recentCards.Answer?)
    ensures r.Stats? ==> r.itemsCount == db.user.value.value.itemsCount && r.cardsCount == db.user.value.value.cardsCount
    ensures r.Stats? ==> r.processedItems == db.processedItems.value
    ensures r.Stats? ==> r.recentActivity == RecentActivity(db.recentItems.value, db.recentCards.value)
  {
    if !Truthy(userId) then Unauthorized
    else match db.user
      case Throws => ServerError
      case Answer(None) => UserNotFound
      case Answer(Some(user)) =>
        if db.processedItems.Throws? || db.recentItems.Throws? || db.recentCards.Throws? then ServerError
        else Stats(user.itemsCount, user.cardsCount, db.processedItems.value,
          RecentActivity(db.recentItems.value, db.recentCards.value))
  }

  /** Without a user id the answer is 401 whatever the calls would give: none
      of them is made.  A missing user is a 404 whatever the later calls would
      give: they are not made either. */
  lemma ChecksBeforeLaterCalls(userId: Option<string>, db1: Calls, db2: Calls)
    ensures !Truthy(userId) ==> DashboardStats(userId, db1) == DashboardStats(userId, db2) == Unauthorized
    ensures Truthy(userId) && db1.user == db2.user == Answer(None) ==>
      DashboardStats(userId, db1) == DashboardStats(userId, db2) == UserNotFound
  {
  }

  /** A successful response lists at most ten entries, newest first, each made
      from one of the items or cards the calls returned. */
  lemma StatsActivity(userId: Option<string>, db: Calls)
    requires DashboardStats(userId, db).Stats?
    ensures var r := DashboardStats(userId, db).recentActivity;
      && |r| <= 10
      && (forall i, j :: 0 <= i < j < |r| ==> r[i].createdAt >= r[j].createdAt)
      && multiset(r) <= multiset(Merged(db.recentItems.value, db.recentCards.value))
  {
  }
}

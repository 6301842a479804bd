/** The usage panel of components/dashboard-wrapper.tsx: the plan table,
    the plan a session falls back to, the usage percentages shown by the
    progress bars, and the `count/limit` labels beside them. */
module DashboardUsage {
  import opened Js

  /** A plan's limits; -1 means unlimited. */
  datatype PlanLimits = PlanLimits(itemsPerMonth: int, cardsTotal: int)

  /** The properties every object literal inherits from `Object.prototype`.
      Looking one of them up in the plan table finds a function (or, for
      `__proto__`, the prototype itself), and neither has limit fields. */
  const InheritedNames: set<string> := {
    "constructor", "__proto__", "hasOwnProperty", "isPrototypeOf",
    "propertyIsEnumerable", "toLocaleString", "toString", "valueOf",
    "__defineGetter__", "__defineSetter__", "__lookupGetter__", "__lookupSetter__"}

  /** What `planLimits[plan]` finds: a row of the table, an inherited
      property without limits, or `undefined`. */
  datatype Lookup = Own(limits: PlanLimits) | Inherited | Undefined

  /** `planLimits[plan]`: the three plans of the table, then the inherited
      properties, then nothing. */
  function LimitsFor(plan: string): (r: Lookup)
    ensures r.Own? <==> plan in {"free", "pro", "enterprise"}
    ensures r.Inherited? <==> plan in InheritedNames
    ensures plan == "free" ==> r == Own(PlanLimits(10, 50))
    ensures plan in {"pro", "enterprise"} ==> r == Own(PlanLimits(-1, -1))
  {
    if plan == "free" then Own(PlanLimits(10, 50))
    else if plan == "pro" || plan == "enterprise" then Own(PlanLimits(-1, -1))
    else if plan in InheritedNames then Inherited
    else Undefined
  }

  /** `subscriptionPlan || 'free'`. */
  function CurrentPlan(subscriptionPlan: Option<string>): (plan: string)
    ensures !Truthy(subscriptionPlan) ==> plan == "free"
    ensures Truthy(subscriptionPlan) ==> plan == subscriptionPlan.value
  {
    OrElse(subscriptionPlan, "free")
  }

  /** `count || 0` for a count that may be missing. */
  function CountOrZero(count: Option<nat>): nat {
    if count.Some? then count.value else 0
  }

  /** A limit the table holds: unlimited, or a positive number. */
  predicate ValidLimit(limit: int) {
    limit == -1 || limit > 0
  }

  lemma TableLimitsValid(plan: string)
    requires LimitsFor(plan).Own?
    ensures ValidLimit(LimitsFor(plan).limits.itemsPerMonth) && ValidLimit(LimitsFor(plan).limits.cardsTotal)
  {
  }

  /** The progress value: 100 when unlimited, otherwise the count as a
      percentage of the limit. */
  function Usage(count: Option<nat>, limit: int): (u: real)
    requires ValidLimit(limit)
    ensures limit == -1 ==> u == 100.0
    ensures limit > 0 ==> u * (limit as real) == (CountOrZero(count) as real) * 100.0
    ensures u >= 0.0
  {
    if limit == -1 then 100.0
    else (CountOrZero(count) as real) / (limit as real) * 100.0
  }

  /** The text beside a progress bar. */
  function Label(count: Option<nat>, limit: int): (s: string)
    requires ValidLimit(limit)
  {
    if limit == -1 then "∞" else NatToString(CountOrZero(count)) + "/" + NatToString(limit)
  }

  /** The label is the infinity sign exactly for an unlimited plan; otherwise
      it is the count and the limit around a slash. */
  lemma LabelInfinityIffUnlimited(count: Option<nat>, limit: int)
    requires ValidLimit(limit)
    ensures Label(count, limit) == "∞" <==> limit == -1
    ensures limit > 0 ==> Label(count, limit) == NatToString(CountOrZero(count)) + "/" + NatToString(limit)
  {
    if limit > 0 {
      var s := Label(count, limit);
      assert s[0] == NatToString(CountOrZero(count))[0];
      assert IsDigit(s[0]);
    }
  }

  /** A JavaScript number as far as the panel needs one: a finite value, or NaN. */
  datatype Number = Finite(value: real) | NotANumber

  /** The numbers the panel shows. */
  datatype UsagePanel = UsagePanel(plan: string, itemsUsage: Number, cardsUsage: Number,
                                   itemsLabel: string, cardsLabel: string)

  /** The panel for a session's plan and counts; `None` stands for the
      `TypeError` raised when the lookup gives `undefined`.  An inherited
      property has an undefined limit: `undefined === -1` is false, the
      division by `undefined` gives NaN, and the label prints `undefined`. */
  function Panel(subscriptionPlan: Option<string>, itemsCount: Option<nat>, cardsCount: Option<nat>): (r: Option<UsagePanel>)
    ensures r.None? <==> LimitsFor(CurrentPlan(subscriptionPlan)).Undefined?
    ensures r.Some? ==> r.value.plan == CurrentPlan(subscriptionPlan)
    ensures LimitsFor(CurrentPlan(subscriptionPlan)).Own? ==>
      var limits := LimitsFor(CurrentPlan(subscriptionPlan)).limits;
      && ValidLimit(limits.itemsPerMonth) && ValidLimit(limits.cardsTotal)
      && r.Some?
      && r.value.itemsUsage == Finite(Usage(itemsCount, limits.itemsPerMonth))
      && r.value.cardsUsage == Finite(Usage(cardsCount, limits.cardsTotal))
      && r.value.itemsLabel == Label(itemsCount, limits.itemsPerMonth)
      && r.value.cardsLabel == Label(cardsCount, limits.cardsTotal)
  {
    var plan := CurrentPlan(subscriptionPlan);
    match LimitsFor(plan)
    case Undefined => None
    case Inherited =>
      Some(UsagePanel(plan, NotANumber, NotANumber,
        NatToString(CountOrZero(itemsCount)) + "/undefined", NatToString(CountOrZero(cardsCount)) + "/undefined"))
    case Own(limits) =>
      TableLimitsValid(plan);
      Some(UsagePanel(plan,
        Finite(Usage(itemsCount, limits.itemsPerMonth)), Finite(Usage(cardsCount, limits.cardsTotal)),
        Label(itemsCount, limits.itemsPerMonth), Label(cardsCount, limits.cardsTotal)))
  }

  /** A session without a plan, with an empty one or with "free" is on the
      free plan: usage is ten percent per item and two percent per card, and
      the labels read `n/10` and `n/50`. */
  lemma FreePlanPanel(subscriptionPlan: Option<string>, itemsCount: Option<nat>, cardsCount: Option<nat>)
    requires !Truthy(subscriptionPlan) || subscriptionPlan == Some("free")
    ensures var r := Panel(subscriptionPlan, itemsCount, cardsCount);
      && r.Some? && r.value.plan == "free"
      && r.value.itemsUsage == Finite((CountOrZero(itemsCount) as real) * 10.0)
      && r.value.cardsUsage == Finite((CountOrZero(cardsCount) as real) * 2.0)
      && r.value.itemsLabel == NatToString(CountOrZero(itemsCount)) + "/10"
      && r.value.cardsLabel == NatToString(CountOrZero(cardsCount)) + "/50"
  {
    var r := Panel(subscriptionPlan, itemsCount, cardsCount);
    assert CurrentPlan(subscriptionPlan) == "free";
    assert r.value.itemsUsage.value * 10.0 == (CountOrZero(itemsCount) as real) * 100.0;
    assert r.value.cardsUsage.value * 50.0 == (CountOrZero(cardsCount) as real) * 100.0;
    TenString();
    FiftyString();
  }

  /** The paid plans show full bars and infinity labels whatever the counts. */
  lemma PaidPlansUnlimited(plan: string, itemsCount: Option<nat>, cardsCount: Option<nat>)
    requires plan in {"pro", "enterprise"}
    ensures var r := Panel(Some(plan), itemsCount, cardsCount);
      && r.Some? && r.value.itemsUsage == Finite(100.0) && r.value.cardsUsage == Finite(100.0)
      && r.value.itemsLabel == "∞" && r.value.cardsLabel == "∞"
  {
  }

  /** On a limited plan a bar is full exactly when the count has reached the limit. */
  lemma FullBarAtLimit(count: Option<nat>, limit: int)
    requires limit > 0
    ensures Usage(count, limit) >= 100.0 <==> CountOrZero(count) >= limit
  {
    var u := Usage(count, limit);
    var c := CountOrZero(count) as real;
    var l := limit as real;
    if u >= 100.0 {
      assert u * l >= 100.0 * l;
    } else {
      assert u * l < 100.0 * l;
    }
  }

  /** A plan named after an inherited property renders, with NaN bars and
      labels that end in `/undefined`. */
  lemma InheritedPlanShowsNaN(plan: string, itemsCount: Option<nat>, cardsCount: Option<nat>)
    requires plan in InheritedNames
    ensures var r := Panel(Some(plan), itemsCount, cardsCount);
      && r.Some? && r.value.plan == plan
      && r.value.itemsUsage == NotANumber && r.value.cardsUsage == NotANumber
      && r.value.itemsLabel == NatToString(CountOrZero(itemsCount)) + "/undefined"
      && r.value.cardsLabel == NatToString(CountOrZero(cardsCount)) + "/undefined"
  {
  }

  /** Any other plan outside the table breaks the panel instead of showing a limit. */
  lemma UnknownPlanHasNoPanel(plan: string, itemsCount: Option<nat>, cardsCount: Option<nat>)
    requires plan != "" && plan !in {"free", "pro", "enterprise"} && plan !in InheritedNames
    ensures Panel(Some(plan), itemsCount, cardsCount).None?
  {
  }
}

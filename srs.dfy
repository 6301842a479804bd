/** The SM-2 style scheduler of lib/srs.ts.  JavaScript numbers are modelled
    as `real` (no IEEE-754 rounding); `Date.now()` is the parameter `now`. */
module Srs {
  import opened Js

  datatype Quality = Again | Hard | Good | Easy

  /** Scheduling state of one card; `nextReview` is a timestamp in milliseconds. */
  datatype SrsData = SrsData(interval: real, repetitions: real, easeFactor: real, nextReview: real)

  const DefaultEaseFactor: real := 2.5
  const DefaultInterval: real := 1.0
  const MinimumEaseFactor: real := 1.3
  const DayMs: real := 86400000.0  // 24 * 60 * 60 * 1000

  /** A whole number held in a JavaScript number. */
  predicate IsWhole(x: real) {
    x == x.Floor as real
  }

  /** The states the scheduler produces: a whole interval of at least one
      day, a whole non-negative repetition count and an ease of at least 1.3. */
  predicate Valid(d: SrsData) {
    && IsWhole(d.interval) && d.interval >= 1.0
    && IsWhole(d.repetitions) && d.repetitions >= 0.0
    && d.easeFactor >= MinimumEaseFactor
  }

  /** The quality ordinal: again 0, hard 1, good 2, easy 3. */
  function QualityOrdinal(quality: Quality): (q: nat)
    ensures q <= 3
    ensures q == 3 <==> quality == Easy
  {
    match quality
    case Again => 0
    case Hard => 1
    case Good => 2
    case Easy => 3
  }

  /** `Math.round(x)`: the nearest integer, halves rounded up. */
  function Round(x: real): (r: int)
    ensures x - 0.5 < r as real <= x + 0.5
  {
    (x + 0.5).Floor
  }

  /** `Math.ceil(x)`. */
  function Ceil(x: real): (r: int)
    ensures x <= r as real < x + 1.0
  {
    -((-x).Floor)
  }

  /** The SM-2 ease increment for quality ordinal `q`. */
  function EaseDelta(q: nat): real {
    0.1 - (5 - q) as real * (0.08 + (5 - q) as real * 0.02)
  }

  /** `createSRSData()` at time `now`. */
  function CreateSrsData(now: real): (d: SrsData)
    ensures Valid(d)
    ensures d.interval == 1.0 && d.repetitions == 0.0 && d.easeFactor == 2.5
    ensures d.nextReview == now + DayMs
    ensures !IsDueForReview(d, now) && IsDueForReview(d, now + DayMs)
  {
    SrsData(DefaultInterval, 0.0, DefaultEaseFactor, now + DefaultInterval * DayMs)
  }

  /** The interval after a passing review, given the new repetition count. */
  function PassInterval(repetitions: real, interval: real, easeFactor: real): real {
    if repetitions == 1.0 then 1.0
    else if repetitions == 2.0 then 6.0
    else Round(interval * easeFactor) as real
  }

  /** `Math.max(ease, 1.3)`. */
  function ClampEase(ease: real): (r: real)
    ensures r >= MinimumEaseFactor && r >= ease
    ensures r == ease || r == MinimumEaseFactor
  {
    if ease >= MinimumEaseFactor then ease else MinimumEaseFactor
  }

  /** `updateSRS(current, quality)` at time `now`. */
  function UpdateSrs(current: SrsData, quality: Quality, now: real): (r: SrsData)
    ensures r.nextReview == now + r.interval * DayMs
  {
    var q := QualityOrdinal(quality);
    if q < 3 then
      SrsData(1.0, 0.0, current.easeFactor, now + 1.0 * DayMs)
    else
      var repetitions := current.repetitions + 1.0;
      var interval := PassInterval(repetitions, current.interval, current.easeFactor);
      var easeFactor := ClampEase(current.easeFactor + EaseDelta(q));
      SrsData(interval, repetitions, easeFactor, now + interval * DayMs)
  }

  /** `isDueForReview(d)` at time `now`. */
  function IsDueForReview(d: SrsData, now: real): (due: bool)
    ensures due <==> now >= d.nextReview
    ensures due <==> GetDaysUntilReview(d, now) <= 0
  {
    var x := (d.nextReview - now) / DayMs;
    assert x <= 0.0 <==> d.nextReview - now <= 0.0;
    now >= d.nextReview
  }

  /** `getDaysUntilReview(d)` at time `now`: whole days until the review, rounded up. */
  function GetDaysUntilReview(d: SrsData, now: real): (days: int)
    ensures (d.nextReview - now) / DayMs <= days as real < (d.nextReview - now) / DayMs + 1.0
  {
    Ceil((d.nextReview - now) / DayMs)
  }

  /** again, hard and good are all lapses: progress resets and the ease stays. */
  lemma LapseResets(current: SrsData, quality: Quality, now: real)
    requires quality != Easy
    ensures var r := UpdateSrs(current, quality, now);
      r.repetitions == 0.0 && r.interval == 1.0 && r.easeFactor == current.easeFactor
      && r.nextReview == now + DayMs
  {
  }

  /** With q = 3 the SM-2 increment is always -0.14. */
  lemma EasyDelta()
    ensures EaseDelta(QualityOrdinal(Easy)) == -0.14
  {
  }

  /** The fields an easy rating produces, in terms of the helpers above. */
  lemma EasyFields(current: SrsData, now: real)
    ensures var r := UpdateSrs(current, Easy, now);
      && r.repetitions == current.repetitions + 1.0
      && r.interval == PassInterval(current.repetitions + 1.0, current.interval, current.easeFactor)
      && r.easeFactor == ClampEase(current.easeFactor - 0.14)
  {
    EasyDelta();
  }

  lemma PassIntervalGrown(repetitions: real, interval: real, easeFactor: real)
    requires repetitions != 1.0 && repetitions != 2.0
    ensures PassInterval(repetitions, interval, easeFactor) == Round(interval * easeFactor) as real
  {
  }

  /** easy counts one more repetition, uses the 1, 6, ... ladder, and lowers
      the ease by 0.14 but never under 1.3. */
  lemma EasyAdvances(current: SrsData, now: real)
    ensures var r := UpdateSrs(current, Easy, now);
      && r.repetitions == current.repetitions + 1.0
      && (r.repetitions == 1.0 ==> r.interval == 1.0)
      && (r.repetitions == 2.0 ==> r.interval == 6.0)
      && r.easeFactor == (if current.easeFactor - 0.14 >= 1.3 then current.easeFactor - 0.14 else 1.3)
  {
    EasyFields(current, now);
  }

  /** From the third easy in a row on, the interval is round(interval * ease). */
  lemma EasyGrowsByEase(current: SrsData, now: real)
    requires current.repetitions + 1.0 != 1.0 && current.repetitions + 1.0 != 2.0
    ensures UpdateSrs(current, Easy, now).interval == Round(current.interval * current.easeFactor) as real
  {
    EasyFields(current, now);
    PassIntervalGrown(current.repetitions + 1.0, current.interval, current.easeFactor);
  }

  /** For a valid state, easy never raises the ease and never takes it below 1.3. */
  lemma EaseBounded(current: SrsData, quality: Quality, now: real)
    requires Valid(current)
    ensures MinimumEaseFactor <= UpdateSrs(current, quality, now).easeFactor <= current.easeFactor
  {
    if quality == Easy {
      EasyFields(current, now);
    }
  }

  /** Multiplying a whole interval of at least one day by an ease of at least
      1.3 and rounding never shortens it. */
  lemma RoundedProductAtLeast(interval: real, easeFactor: real)
    requires IsWhole(interval) && interval >= 1.0 && easeFactor >= MinimumEaseFactor
    ensures Round(interval * easeFactor) as real >= interval
  {
    assert interval * easeFactor - interval == interval * (easeFactor - 1.0);
    assert interval * (easeFactor - 1.0) >= 0.0;
    var k := interval.Floor;
    assert interval * easeFactor + 0.5 >= k as real;
  }

  /** The interval after a passing review of a valid state is whole and at least one day. */
  lemma PassIntervalValid(repetitions: real, interval: real, easeFactor: real)
    requires IsWhole(interval) && interval >= 1.0 && easeFactor >= MinimumEaseFactor
    ensures var i := PassInterval(repetitions, interval, easeFactor); IsWhole(i) && i >= 1.0
  {
    if repetitions != 1.0 && repetitions != 2.0 {
      RoundedProductAtLeast(interval, easeFactor);
    }
  }

  /** A valid state stays valid under every rating. */
  lemma UpdatePreservesValid(current: SrsData, quality: Quality, now: real)
    requires Valid(current)
    ensures Valid(UpdateSrs(current, quality, now))
  {
    EaseBounded(current, quality, now);
    if quality == Easy {
      EasyFields(current, now);
      PassIntervalValid(current.repetitions + 1.0, current.interval, current.easeFactor);
      assert (current.repetitions + 1.0).Floor == current.repetitions.Floor + 1;
    }
  }

  /** From the third consecutive easy on, the interval never shrinks. */
  lemma IntervalNonDecreasing(current: SrsData, now: real)
    requires Valid(current) && current.repetitions >= 2.0
    ensures UpdateSrs(current, Easy, now).interval >= current.interval
  {
    EasyFields(current, now);
    GrownIntervalAtLeast(current.repetitions + 1.0, current.interval, current.easeFactor);
  }

  /** Past the first two repetitions a passing interval is never shorter than the last. */
  lemma GrownIntervalAtLeast(repetitions: real, interval: real, easeFactor: real)
    requires repetitions != 1.0 && repetitions != 2.0
    requires IsWhole(interval) && interval >= 1.0 && easeFactor >= MinimumEaseFactor
    ensures PassInterval(repetitions, interval, easeFactor) >= interval
  {
    RoundedProductAtLeast(interval, easeFactor);
  }

  /** A card is due exactly when the whole days left, rounded up, are not positive. */
  lemma DueIffNoDaysLeft(d: SrsData, now: real)
    ensures IsDueForReview(d, now) <==> GetDaysUntilReview(d, now) <= 0
  {
    var x := (d.nextReview - now) / DayMs;
    assert x <= 0.0 <==> d.nextReview - now <= 0.0;
  }

  // ---------------------------------------------------------------------
  // parseSRSData

  /** A value produced by JSON.parse. */
  datatype Json =
    | JNumber(n: real)
    | JString(s: string)
    | JBool(b: bool)
    | JNull
    | JArray(elements: seq<Json>)
    | JObject(fields: map<string, Json>)

  /** `parsed[key]` when it is a number. */
  function NumberField(parsed: Json, key: string): (r: Option<real>)
    ensures r.Some? <==> parsed.JObject? && key in parsed.fields && parsed.fields[key].JNumber?
    ensures r.Some? ==> r.value == parsed.fields[key].n
  {
    if parsed.JObject? && key in parsed.fields && parsed.fields[key].JNumber?
    then Some(parsed.fields[key].n) else None
  }

  /** `parseSRSData(json)`, given what JSON.parse produced (None when it threw). */
  function ParseSrsData(parsed: Option<Json>): (r: Option<SrsData>)
    ensures r.Some? <==>
      parsed.Some? && NumberField(parsed.value, "interval").Some?
      && NumberField(parsed.value, "repetitions").Some?
      && NumberField(parsed.value, "easeFactor").Some?
      && NumberField(parsed.value, "nextReview").Some?
    ensures r.Some? ==>
      r.value.interval == parsed.value.fields["interval"].n
      && r.value.repetitions == parsed.value.fields["repetitions"].n
      && r.value.easeFactor == parsed.value.fields["easeFactor"].n
      && r.value.nextReview == parsed.value.fields["nextReview"].n
  {
    if parsed.None? then None
    else
      var p := parsed.value;
      match (NumberField(p, "interval"), NumberField(p, "repetitions"),
             NumberField(p, "easeFactor"), NumberField(p, "nextReview"))
      case (Some(i), Some(n), Some(e), Some(t)) => Some(SrsData(i, n, e, t))
      case _ => None
  }
}

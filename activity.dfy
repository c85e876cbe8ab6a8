/**
 * The activity store: a synthetic generator of one day's fitness metrics and a memoising
 * cache from dates to generated records, with a selected-date cursor.
 *
 * `Math.random()` is replaced by draws the caller supplies: each draw is a value in [0, 1),
 * one for the step count and one for each of the 24 hourly heart-rate samples.
 */
module Activity {
  import opened Wrappers
  import opened Calendar

  /** A value `Math.random()` can return: a real in the half-open unit interval. */
  type RandomValue = r: real | 0.0 <= r < 1.0

  datatype RandomValues = RandomValues(stepValue: RandomValue, hourValues: seq<RandomValue>)

  /** The random values one generation consumes: the step draw, then one per hour. */
  type Draw = dr: RandomValues | |dr.hourValues| == 24
    witness RandomValues(0.0, seq(24, _ => 0.0))

  datatype Sample = Sample(time: string, value: int)

  datatype HeartRate = HeartRate(average: int, data: seq<Sample>)

  /** One day's record; `distanceTenths` is the distance in tenths of a kilometre. */
  datatype DailyActivity = DailyActivity(
    date: Date,
    steps: int,
    activeMinutes: int,
    distanceTenths: int,
    calories: int,
    heartRate: HeartRate)

  /** `keyof DailyActivity`: the fields a metric change can be asked for. */
  datatype Field = DateField | StepsField | ActiveMinutesField | DistanceField | CaloriesField | HeartRateField

  /** What `getMetricChange` returns: the literal "0", a percentage, or a non-finite number. */
  datatype Change = Neutral | Percent(value: real) | NotFinite

  // ---------------------------------------------------------------------------------------
  // Generator

  function BaseSteps(weekend: bool): int { if weekend then 6000 else 8000 }

  function StepVariance(weekend: bool): int { if weekend then 2000 else 4000 }

  /** The base heart rate of an hour of the day. */
  function BaseRate(hour: int): (rate: int)
    ensures rate == 90 <==> 7 <= hour <= 9
    ensures rate == 85 <==> 17 <= hour <= 19
    ensures rate == 75 <==> (6 <= hour <= 22 && !(7 <= hour <= 9) && !(17 <= hour <= 19))
    ensures rate == 70 <==> !(6 <= hour <= 22)
  {
    if 6 <= hour <= 22 then
      if 7 <= hour <= 9 then 90
      else if 17 <= hour <= 19 then 85
      else 75
    else 70
  }

  function Digit(n: int): char
    requires 0 <= n < 10
  {
    "0123456789"[n]
  }

  /** `${String(hour).padStart(2, '0')}:00` for an hour of the day. */
  function HourLabel(hour: int): (hh: string)
    requires 0 <= hour < 24
    ensures |hh| == 5 && hh[2..] == ":00"
    ensures '0' <= hh[0] <= '9' && '0' <= hh[1] <= '9'
  {
    [Digit(hour / 10), Digit(hour % 10)] + ":00"
  }

  /** Reads the hour back from a two-digit "HH:00" label. */
  function LabelHour(hh: string): int
    requires |hh| >= 2
  {
    var tens := hh[0] as int - '0' as int;
    var ones := hh[1] as int - '0' as int;
    10 * tens + ones
  }

  /** The labels decode to their hours, so the 24 labels are pairwise distinct. */
  lemma HourLabelRoundTrip(hour: int)
    requires 0 <= hour < 24
    ensures LabelHour(HourLabel(hour)) == hour
    ensures HourLabel(hour)[0] as int - '0' as int == hour / 10
    ensures HourLabel(hour)[1] as int - '0' as int == hour % 10
  {
    var tens, ones := hour / 10, hour % 10;
    assert "0123456789"[tens] as int == '0' as int + tens;
    assert "0123456789"[ones] as int == '0' as int + ones;
  }

  /** The sum of the sample values, accumulated from the first hour (the `reduce`). */
  function SumValues(s: seq<Sample>): (total: int)
    ensures |s| == 1 ==> total == s[0].value
    ensures (forall i :: 0 <= i < |s| ==> 0 <= s[i].value) ==> 0 <= total
  {
    if |s| == 0 then 0 else SumValues(s[..|s| - 1]) + s[|s| - 1].value
  }

  /** The sum of a concatenation is the sum of the parts, so the order of accumulation does not matter. */
  lemma {:induction false} SumValuesConcat(s: seq<Sample>, t: seq<Sample>)
    ensures SumValues(s + t) == SumValues(s) + SumValues(t)
    decreases |t|
  {
    if |t| > 0 {
      assert (s + t)[..|s + t| - 1] == s + t[..|t| - 1];
      SumValuesConcat(s, t[..|t| - 1]);
    } else {
      assert s + t == s;
    }
  }

  /** The sum of the base rates of hours 0 .. n-1. */
  function BaseRateSum(n: nat): int {
    if n == 0 then 0 else BaseRateSum(n - 1) + BaseRate(n - 1)
  }

  /** The 24 hourly samples drawn from `units`. */
  function HourlySamples(units: seq<RandomValue>): (data: seq<Sample>)
    requires |units| == 24
    ensures |data| == 24
    ensures forall i :: 0 <= i < 24 ==> data[i].time == HourLabel(i)
    ensures forall i :: 0 <= i < 24 ==> BaseRate(i) <= data[i].value < BaseRate(i) + 10
  {
    seq(24, i requires 0 <= i < 24 => Sample(HourLabel(i), (units[i] * 10.0 + BaseRate(i) as real).Floor))
  }

  /**
   * What every generated record satisfies: the step count lies in the weekend or weekday
   * range, the derived figures are the floors (or rounding) of their ratios of the step
   * count, there are 24 samples labelled by hour within their hour's band, and the average
   * is the floor of their mean.
   */
  ghost predicate IsGeneratedFor(d: Date, a: DailyActivity) {
    var weekend := IsWeekend(d);
    && a.date == d
    && BaseSteps(weekend) <= a.steps < BaseSteps(weekend) + StepVariance(weekend)
    && 100 * a.activeMinutes <= a.steps < 100 * a.activeMinutes + 100
    && 1000 * a.distanceTenths <= 7 * a.steps + 500 < 1000 * a.distanceTenths + 1000
    && 25 * a.calories <= a.steps < 25 * a.calories + 25
    && |a.heartRate.data| == 24
    && (forall i :: 0 <= i < 24 ==> a.heartRate.data[i].time == HourLabel(i))
    && (forall i :: 0 <= i < 24 ==> BaseRate(i) <= a.heartRate.data[i].value < BaseRate(i) + 10)
    && 24 * a.heartRate.average <= SumValues(a.heartRate.data) < 24 * a.heartRate.average + 24
  }

  /** `generateActivityData(date)` with its random values supplied. */
  function Generate(d: Date, dr: Draw): (a: DailyActivity)
    ensures IsGeneratedFor(d, a)
  {
    var weekend := IsWeekend(d);
    var steps := (dr.stepValue * StepVariance(weekend) as real + BaseSteps(weekend) as real).Floor;
    var data := HourlySamples(dr.hourValues);
    DailyActivity(
      d,
      steps,
      steps / 100,
      (7 * steps + 500) / 1000,
      steps * 4 / 100,
      HeartRate(SumValues(data) / 24, data))
  }

  /** Every step count of the day's range is produced by some step draw. */
  lemma StepsRangeCovered(d: Date, k: int, units: seq<RandomValue>)
    requires 0 <= k < StepVariance(IsWeekend(d)) && |units| == 24
    ensures Generate(d, RandomValues(k as real / StepVariance(IsWeekend(d)) as real, units)).steps
            == BaseSteps(IsWeekend(d)) + k
  {
    var v := StepVariance(IsWeekend(d)) as real;
    var u := k as real / v;
    assert u * v == k as real;
  }

  lemma {:induction false} SampleSumBounds(s: seq<Sample>)
    requires |s| <= 24
    requires forall i :: 0 <= i < |s| ==> BaseRate(i) <= s[i].value < BaseRate(i) + 10
    ensures BaseRateSum(|s|) <= SumValues(s) <= BaseRateSum(|s|) + 9 * |s|
  {
    if |s| > 0 {
      SampleSumBounds(s[..|s| - 1]);
    }
  }

  lemma BaseRateDay()
    ensures BaseRateSum(24) == 1840
  {
    assert BaseRateSum(6) == 420;
    assert BaseRateSum(12) == 420 + 75 + 270 + 2 * 75;
    assert BaseRateSum(18) == BaseRateSum(12) + 5 * 75 + 85;
  }

  /** A generated daily average heart rate lies in [76, 85] (inside the [70, 99] sample range). */
  lemma AverageBounds(d: Date, a: DailyActivity)
    requires IsGeneratedFor(d, a)
    ensures 76 <= a.heartRate.average <= 85
  {
    SampleSumBounds(a.heartRate.data);
    BaseRateDay();
  }

  // ---------------------------------------------------------------------------------------
  // Metric change

  function NumericValue(a: DailyActivity, f: Field): (v: Option<int>)
    ensures v.None? <==> f == DateField || f == HeartRateField
    ensures f == StepsField ==> v == Some(a.steps)
    ensures f == ActiveMinutesField ==> v == Some(a.activeMinutes)
    ensures f == DistanceField ==> v == Some(a.distanceTenths)
    ensures f == CaloriesField ==> v == Some(a.calories)
  {
    match f
    case StepsField => Some(a.steps)
    case ActiveMinutesField => Some(a.activeMinutes)
    case DistanceField => Some(a.distanceTenths)
    case CaloriesField => Some(a.calories)
    case DateField => None
    case HeartRateField => None
  }

  /**
   * The day-over-day change of field `f` from `previous` to `current`, in percent, before
   * `toFixed(1)`: JavaScript division by zero gives a non-finite number.
   */
  function MetricChange(current: DailyActivity, previous: DailyActivity, f: Field): (c: Change)
    ensures c == Neutral <==> NumericValue(current, f).None?
    ensures c == NotFinite <==> NumericValue(previous, f) == Some(0)
    ensures c.Percent? ==>
      var cur, prev := NumericValue(current, f).value, NumericValue(previous, f).value;
      c.value * prev as real == (cur - prev) as real * 100.0
  {
    match (NumericValue(current, f), NumericValue(previous, f))
    case (Some(cur), Some(prev)) =>
      if prev == 0 then NotFinite else Percent((cur - prev) as real / prev as real * 100.0)
    case _ => Neutral
  }

  /** Every numeric field of a generated record is positive, so it is never a zero divisor. */
  lemma GeneratedValuesPositive(d: Date, a: DailyActivity, f: Field)
    requires IsGeneratedFor(d, a)
    requires f != DateField && f != HeartRateField
    ensures NumericValue(a, f).Some? && NumericValue(a, f).value > 0
  {
  }

  /** Between two generated records the change is "0" for date and heart rate, a percentage otherwise. */
  lemma GeneratedChangeIsFinite(current: DailyActivity, previous: DailyActivity, prevDate: Date, f: Field)
    requires IsGeneratedFor(prevDate, previous)
    ensures MetricChange(current, previous, f) != NotFinite
    ensures MetricChange(current, previous, f) == Neutral <==> f == DateField || f == HeartRateField
  {
    if f != DateField && f != HeartRateField {
      GeneratedValuesPositive(prevDate, previous, f);
    }
  }

  // ---------------------------------------------------------------------------------------
  // Cache

  /** The cache after a lookup of `d`: unchanged on a hit, `d` bound to a fresh record on a miss. */
  function Cached(m: map<Date, DailyActivity>, d: Date, dr: Draw): (m': map<Date, DailyActivity>)
    ensures d in m'
    ensures m'.Keys == m.Keys + {d}
    ensures forall k :: k in m ==> m'[k] == m[k]
    ensures d !in m ==> m'[d] == Generate(d, dr)
  {
    if d in m then m else m[d := Generate(d, dr)]
  }

  /** A second lookup of a date changes nothing, whatever randomness it is offered. */
  lemma CachedIdempotent(m: map<Date, DailyActivity>, d: Date, dr1: Draw, dr2: Draw)
    ensures Cached(Cached(m, d, dr1), d, dr2) == Cached(m, d, dr1)
  {
  }

  /** The cache after looking up `days` in order, day i with draw i. */
  function CachedAll(m: map<Date, DailyActivity>, days: seq<Date>, draws: seq<Draw>): map<Date, DailyActivity>
    requires |draws| == |days|
  {
    if |days| == 0 then m
    else Cached(CachedAll(m, days[..|days| - 1], draws[..|days| - 1]), days[|days| - 1], draws[|days| - 1])
  }

  lemma CachedAllSnoc(m: map<Date, DailyActivity>, days: seq<Date>, draws: seq<Draw>, i: nat)
    requires |draws| == |days| && i < |days|
    ensures CachedAll(m, days[..i + 1], draws[..i + 1]) == Cached(CachedAll(m, days[..i], draws[..i]), days[i], draws[i])
  {
    assert days[..i + 1][..i] == days[..i] && draws[..i + 1][..i] == draws[..i];
  }

  /** Looking up a run of days adds exactly those days and keeps every earlier entry. */
  lemma {:induction false} CachedAllFrame(m: map<Date, DailyActivity>, days: seq<Date>, draws: seq<Draw>)
    requires |draws| == |days|
    ensures forall k :: k in CachedAll(m, days, draws) <==> k in m || k in days
    ensures forall k :: k in m ==> CachedAll(m, days, draws)[k] == m[k]
  {
    if |days| > 0 {
      var n := |days| - 1;
      CachedAllFrame(m, days[..n], draws[..n]);
      assert days == days[..n] + [days[n]];
    }
  }

  /** Every record in a cache that only ever held generated records is one of its own key. */
  ghost predicate AllGenerated(m: map<Date, DailyActivity>) {
    forall d {:trigger IsGeneratedFor(d, m[d])} :: d in m ==> IsGeneratedFor(d, m[d])
  }

  /** Records fetched from such a cache carry the date they were fetched for. */
  lemma RecordsCarryTheirDates(m: map<Date, DailyActivity>, days: seq<Date>, rs: seq<DailyActivity>)
    requires AllGenerated(m) && |rs| == |days|
    requires forall j :: 0 <= j < |days| ==> days[j] in m && rs[j] == m[days[j]]
    ensures forall j :: 0 <= j < |days| ==> rs[j].date == days[j]
  {
    forall j | 0 <= j < |days|
      ensures rs[j].date == days[j]
    {
      assert IsGeneratedFor(days[j], m[days[j]]);
    }
  }

  lemma CachedKeepsGenerated(m: map<Date, DailyActivity>, d: Date, dr: Draw)
    requires AllGenerated(m)
    ensures AllGenerated(Cached(m, d, dr))
  {
    var m' := Cached(m, d, dr);
    forall k | k in m'
      ensures IsGeneratedFor(k, m'[k])
    {
      if k in m {
        assert IsGeneratedFor(k, m[k]);
      }
    }
  }

  // ---------------------------------------------------------------------------------------
  // The store

  class ActivityStore {
    var selectedDate: Date
    var activities: map<Date, DailyActivity>

    ghost predicate Valid()
      reads this
    {
      AllGenerated(activities)
    }

    /** The initial state: `today` selected, nothing cached yet. */
    constructor (today: Date)
      ensures Valid()
      ensures selectedDate == today && activities == map[]
    {
      selectedDate := today;
      activities := map[];
    }

    /** The `selectedActivity` getter: the cached record of the selected date, if any. */
    function SelectedActivity(): (r: Option<DailyActivity>)
      reads this
      ensures r.Some? <==> selectedDate in activities
      ensures r.Some? ==> r.value == activities[selectedDate]
    {
      Get(activities, selectedDate)
    }

    /** `getActivityForDate`: cache-or-generate. */
    method GetActivityForDate(d: Date, dr: Draw) returns (a: DailyActivity)
      requires Valid()
      modifies this
      ensures Valid()
      ensures activities == Cached(old(activities), d, dr)
      ensures a == activities[d] && a.date == d
      ensures old(d in activities) ==> a == old(activities)[d]
      ensures selectedDate == old(selectedDate)
    {
      CachedKeepsGenerated(activities, d, dr);
      if d !in activities {
        activities := activities[d := Generate(d, dr)];
      }
      a := activities[d];
      assert IsGeneratedFor(d, activities[d]);
    }

    /** `getMetricChange`: looks up `d` and then the day before, and compares field `f`. */
    method GetMetricChange(d: Date, f: Field, drCurrent: Draw, drPrevious: Draw) returns (c: Change)
      requires Valid()
      modifies this
      ensures Valid()
      ensures activities == Cached(Cached(old(activities), d, drCurrent), PrevDay(d), drPrevious)
      ensures d in activities && PrevDay(d) in activities
      ensures c == MetricChange(activities[d], activities[PrevDay(d)], f)
      ensures c != NotFinite
      ensures c == Neutral <==> f == DateField || f == HeartRateField
      ensures selectedDate == old(selectedDate)
    {
      var current := GetActivityForDate(d, drCurrent);
      var previous := GetActivityForDate(PrevDay(d), drPrevious);
      c := MetricChange(current, previous, f);
      GeneratedChangeIsFinite(current, previous, PrevDay(d), f);
    }

    /** Looks `days` up in order, day i with draw i, and returns their records (the `days.map`). */
    method LookUpDays(days: seq<Date>, draws: seq<Draw>) returns (rs: seq<DailyActivity>)
      requires Valid()
      requires |draws| == |days|
      modifies this
      ensures Valid()
      ensures activities == CachedAll(old(activities), days, draws)
      ensures |rs| == |days|
      ensures forall i :: 0 <= i < |days| ==> days[i] in activities && rs[i] == activities[days[i]] && rs[i].date == days[i]
      ensures selectedDate == old(selectedDate)
    {
      rs := [];
      var i := 0;
      while i < |days|
        invariant 0 <= i <= |days|
        invariant Valid()
        invariant activities == CachedAll(old(activities), days[..i], draws[..i])
        invariant |rs| == i
        invariant forall j :: 0 <= j < i ==> days[j] in activities && rs[j] == activities[days[j]]
        invariant selectedDate == old(selectedDate)
      {
        CachedAllSnoc(old(activities), days, draws, i);
        ghost var before, rsBefore := activities, rs;
        var a := GetActivityForDate(days[i], draws[i]);
        rs := rs + [a];
        forall j | 0 <= j <= i
          ensures days[j] in activities && rs[j] == activities[days[j]]
        {
          if j < i {
            assert rs[j] == rsBefore[j] && days[j] in before;
          } else {
            assert rs[j] == a;
          }
        }
        i := i + 1;
      }
      assert days[..i] == days && draws[..i] == draws;
      RecordsCarryTheirDates(activities, days, rs);
    }

    /** `getMonthlyActivities`: one record per day of the month of `today`, in order. */
    method GetMonthlyActivities(today: Date, draws: seq<Draw>) returns (rs: seq<DailyActivity>)
      requires Valid()
      requires |draws| == DaysInMonth(today.year, today.month)
      modifies this
      ensures Valid()
      ensures activities == CachedAll(old(activities), MonthDays(today.year, today.month), draws)
      ensures |rs| == DaysInMonth(today.year, today.month)
      ensures forall i :: 0 <= i < |rs| ==> rs[i].date == Ymd(today.year, today.month, i + 1)
      ensures forall i :: 0 <= i < |rs| ==> rs[i].date in activities && rs[i] == activities[rs[i].date]
      ensures forall i, j :: 0 <= i < j < |rs| ==> Precedes(rs[i].date, rs[j].date)
      ensures selectedDate == old(selectedDate)
    {
      var days := MonthDays(today.year, today.month);
      rs := LookUpDays(days, draws);
      assert forall i :: 0 <= i < |rs| ==> rs[i].date == days[i];
    }

    /** `setSelectedDate`: moves the cursor and makes sure its record exists. */
    method SetSelectedDate(d: Date, dr: Draw)
      requires Valid()
      modifies this
      ensures Valid()
      ensures selectedDate == d
      ensures activities == Cached(old(activities), d, dr)
      ensures SelectedActivity() == Some(activities[d])
    {
      selectedDate := d;
      var _ := GetActivityForDate(d, dr);
    }
  }
}

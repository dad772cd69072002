/** The dashboard's aggregation of the meal history (components/Dashboard.tsx):
    the chart series built per time range, its calorie total, and the list of
    recent entries.

    The calendar is not modelled. What JavaScript's `Date` computes from the
    current time (the hour of a timestamp, the local midnight a number of days
    away, the first instant of a month a number of months away, and the
    locale's short names) is given as a `Calendar` value. */
module Dashboard {
  import opened Types
  import opened Strings

  /** The fixed length of a day the weekly chart adds to a day's start. */
  const DayMs: int := 86400000

  /** The half-open interval [lo, hi). */
  datatype Window = Window(lo: int, hi: int) {
    predicate Contains(x: int)
    {
      lo <= x < hi
    }
  }

  /** One bucket to be built: its label and the window its entries fall in. */
  datatype Slot = Slot(name: string, window: Window)

  /** What the dashboard reads from `Date` for the current instant. Offsets are
      relative to now: `dayStart(-2)` is local midnight two days ago,
      `monthStart(1)` the first instant of next month. */
  datatype Calendar = Calendar(
    hourOf: int -> int,
    dayStart: int -> int,
    monthStart: int -> int,
    weekdayLabel: int -> string,
    monthLabel: int -> string)

  /** One point of the chart. */
  datatype Bucket = Bucket(name: string, calories: int, protein: int, carbs: int, fats: int, sugars: int) {
    function Get(n: Nutrient): int
    {
      match n
      case Calories => calories
      case Protein => protein
      case Carbs => carbs
      case Fats => fats
      case Sugars => sugars
    }
  }

  function Identity(t: int): int
  {
    t
  }

  /** `history.filter(h => h.timestamp >= start)`: the entries logged at or
      after `start`, in their original order. */
  function Since(es: seq<FoodEntry>, start: int): seq<FoodEntry>
  {
    if es == [] then []
    else
      var last := es[|es| - 1];
      Since(es[..|es| - 1], start) + (if last.timestamp >= start then [last] else [])
  }

  /** `es.filter(e => w.lo <= key(e.timestamp) && key(e.timestamp) < w.hi)`:
      the entries whose key falls in the window, in their original order. */
  function Within(es: seq<FoodEntry>, key: int -> int, w: Window): seq<FoodEntry>
  {
    if es == [] then []
    else
      var last := es[|es| - 1];
      Within(es[..|es| - 1], key, w) + (if w.Contains(key(last.timestamp)) then [last] else [])
  }

  /** `es.reduce((sum, e) => sum + e.<n>, 0)`: a left fold starting at zero,
      which is never negative when no entry is. */
  function Sum(es: seq<FoodEntry>, n: Nutrient): (r: int)
    ensures (forall i :: 0 <= i < |es| ==> Amount(es[i], n) >= 0) ==> r >= 0
  {
    if es == [] then 0 else Sum(es[..|es| - 1], n) + Amount(es[|es| - 1], n)
  }

  /** The bucket pushed for one window: every field a sum over the same
      entries. */
  function Aggregate(title: string, es: seq<FoodEntry>): Bucket
  {
    Bucket(title, Sum(es, Calories), Sum(es, Protein), Sum(es, Carbs), Sum(es, Fats), Sum(es, Sugars))
  }

  /** A window no entry falls in gives a bucket of zeros. */
  lemma EmptyWindowZero(title: string, es: seq<FoodEntry>, key: int -> int, w: Window)
    requires forall i :: 0 <= i < |es| ==> !w.Contains(key(es[i].timestamp))
    ensures forall n :: Aggregate(title, Within(es, key, w)).Get(n) == 0
  {
    WithinNone(es, key, w);
  }

  lemma {:induction false} WithinNone(es: seq<FoodEntry>, key: int -> int, w: Window)
    requires forall i :: 0 <= i < |es| ==> !w.Contains(key(es[i].timestamp))
    ensures Within(es, key, w) == []
  {
    if es != [] {
      WithinNone(es[..|es| - 1], key, w);
    }
  }

  /** Entries with no negative quantity give a bucket with none. */
  lemma AggregateNonNegative(title: string, es: seq<FoodEntry>)
    requires forall i :: 0 <= i < |es| ==> NonNegative(es[i])
    ensures forall n :: Aggregate(title, es).Get(n) >= 0
  {
    forall n: Nutrient
      ensures Sum(es, n) >= 0
    {
      assert forall i :: 0 <= i < |es| ==> Amount(es[i], n) >= 0;
    }
  }

  /** The buckets pushed one per slot, in slot order (see BucketAt). */
  function Buckets(es: seq<FoodEntry>, key: int -> int, slots: seq<Slot>): (r: seq<Bucket>)
    ensures |r| == |slots|
  {
    if slots == [] then []
    else
      var last := slots[|slots| - 1];
      Buckets(es, key, slots[..|slots| - 1]) + [Aggregate(last.name, Within(es, key, last.window))]
  }

  /** Bucket k aggregates exactly the entries whose key falls in slot k's
      window, under slot k's label. */
  lemma {:induction false} BucketAt(es: seq<FoodEntry>, key: int -> int, slots: seq<Slot>, k: nat)
    requires k < |slots|
    ensures Buckets(es, key, slots)[k] == Aggregate(slots[k].name, Within(es, key, slots[k].window))
  {
    var init := slots[..|slots| - 1];
    if k < |init| {
      BucketAt(es, key, init, k);
      assert init[k] == slots[k];
    }
  }

  /** Pushing the bucket of slot k onto the buckets of the slots before it. */
  lemma BucketsPush(es: seq<FoodEntry>, key: int -> int, slots: seq<Slot>, k: nat)
    requires k < |slots|
    ensures Buckets(es, key, slots[..k + 1])
      == Buckets(es, key, slots[..k]) + [Aggregate(slots[k].name, Within(es, key, slots[k].window))]
  {
    assert slots[..k + 1][..k] == slots[..k];
  }

  /** The label of the 3-hour bucket starting at hour h, `${h}:00`. */
  function HourLabel(h: nat): string
  {
    NatToString(h) + ":00"
  }

  /** Today's eight 3-hour windows of the hour of the day, [0,3) to [21,24). */
  function HourSlots(): seq<Slot>
  {
    seq(8, k requires 0 <= k < 8 => Slot(HourLabel(3 * k), Window(3 * k, 3 * k + 3)))
  }

  /** The last seven days, oldest first: slot k covers the day k - 6 days
      from today, from its local midnight for a fixed 86400000 ms. */
  function WeekSlots(cal: Calendar): seq<Slot>
  {
    seq(7, k requires 0 <= k < 7 =>
      Slot(cal.weekdayLabel(k - 6), Window(cal.dayStart(k - 6), cal.dayStart(k - 6) + DayMs)))
  }

  /** The last twelve months, oldest first: slot k covers the month k - 11
      months from this one, up to the start of the month after it. */
  function YearSlots(cal: Calendar): seq<Slot>
  {
    seq(12, k requires 0 <= k < 12 =>
      Slot(cal.monthLabel(k - 11), Window(cal.monthStart(k - 11), cal.monthStart(k - 10))))
  }

  /** The chart series for a range: what `chartData` returns. */
  function Series(history: seq<FoodEntry>, range: TimeRange, cal: Calendar): (r: seq<Bucket>)
    ensures |r| == match range
      case OneDay => 8
      case OneWeek => 7
      case OneYear => 12
      case OneMonth => 0
  {
    match range
    case OneDay => Buckets(Since(history, cal.dayStart(0)), cal.hourOf, HourSlots())
    case OneWeek => Buckets(history, Identity, WeekSlots(cal))
    case OneYear => Buckets(history, Identity, YearSlots(cal))
    case OneMonth => []
  }

  /** `chartData`: the buckets are pushed one at a time onto an initially
      empty array, by a loop per charted range; any other range leaves it
      empty. */
  method ChartData(history: seq<FoodEntry>, range: TimeRange, cal: Calendar) returns (data: seq<Bucket>)
    ensures data == Series(history, range, cal)
  {
    data := [];
    if range == OneDay {
      data := DayChart(history, cal);
    } else if range == OneWeek {
      data := WeekChart(history, cal);
    } else if range == OneYear {
      data := YearChart(history, cal);
    }
  }

  /** The '1D' branch of `chartData`: today's entries in eight 3-hour buckets. */
  method DayChart(history: seq<FoodEntry>, cal: Calendar) returns (data: seq<Bucket>)
    ensures data == Series(history, OneDay, cal)
  {
    data := [];
    var startOfDay := cal.dayStart(0);
    var todayEntries := Since(history, startOfDay);
    ghost var slots := HourSlots();
    ghost var k := 0;
    var i := 0;
    while i <= 21
      invariant 0 <= k <= 8 && i == 3 * k
      invariant data == Buckets(todayEntries, cal.hourOf, slots[..k])
    {
      var name := HourLabel(i);
      var entryInBucket := Within(todayEntries, cal.hourOf, Window(i, i + 3));
      assert slots[k] == Slot(name, Window(i, i + 3));
      BucketsPush(todayEntries, cal.hourOf, slots, k);
      data := data + [Aggregate(name, entryInBucket)];
      i, k := i + 3, k + 1;
    }
    assert slots[..8] == slots;
  }

  /** The '1W' branch of `chartData`: one bucket per day, six days ago first. */
  method WeekChart(history: seq<FoodEntry>, cal: Calendar) returns (data: seq<Bucket>)
    ensures data == Series(history, OneWeek, cal)
  {
    data := [];
    ghost var slots := WeekSlots(cal);
    ghost var k := 0;
    var i := 6;
    while i >= 0
      invariant 0 <= k <= 7 && i == 6 - k
      invariant data == Buckets(history, Identity, slots[..k])
    {
      var dayStart := cal.dayStart(-i);
      var dayEnd := dayStart + DayMs;
      var dayEntries := Within(history, Identity, Window(dayStart, dayEnd));
      assert slots[k] == Slot(cal.weekdayLabel(-i), Window(dayStart, dayEnd));
      BucketsPush(history, Identity, slots, k);
      data := data + [Aggregate(cal.weekdayLabel(-i), dayEntries)];
      i, k := i - 1, k + 1;
    }
    assert slots[..7] == slots;
  }

  /** The '1Y' branch of `chartData`: one bucket per month, eleven months ago
      first. */
  method YearChart(history: seq<FoodEntry>, cal: Calendar) returns (data: seq<Bucket>)
    ensures data == Series(history, OneYear, cal)
  {
    data := [];
    ghost var slots := YearSlots(cal);
    ghost var k := 0;
    var i := 11;
    while i >= 0
      invariant 0 <= k <= 12 && i == 11 - k
      invariant data == Buckets(history, Identity, slots[..k])
    {
      var name := cal.monthLabel(-i);
      var monthStart := cal.monthStart(-i);
      var monthEnd := cal.monthStart(-i + 1);
      var monthEntries := Within(history, Identity, Window(monthStart, monthEnd));
      assert slots[k] == Slot(name, Window(monthStart, monthEnd));
      BucketsPush(history, Identity, slots, k);
      data := data + [Aggregate(name, monthEntries)];
      i, k := i - 1, k + 1;
    }
    assert slots[..12] == slots;
  }

  /** `chartData.reduce((acc, curr) => acc + curr.<n>, 0)`. */
  function Total(data: seq<Bucket>, n: Nutrient): int
  {
    if data == [] then 0 else Total(data[..|data| - 1], n) + data[|data| - 1].Get(n)
  }

  /** `totalCalories`. */
  function TotalCalories(data: seq<Bucket>): int
  {
    Total(data, Calories)
  }

  /** `s.slice().reverse()`: a reversed copy. */
  function Reverse<T>(s: seq<T>): seq<T>
  {
    if s == [] then [] else [s[|s| - 1]] + Reverse(s[..|s| - 1])
  }

  /** `history.slice().reverse().slice(0, 10)`: the ten latest entries. */
  function Recent(history: seq<FoodEntry>): seq<FoodEntry>
  {
    var rev := Reverse(history);
    if |rev| <= 10 then rev else rev[..10]
  }
}

/** What the dashboard's aggregation guarantees: how many buckets each range
    gives and in which order, which entries each bucket sums, that the windows
    do not overlap, that the buckets together account for every entry of the
    charted period, and what the recent-entries list holds. */
module DashboardProperties {
  import opened Types
  import opened Dashboard

  // ---------------------------------------------------------------------
  // Filtering and summing

  /** `Within` is a filter: it keeps exactly the entries whose key falls in
      the window, each as many times as it occurs, and drops the others. */
  lemma {:induction false} WithinMembers(es: seq<FoodEntry>, key: int -> int, w: Window)
    ensures forall e :: e in Within(es, key, w) <==> e in es && w.Contains(key(e.timestamp))
    ensures forall e :: multiset(Within(es, key, w))[e]
                     == if w.Contains(key(e.timestamp)) then multiset(es)[e] else 0
  {
    if es != [] {
      var init, last := es[..|es| - 1], es[|es| - 1];
      WithinMembers(init, key, w);
      assert es == init + [last];
    }
  }

  /** `Since` is a filter: it keeps exactly the entries logged at or after
      `start`, each as many times as it occurs, and drops the others. */
  lemma {:induction false} SinceMembers(es: seq<FoodEntry>, start: int)
    ensures forall e :: e in Since(es, start) <==> e in es && e.timestamp >= start
    ensures forall e :: multiset(Since(es, start))[e]
                     == if e.timestamp >= start then multiset(es)[e] else 0
  {
    if es != [] {
      var init, last := es[..|es| - 1], es[|es| - 1];
      SinceMembers(init, start);
      assert es == init + [last];
    }
  }

  /** A filter that every entry passes keeps everything. */
  lemma {:induction false} WithinAll(es: seq<FoodEntry>, key: int -> int, w: Window)
    requires forall i :: 0 <= i < |es| ==> w.Contains(key(es[i].timestamp))
    ensures Within(es, key, w) == es
  {
    if es != [] {
      WithinAll(es[..|es| - 1], key, w);
      assert es == es[..|es| - 1] + [es[|es| - 1]];
    }
  }

  lemma SumPush(es: seq<FoodEntry>, e: FoodEntry, n: Nutrient)
    ensures Sum(es + [e], n) == Sum(es, n) + Amount(e, n)
  {
    assert (es + [e])[..|es|] == es;
  }

  /** Splitting a window in two splits every sum over it in two. */
  lemma {:induction false} WithinSplit(es: seq<FoodEntry>, key: int -> int, a: int, b: int, c: int, n: Nutrient)
    requires a <= b <= c
    ensures Sum(Within(es, key, Window(a, c)), n)
         == Sum(Within(es, key, Window(a, b)), n) + Sum(Within(es, key, Window(b, c)), n)
  {
    if es != [] {
      var init, last := es[..|es| - 1], es[|es| - 1];
      WithinSplit(init, key, a, b, c, n);
      var x := key(last.timestamp);
      if Window(a, b).Contains(x) {
        SumPush(Within(init, key, Window(a, c)), last, n);
        SumPush(Within(init, key, Window(a, b)), last, n);
        assert Within(es, key, Window(b, c)) == Within(init, key, Window(b, c));
      } else if Window(b, c).Contains(x) {
        SumPush(Within(init, key, Window(a, c)), last, n);
        SumPush(Within(init, key, Window(b, c)), last, n);
        assert Within(es, key, Window(a, b)) == Within(init, key, Window(a, b));
      } else {
        assert Within(es, key, Window(a, c)) == Within(init, key, Window(a, c));
        assert Within(es, key, Window(a, b)) == Within(init, key, Window(a, b));
        assert Within(es, key, Window(b, c)) == Within(init, key, Window(b, c));
      }
    }
  }

  lemma AggregateGet(title: string, es: seq<FoodEntry>, n: Nutrient)
    ensures Aggregate(title, es).Get(n) == Sum(es, n)
  {
  }

  // ---------------------------------------------------------------------
  // Windows

  /** Every window is well formed: it does not end before it starts. */
  predicate Ordered(slots: seq<Slot>)
  {
    forall k :: 0 <= k < |slots| ==> slots[k].window.lo <= slots[k].window.hi
  }

  /** No window ends after the next one starts. */
  predicate Separated(slots: seq<Slot>)
  {
    Ordered(slots) &&
    forall j, k :: 0 <= j < |slots| && 0 <= k < |slots| && k == j + 1 ==>
      slots[j].window.hi <= slots[k].window.lo
  }

  /** Each window ends exactly where the next one starts. */
  predicate Tiled(slots: seq<Slot>)
  {
    Ordered(slots) &&
    forall j, k :: 0 <= j < |slots| && 0 <= k < |slots| && k == j + 1 ==>
      slots[j].window.hi == slots[k].window.lo
  }

  /** From the first window's start to the last window's end. */
  function Span(slots: seq<Slot>): Window
    requires slots != []
  {
    Window(slots[0].window.lo, slots[|slots| - 1].window.hi)
  }

  lemma {:induction false} SeparatedChain(slots: seq<Slot>, j: nat, k: nat)
    requires Separated(slots) && j < k < |slots|
    ensures slots[j].window.hi <= slots[k].window.lo
  {
    if k > j + 1 {
      SeparatedChain(slots, j, k - 1);
    }
  }

  /** Separated windows are pairwise disjoint: no instant lies in two. */
  lemma SeparatedDisjoint(slots: seq<Slot>, j: nat, k: nat, x: int)
    requires Separated(slots) && j < |slots| && k < |slots| && j != k
    ensures !(slots[j].window.Contains(x) && slots[k].window.Contains(x))
  {
    if j < k { SeparatedChain(slots, j, k); } else { SeparatedChain(slots, k, j); }
  }

  /** Tiled windows are separated and reach from the first start to the
      last end. */
  lemma {:induction false} TiledSpan(slots: seq<Slot>)
    requires Tiled(slots) && slots != []
    ensures Separated(slots)
    ensures Span(slots).lo <= Span(slots).hi
  {
    if |slots| > 1 {
      var init := slots[..|slots| - 1];
      assert Tiled(init);
      TiledSpan(init);
      assert slots[|slots| - 2].window.hi == slots[|slots| - 1].window.lo;
    }
  }

  /** Every instant of the span of tiled windows lies in exactly one of them. */
  lemma {:induction false} TiledCover(slots: seq<Slot>, x: int) returns (k: nat)
    requires Tiled(slots) && slots != [] && Span(slots).Contains(x)
    ensures k < |slots| && slots[k].window.Contains(x)
    ensures forall j :: 0 <= j < |slots| && j != k ==> !slots[j].window.Contains(x)
  {
    TiledSpan(slots);
    var last := |slots| - 1;
    if slots[last].window.lo <= x {
      k := last;
    } else {
      var init := slots[..last];
      assert Tiled(init);
      assert slots[last - 1].window.hi == slots[last].window.lo;
      k := TiledCover(init, x);
    }
    forall j | 0 <= j < |slots| && j != k
      ensures !slots[j].window.Contains(x)
    {
      SeparatedDisjoint(slots, j, k, x);
    }
  }

  // ---------------------------------------------------------------------
  // Conservation of totals

  lemma TotalPush(data: seq<Bucket>, b: Bucket, n: Nutrient)
    ensures Total(data + [b], n) == Total(data, n) + b.Get(n)
  {
    assert (data + [b])[..|data|] == data;
  }

  /** Over tiled windows the buckets together hold every entry of the span
      once: the sum of a field over the buckets is the sum of that quantity
      over the entries in the span. */
  lemma {:induction false} TotalOverTiled(es: seq<FoodEntry>, key: int -> int, slots: seq<Slot>, n: Nutrient)
    requires Tiled(slots) && slots != []
    ensures Total(Buckets(es, key, slots), n) == Sum(Within(es, key, Span(slots)), n)
  {
    var m := |slots|;
    var last := slots[m - 1];
    var b := Aggregate(last.name, Within(es, key, last.window));
    assert Buckets(es, key, slots) == Buckets(es, key, slots[..m - 1]) + [b];
    TotalPush(Buckets(es, key, slots[..m - 1]), b, n);
    AggregateGet(last.name, Within(es, key, last.window), n);
    if m == 1 {
      assert Buckets(es, key, slots[..m - 1]) == [];
    } else {
      var init := slots[..m - 1];
      assert Tiled(init);
      TotalOverTiled(es, key, init, n);
      TiledSpan(init);
      assert slots[m - 2].window.hi == last.window.lo;
      WithinSplit(es, key, slots[0].window.lo, last.window.lo, last.window.hi, n);
    }
  }

  // ---------------------------------------------------------------------
  // The three charted ranges

  /** The hour of every timestamp is one of 0..23, as `Date.getHours` gives. */
  ghost predicate HoursInDay(cal: Calendar)
  {
    forall t :: 0 <= cal.hourOf(t) < 24
  }

  /** The 3-hour windows tile the day from hour 0 to hour 24. */
  lemma HourSlotsTiled()
    ensures Tiled(HourSlots()) && Span(HourSlots()) == Window(0, 24)
  {
  }

  /** An hour of the day falls in the bucket `hour / 3` and in no other. */
  lemma HourBucketOf(hour: int)
    requires 0 <= hour < 24
    ensures forall k :: 0 <= k < 8 ==> (HourSlots()[k].window.Contains(hour) <==> k == hour / 3)
  {
  }

  /** '1D': bucket k sums today's entries whose hour is in [3k, 3k + 3). */
  lemma DayBucketAt(history: seq<FoodEntry>, cal: Calendar, k: nat)
    requires k < 8
    ensures Series(history, OneDay, cal)[k]
         == Aggregate(HourLabel(3 * k),
                      Within(Since(history, cal.dayStart(0)), cal.hourOf, Window(3 * k, 3 * k + 3)))
  {
    BucketAt(Since(history, cal.dayStart(0)), cal.hourOf, HourSlots(), k);
  }

  /** '1D': the eight labels, in ascending order of hour. */
  lemma DayLabels(history: seq<FoodEntry>, cal: Calendar)
    ensures var r := Series(history, OneDay, cal);
      [r[0].name, r[1].name, r[2].name, r[3].name, r[4].name, r[5].name, r[6].name, r[7].name]
      == ["0:00", "3:00", "6:00", "9:00", "12:00", "15:00", "18:00", "21:00"]
  {
    forall k | 0 <= k < 8
      ensures Series(history, OneDay, cal)[k].name == HourLabel(3 * k)
    {
      DayBucketAt(history, cal, k);
    }
    assert HourLabel(0) == "0:00" && HourLabel(3) == "3:00";
    assert HourLabel(6) == "6:00" && HourLabel(9) == "9:00";
    assert Strings.NatToString(12) == "12" && HourLabel(12) == "12:00";
    assert Strings.NatToString(15) == "15" && HourLabel(15) == "15:00";
    assert Strings.NatToString(18) == "18" && HourLabel(18) == "18:00";
    assert Strings.NatToString(21) == "21" && HourLabel(21) == "21:00";
  }

  /** '1D': an entry logged before today's midnight changes no bucket. */
  lemma DayIgnoresEarlier(history: seq<FoodEntry>, cal: Calendar, e: FoodEntry)
    requires e.timestamp < cal.dayStart(0)
    ensures Series(history + [e], OneDay, cal) == Series(history, OneDay, cal)
  {
    assert (history + [e])[..|history|] == history;
    assert Since(history + [e], cal.dayStart(0)) == Since(history, cal.dayStart(0));
  }

  /** '1D': when every hour is one of 0..23 the buckets together hold every
      entry logged since today's midnight. */
  lemma DayTotals(history: seq<FoodEntry>, cal: Calendar, n: Nutrient)
    requires HoursInDay(cal)
    ensures Total(Series(history, OneDay, cal), n) == Sum(Since(history, cal.dayStart(0)), n)
  {
    var today := Since(history, cal.dayStart(0));
    HourSlotsTiled();
    TotalOverTiled(today, cal.hourOf, HourSlots(), n);
    WithinAll(today, cal.hourOf, Window(0, 24));
  }

  /** '1W': bucket k sums the entries of the day k - 6 days from today, from
      its midnight up to, but not including, 86400000 ms later. */
  lemma WeekBucketAt(history: seq<FoodEntry>, cal: Calendar, k: nat)
    requires k < 7
    ensures Series(history, OneWeek, cal)[k]
         == Aggregate(cal.weekdayLabel(k - 6),
                      Within(history, Identity, Window(cal.dayStart(k - 6), cal.dayStart(k - 6) + DayMs)))
  {
    BucketAt(history, Identity, WeekSlots(cal), k);
  }

  /** '1W': when no day of the week is shorter than 86400000 ms, no entry is
      counted on two days. */
  lemma WeekDaysDisjoint(cal: Calendar, j: nat, k: nat, t: int)
    requires Separated(WeekSlots(cal)) && j < 7 && k < 7 && j != k
    ensures !(WeekSlots(cal)[j].window.Contains(t) && WeekSlots(cal)[k].window.Contains(t))
  {
    SeparatedDisjoint(WeekSlots(cal), j, k, t);
  }

  /** '1W': on a day shorter than 86400000 ms (a daylight-saving change) the
      first instants of the next day are counted on both days. */
  lemma WeekShortDayOverlap(history: seq<FoodEntry>, cal: Calendar, k: nat, e: FoodEntry)
    requires k < 6
    requires cal.dayStart(k - 6) <= cal.dayStart(k - 5) < cal.dayStart(k - 6) + DayMs
    requires e in history && e.timestamp == cal.dayStart(k - 5)
    ensures e in Within(history, Identity, WeekSlots(cal)[k].window)
    ensures e in Within(history, Identity, WeekSlots(cal)[k + 1].window)
  {
    WithinMembers(history, Identity, WeekSlots(cal)[k].window);
    WithinMembers(history, Identity, WeekSlots(cal)[k + 1].window);
  }

  /** '1W': on a day longer than 86400000 ms (the other daylight-saving
      change), when no day is shorter, an entry in that day's last instants
      falls in no bucket at all. */
  lemma WeekLongDayGap(history: seq<FoodEntry>, cal: Calendar, k: nat, e: FoodEntry)
    requires k < 6 && Separated(WeekSlots(cal))
    requires cal.dayStart(k - 6) + DayMs <= e.timestamp < cal.dayStart(k - 5)
    ensures forall j :: 0 <= j < 7 ==> e !in Within(history, Identity, WeekSlots(cal)[j].window)
  {
    var slots := WeekSlots(cal);
    forall j | 0 <= j < 7
      ensures e !in Within(history, Identity, slots[j].window)
    {
      WithinMembers(history, Identity, slots[j].window);
      if j < k {
        SeparatedChain(slots, j, k);
      } else if j > k + 1 {
        SeparatedChain(slots, k + 1, j);
      }
    }
  }

  /** '1W': when every day is exactly 86400000 ms long, the buckets together
      hold every entry of the seven days. */
  lemma WeekTotals(history: seq<FoodEntry>, cal: Calendar, n: Nutrient)
    requires Tiled(WeekSlots(cal))
    ensures Total(Series(history, OneWeek, cal), n)
         == Sum(Within(history, Identity, Window(cal.dayStart(-6), cal.dayStart(0) + DayMs)), n)
  {
    TotalOverTiled(history, Identity, WeekSlots(cal), n);
  }

  /** '1Y': bucket k sums the entries of the month k - 11 months from this
      one, from its first instant up to the first instant of the next. */
  lemma YearBucketAt(history: seq<FoodEntry>, cal: Calendar, k: nat)
    requires k < 12
    ensures Series(history, OneYear, cal)[k]
         == Aggregate(cal.monthLabel(k - 11),
                      Within(history, Identity, Window(cal.monthStart(k - 11), cal.monthStart(k - 10))))
  {
    BucketAt(history, Identity, YearSlots(cal), k);
  }

  /** '1Y': one month's end is the next month's start, so whenever months
      start in ascending order the twelve windows tile the year. */
  lemma YearSlotsTiled(cal: Calendar)
    requires Ordered(YearSlots(cal))
    ensures Tiled(YearSlots(cal))
    ensures Span(YearSlots(cal)) == Window(cal.monthStart(-11), cal.monthStart(1))
  {
  }

  /** '1Y': every instant of the twelve months lies in exactly one month's
      window. */
  lemma YearMonthOf(cal: Calendar, t: int) returns (k: nat)
    requires Ordered(YearSlots(cal))
    requires cal.monthStart(-11) <= t < cal.monthStart(1)
    ensures k < 12 && YearSlots(cal)[k].window.Contains(t)
    ensures forall j :: 0 <= j < 12 && j != k ==> !YearSlots(cal)[j].window.Contains(t)
  {
    YearSlotsTiled(cal);
    k := TiledCover(YearSlots(cal), t);
  }

  /** '1Y': the buckets together hold every entry of the twelve months. */
  lemma YearTotals(history: seq<FoodEntry>, cal: Calendar, n: Nutrient)
    requires Ordered(YearSlots(cal))
    ensures Total(Series(history, OneYear, cal), n)
         == Sum(Within(history, Identity, Window(cal.monthStart(-11), cal.monthStart(1))), n)
  {
    YearSlotsTiled(cal);
    TotalOverTiled(history, Identity, YearSlots(cal), n);
  }

  /** Any range other than '1D', '1W' and '1Y' charts nothing, and its total
      is zero. */
  lemma UnchartedRange(history: seq<FoodEntry>, cal: Calendar)
    ensures Series(history, OneMonth, cal) == []
    ensures TotalCalories(Series(history, OneMonth, cal)) == 0
  {
  }

  /** With no negative quantity in the history, no field of any bucket is
      negative. */
  lemma SeriesNonNegative(history: seq<FoodEntry>, range: TimeRange, cal: Calendar)
    requires forall i :: 0 <= i < |history| ==> NonNegative(history[i])
    ensures forall k, n :: 0 <= k < |Series(history, range, cal)| ==> Series(history, range, cal)[k].Get(n) >= 0
  {
    var today := Since(history, cal.dayStart(0));
    SinceMembers(history, cal.dayStart(0));
    forall k, n | 0 <= k < |Series(history, range, cal)|
      ensures Series(history, range, cal)[k].Get(n) >= 0
    {
      var es, key, slots := history, Identity, WeekSlots(cal);
      match range {
        case OneDay => es, key, slots := today, cal.hourOf, HourSlots();
        case OneWeek =>
        case OneYear => slots := YearSlots(cal);
      }
      BucketAt(es, key, slots, k);
      var sel := Within(es, key, slots[k].window);
      WithinMembers(es, key, slots[k].window);
      assert forall i :: 0 <= i < |sel| ==> sel[i] in history;
      AggregateNonNegative(slots[k].name, sel);
    }
  }

  // ---------------------------------------------------------------------
  // Recent entries

  lemma {:induction false} ReverseAt<T>(s: seq<T>, k: nat)
    requires k < |s|
    ensures |Reverse(s)| == |s| && Reverse(s)[k] == s[|s| - 1 - k]
  {
    if k > 0 {
      ReverseAt(s[..|s| - 1], k - 1);
    } else if |s| > 1 {
      ReverseAt(s[..|s| - 1], 0);
    }
  }

  /** The recent list holds the ten latest entries (all of them when there
      are fewer), the last logged first. */
  lemma RecentNewestFirst(history: seq<FoodEntry>)
    ensures |Recent(history)| == if |history| < 10 then |history| else 10
    ensures forall k :: 0 <= k < |Recent(history)| ==> Recent(history)[k] == history[|history| - 1 - k]
  {
    if history != [] {
      ReverseAt(history, 0);
    } else {
      assert Reverse(history) == [];
    }
    forall k | 0 <= k < |Recent(history)|
      ensures Recent(history)[k] == history[|history| - 1 - k]
    {
      ReverseAt(history, k);
    }
  }

  /** Logging an entry puts it at the head of the recent list and pushes the
      oldest of ten off the end. */
  lemma RecentAfterAppend(history: seq<FoodEntry>, e: FoodEntry)
    ensures var r := Recent(history);
      Recent(history + [e]) == [e] + (if |r| < 10 then r else r[..9])
  {
    var h := history + [e];
    RecentNewestFirst(h);
    RecentNewestFirst(history);
    var r := Recent(history);
    var expected := [e] + (if |r| < 10 then r else r[..9]);
    assert |Recent(h)| == |expected|;
    forall k | 0 <= k < |expected|
      ensures Recent(h)[k] == expected[k]
    {
      if k > 0 {
        assert h[|h| - 1 - k] == history[|history| - 1 - (k - 1)];
      }
    }
  }
}

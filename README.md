# NutriCalm: the dashboard's aggregation and the app's state machine, in Dafny

NutriCalm estimates the nutrition of a food item from a text query, a photo or a
barcode, using an external estimator. It logs accepted estimates in a history
and charts them. This project models the two pieces of logic the app owns, and
proves properties about them.

**The dashboard's aggregation** (`components/Dashboard.tsx`, modules `Dashboard`
and `DashboardProperties`). For a time range, `chartData` pushes one bucket per
window onto an empty array. Each bucket sums calories, protein, carbs, fats and
sugars over the entries whose timestamp falls in a half-open window:
- '1D': eight 3-hour windows of the hour of the day, counting only entries
  logged since today's midnight.
- '1W': seven windows of 86400000 ms, each starting at a local midnight, oldest
  first.
- '1Y': twelve windows, each from one month's start to the next month's start,
  oldest first.
- Any other range: nothing.

`totalCalories` sums the calories over the buckets. The recent-entries list holds
the last ten entries, newest first. `ChartData` (with `DayChart`, `WeekChart` and
`YearChart` for its three loops) is the imperative construction. It is proved
equal to the specification function `Series`, and the lemmas are about `Series`.

**The calendar is an input.** The datatype `Calendar` carries:
- the hour of a timestamp;
- the local midnight a number of days away;
- the first instant of a month a number of months away;
- the short weekday and month names.

Where a property depends on the calendar, the lemma states that condition as a
precondition:
- hours lie in 0..23;
- each day of the week is exactly 86400000 ms long;
- month starts ascend.

**The app's state machine** (`App.tsx`, module `App`). The six `useState` fields
are fields of the class `AppState`, and each handler is a method that changes
them. An asynchronous handler is split at its `await`:
- `BeginAnalyze` or `BeginBarcodeScan` covers what runs before the `await`.
- `Settle` covers the lookup's outcome and the `finally` block.

`HandleAnalyze` and `HandleBarcodeScan` compose the two halves. The lookup is
a `Lookup` parameter, either `Found(data)` or `Failed`.

Module `Types` holds the records. Module `Strings` holds JavaScript's `trim`, which
is used by the query guard, and decimal rendering, which is used by the entry id
and the hour labels.

## Model

| member | source | states |
|---|---|---|
| Strings.TrimStart | App.tsx:28 | the result is a suffix of the input; everything cut off is whitespace; the result is empty or starts with a non-whitespace character |
| Strings.TrimEnd | App.tsx:28 | the result is a prefix of the input; everything cut off is whitespace; the result is empty or ends with a non-whitespace character |
| Strings.Trim | App.tsx:28 | `query.trim()` is empty exactly when the query is blank (all ECMAScript whitespace or line terminators); otherwise it starts and ends with a non-whitespace character |
| Strings.NatToString | App.tsx:81 | the decimal rendering of a non-negative number is non-empty, all digits, and has no leading zero |
| Strings.NatToStringRoundTrip | App.tsx:81 | reading the rendering back as decimal digits gives the number |
| Strings.NatToStringInjective | App.tsx:81 | different clock readings give different entry ids |
| Dashboard.Sum | components/Dashboard.tsx:44-48 | the `reduce` from 0 is never negative when no summed quantity is |
| Dashboard.EmptyWindowZero | components/Dashboard.tsx:42-49 | a window that no entry falls in gives a bucket whose five fields are all 0 |
| Dashboard.AggregateNonNegative | components/Dashboard.tsx:42-49 | entries with no negative quantity give a bucket with no negative field |
| Dashboard.BucketAt | components/Dashboard.tsx:34-50 | the k-th pushed bucket carries slot k's label and sums exactly the entries whose key falls in slot k's window |
| Dashboard.BucketsPush | components/Dashboard.tsx:42-49 | pushing slot k's bucket extends the buckets of slots 0..k-1 to those of slots 0..k |
| Dashboard.Series | components/Dashboard.tsx:24-95 | the series has 8 buckets for '1D', 7 for '1W', 12 for '1Y' and none for any other range |
| Dashboard.ChartData | components/Dashboard.tsx:24-95 | the array built by pushing buckets in the three loops is the series `Series` specifies, for every range |
| Dashboard.DayChart | components/Dashboard.tsx:28-51 | the loop over i = 0, 3, …, 21 pushes the eight '1D' buckets of the series in order |
| Dashboard.WeekChart | components/Dashboard.tsx:52-71 | the loop over i = 6 down to 0 pushes the seven '1W' buckets of the series, oldest day first |
| Dashboard.YearChart | components/Dashboard.tsx:72-93 | the loop over i = 11 down to 0 pushes the twelve '1Y' buckets of the series, oldest month first |
| DashboardProperties.WithinMembers | components/Dashboard.tsx:37-40 | the window filter keeps exactly the history entries whose key lies in [lo, hi), each as many times as it occurs in the history (as a multiset), and drops every other entry |
| DashboardProperties.SinceMembers | components/Dashboard.tsx:31 | today's entries are exactly the entries with timestamp >= start of day, each as many times as it occurs in the history (as a multiset) |
| DashboardProperties.WithinSplit | components/Dashboard.tsx:60 | for a <= b <= c, the sum over [a, c) is the sum over [a, b) plus the sum over [b, c) |
| DashboardProperties.SeparatedDisjoint | components/Dashboard.tsx:60 | windows where none ends after the next begins are pairwise disjoint |
| DashboardProperties.TiledCover | components/Dashboard.tsx:82 | an instant in the span of end-to-start windows lies in exactly one window |
| DashboardProperties.TotalOverTiled | components/Dashboard.tsx:97 | over end-to-start windows, a field summed over the buckets equals that quantity summed over the entries in the whole span |
| DashboardProperties.HourSlotsTiled | components/Dashboard.tsx:34-40 | the eight 3-hour windows run end to start from hour 0 to hour 24 |
| DashboardProperties.HourBucketOf | components/Dashboard.tsx:34-40 | an hour h in 0..23 lies in bucket h / 3 and in no other |
| DashboardProperties.DayBucketAt | components/Dashboard.tsx:31-49 | '1D' bucket k sums today's entries whose hour lies in [3k, 3k + 3) |
| DashboardProperties.DayLabels | components/Dashboard.tsx:34-35 | the '1D' labels are 0:00, 3:00, …, 21:00 in that order |
| DashboardProperties.DayIgnoresEarlier | components/Dashboard.tsx:31 | an entry logged before today's midnight changes no '1D' bucket |
| DashboardProperties.DayTotals | components/Dashboard.tsx:31-48 | with hours in 0..23, every field summed over the '1D' buckets equals that quantity summed over today's entries |
| DashboardProperties.WeekBucketAt | components/Dashboard.tsx:54-69 | '1W' bucket k sums the entries in [dayStart(k-6), dayStart(k-6) + 86400000), so an entry exactly at the day's end is excluded |
| DashboardProperties.WeekDaysDisjoint | components/Dashboard.tsx:57-60 | when no day is shorter than 86400000 ms, no entry is counted on two days |
| DashboardProperties.WeekShortDayOverlap | components/Dashboard.tsx:58-60 | on a day shorter than 86400000 ms, an entry at the next day's midnight is counted on both days |
| DashboardProperties.WeekLongDayGap | components/Dashboard.tsx:58-60 | on a day longer than 86400000 ms, with no day shorter, an entry after the first 86400000 ms of that day and before the next midnight is counted on no day |
| DashboardProperties.WeekTotals | components/Dashboard.tsx:54-69 | when every day is exactly 86400000 ms, every field summed over the '1W' buckets equals that quantity over the seven days' entries |
| DashboardProperties.YearBucketAt | components/Dashboard.tsx:74-91 | '1Y' bucket k sums the entries in [monthStart(k-11), monthStart(k-10)) |
| DashboardProperties.YearSlotsTiled | components/Dashboard.tsx:77-82 | one month's end is the next month's start, so with ascending month starts the twelve windows run end to start |
| DashboardProperties.YearMonthOf | components/Dashboard.tsx:77-82 | every instant of the twelve months lies in exactly one month's window |
| DashboardProperties.YearTotals | components/Dashboard.tsx:74-91 | every field summed over the '1Y' buckets equals that quantity over the entries of the twelve months |
| DashboardProperties.UnchartedRange | components/Dashboard.tsx:26-97 | any range other than '1D', '1W' and '1Y' gives an empty series, whose `totalCalories` is 0 |
| DashboardProperties.SeriesNonNegative | components/Dashboard.tsx:42-91 | with no negative quantity in the history, no field of any bucket of any range is negative |
| DashboardProperties.ReverseAt | components/Dashboard.tsx:224 | position k of the reversed copy holds the input's element k from the end |
| DashboardProperties.RecentNewestFirst | components/Dashboard.tsx:224 | the recent list has min(10, \|history\|) entries, and position k holds the k-th latest entry |
| DashboardProperties.RecentAfterAppend | components/Dashboard.tsx:224 | after an entry is logged, it heads the recent list, followed by at most nine of the previous ones |
| App.AppState.constructor | App.tsx:10-18 | empty query, scan view, no loader, no result, scanner closed, history as loaded |
| App.AppState.BeginAnalyze | App.tsx:26-31 | it starts exactly when the query is not blank or an image is given; a start sets loading and clears the result; otherwise loading and result are unchanged; query, view, scanner and history are never touched |
| App.AppState.Settle | App.tsx:48-54 | loading ends false; a success sets the result; a failure leaves it as it was; nothing else changes |
| App.AppState.HandleAnalyze | App.tsx:26-55 | when it completes, a started analysis ends with loading false and a result exactly when the estimator answered, so none after a failure; an unstarted one changes nothing |
| App.AppState.BeginBarcodeScan | App.tsx:57-60 | the scanner is closed, loading is set and the result cleared before the lookup |
| App.AppState.HandleBarcodeScan | App.tsx:57-69 | it ends with the scanner closed, loading false, and a result exactly when the lookup succeeded |
| App.AppState.SaveEntry | App.tsx:77-88 | with no result nothing changes; with one, exactly one entry (the result's data, id and timestamp from the clock) is appended after the unchanged history, then the result and query are cleared and the view becomes the dashboard |
| App.AppState.Discard | App.tsx:195 | the result and the query are cleared; the history and everything else are unchanged |
| App.AppState.SetQuery | App.tsx:140 | only the query changes |
| App.AppState.SetView | App.tsx:104-113 | only the view changes |
| App.AppState.SetShowScanner | App.tsx:147 | only the scanner's visibility changes |
| App.Run | App.tsx:26-88 | any sequence of handler runs keeps the earlier history as a prefix of the new one, and adds at most one entry per save |
| App.Session | App.tsx:26-88 | a successful search and a save followed by a failed scan leave the history one entry longer and no result |

## Left out

- `services/geminiService.ts` is not part of this model. It calls an external generative model and parses the reply, and only its outcome appears here, as the `Lookup` parameter.
- `components/ScannerModal.tsx` is not part of this model. It covers camera access, a third-party barcode library, and asynchronous start, stop and cleanup. The scanned code only selects the lookup, so `HandleBarcodeScan` takes the lookup's outcome and not the code.
- `components/ResultCard.tsx` and `components/NutrientBar.tsx` are rendering only. This includes NutrientBar's timer animation and its floating-point width clamp.
- Loading and saving the history in `localStorage`, including the JSON (App.tsx:15-24), is left out. The constructor takes the loaded history as a parameter.
- Reading an image file as base64 (App.tsx:36-46) is left out. Only whether an image was given matters, through the `hasImage` parameter.
- App.AppState.HandleAnalyze: models only runs that complete. The image read resolves only in `reader.onload` and has no `onerror` (App.tsx:39-45), so a failed read leaves the handler waiting for good with the loader shown; the `finally` never runs.
- The `alert` calls are left out.
- `Date` calendar arithmetic and locale formatting are left out: hours, local midnights, month rollover, daylight saving time, and weekday and month names. They are inputs through `Calendar`.
- Calendar facts are preconditions, not theorems: hours lie in 0..23, days are 86400000 ms long, month starts ascend. WeekTotals assumes every day of the week is exactly 86400000 ms long; on a daylight-saving change that fails, and WeekShortDayOverlap and WeekLongDayGap show what the '1W' buckets then double-count or miss.
- `Date.now()` is read twice in `saveEntry`, once for the id and once for the timestamp. It is modelled as one reading `now`.
- Floating-point arithmetic is left out. Nutrient quantities and timestamps are unbounded integers, so the sums do not round.
- Concurrency between handlers is left out. Another handler running between a `Begin...` method and `Settle` is not modelled, and neither is React's batching of state updates. Each handler runs its steps in order.
- JSX, CSS, chart configuration and colour constants are left out.
- The history is kept in insertion order. The code only appends entries stamped with the current clock, so it is chronological only if the clock never goes back, which is not modelled.
- The '1D' chart bounds entries only from below (timestamp >= today's midnight). An entry stamped later than today is still counted, in the bucket of its hour. The model keeps this.

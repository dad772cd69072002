/** The application's screen state and its handlers (App.tsx).

    Each `useState` field is a field of `AppState`, and each handler is a
    method that updates them in the source's order. An asynchronous handler
    is split at its `await`: a `Begin...` method for what runs before it,
    and `Settle` for the outcome of the external lookup and the `finally`
    block. The lookup itself (the estimator, the barcode lookup, reading an
    image file) is not modelled: its outcome is a parameter. */
module App {
  import opened Types
  import opened Strings

  /** The two screens. */
  datatype View = ScanView | DashboardView

  /** How a call to the external estimator settles: with an estimate, or by
      throwing. */
  datatype Lookup = Found(data: NutritionData) | Failed

  class AppState {
    var query: string
    var view: View
    var loading: bool
    var result: Option<NutritionData>
    var showScanner: bool
    var history: seq<FoodEntry>

    /** The first render. The history is whatever storage held (App.tsx:15-18);
        the storage itself is not modelled. */
    constructor (saved: seq<FoodEntry>)
      ensures query == "" && view == ScanView && !loading && result == None && !showScanner
      ensures history == saved
    {
      query := "";
      view := ScanView;
      loading := false;
      result := None;
      showScanner := false;
      history := saved;
    }

    /** `handleAnalyze` up to its first `await`. With a query that trims to
        nothing and no image it returns at once and changes nothing;
        otherwise it shows the loader and clears the previous result. */
    method BeginAnalyze(hasImage: bool) returns (started: bool)
      modifies this
      ensures started <==> !Blank(old(query)) || hasImage
      ensures started ==> loading && result == None
      ensures !started ==> loading == old(loading) && result == old(result)
      ensures query == old(query) && view == old(view) && showScanner == old(showScanner)
      ensures history == old(history)
    {
      if Trim(query) == "" && !hasImage {
        return false;
      }
      loading := true;
      result := None;
      started := true;
    }

    /** What follows the `await` of either lookup: on success the estimate
        becomes the result; on failure the catch block only alerts, so the
        result is left as it was; the `finally` block clears `loading`. */
    method Settle(outcome: Lookup)
      modifies this
      ensures !loading
      ensures result == if outcome.Found? then Some(outcome.data) else old(result)
      ensures query == old(query) && view == old(view) && showScanner == old(showScanner)
      ensures history == old(history)
    {
      if outcome.Found? {
        result := Some(outcome.data);
      }
      loading := false;
    }

    /** The whole of `handleAnalyze`, when it completes: a started run ends
        with the loader hidden, and with a result exactly when the estimator
        answered, so a failure leaves no result. (An image read that never
        loads keeps the handler waiting; that path is not modelled.) */
    method HandleAnalyze(hasImage: bool, outcome: Lookup) returns (started: bool)
      modifies this
      ensures started <==> !Blank(old(query)) || hasImage
      ensures started ==> !loading && result == (if outcome.Found? then Some(outcome.data) else None)
      ensures !started ==> loading == old(loading) && result == old(result)
      ensures query == old(query) && view == old(view) && showScanner == old(showScanner)
      ensures history == old(history)
    {
      started := BeginAnalyze(hasImage);
      if started {
        Settle(outcome);
      }
    }

    /** `handleBarcodeScan` up to its `await`: the scanner closes before the
        lookup starts, the loader shows and the previous result is cleared. */
    method BeginBarcodeScan()
      modifies this
      ensures !showScanner && loading && result == None
      ensures query == old(query) && view == old(view) && history == old(history)
    {
      showScanner := false;
      loading := true;
      result := None;
    }

    /** The whole of `handleBarcodeScan`: the scanner is closed, the loader
        hidden, and there is a result exactly when the lookup found one. */
    method HandleBarcodeScan(outcome: Lookup)
      modifies this
      ensures !showScanner && !loading
      ensures result == if outcome.Found? then Some(outcome.data) else None
      ensures query == old(query) && view == old(view) && history == old(history)
    {
      BeginBarcodeScan();
      Settle(outcome);
    }

    /** `saveEntry`. Without a result it does nothing. With one, it appends
        exactly one entry to the end of the history (the result's nutrition
        data, stamped with the clock reading `now` as timestamp and, in
        decimal, as id), then clears the result and the query and switches
        to the dashboard. */
    method SaveEntry(now: nat)
      modifies this
      ensures old(result).None? ==>
        history == old(history) && result == old(result) && query == old(query) && view == old(view)
      ensures old(result).Some? ==>
        history == old(history) + [FoodEntry(old(result).value, NatToString(now), now)] &&
        result == None && query == "" && view == DashboardView
      ensures loading == old(loading) && showScanner == old(showScanner)
    {
      if result.None? {
        return;
      }
      var newEntry := FoodEntry(result.value, NatToString(now), now);
      history := history + [newEntry];
      result := None;
      query := "";
      view := DashboardView;
    }

    /** The result card's discard: clears the result and the query and
        leaves the history alone. */
    method Discard()
      modifies this
      ensures result == None && query == ""
      ensures view == old(view) && loading == old(loading) && showScanner == old(showScanner)
      ensures history == old(history)
    {
      result := None;
      query := "";
    }

    /** Typing in the search field. */
    method SetQuery(text: string)
      modifies this
      ensures query == text
      ensures view == old(view) && loading == old(loading) && result == old(result)
      ensures showScanner == old(showScanner) && history == old(history)
    {
      query := text;
    }

    /** The header's two view buttons. */
    method SetView(v: View)
      modifies this
      ensures view == v
      ensures query == old(query) && loading == old(loading) && result == old(result)
      ensures showScanner == old(showScanner) && history == old(history)
    {
      view := v;
    }

    /** The scan button opens the scanner; the scanner's close button shuts it. */
    method SetShowScanner(show: bool)
      modifies this
      ensures showScanner == show
      ensures query == old(query) && view == old(view) && loading == old(loading)
      ensures result == old(result) && history == old(history)
    {
      showScanner := show;
    }
  }

  /** Whether a saved history has an earlier one as its prefix: what every
      handler keeps, since the only update of the history appends. */
  predicate Extends(before: seq<FoodEntry>, after: seq<FoodEntry>)
  {
    |before| <= |after| && after[..|before|] == before
  }

  /** One save adds exactly one entry and keeps every earlier one in place. */
  lemma SaveExtends(before: seq<FoodEntry>, e: FoodEntry)
    ensures Extends(before, before + [e]) && |before + [e]| == |before| + 1
  {
    assert (before + [e])[..|before|] == before;
  }

  lemma ExtendsTransitive(a: seq<FoodEntry>, b: seq<FoodEntry>, c: seq<FoodEntry>)
    requires Extends(a, b) && Extends(b, c)
    ensures Extends(a, c)
  {
    assert c[..|a|] == c[..|b|][..|a|];
  }

  /** What the user does: each event runs one handler to completion. */
  datatype Event =
    | Typed(text: string)
    | Switched(v: View)
    | ScannerShown(show: bool)
    | Analyzed(hasImage: bool, outcome: Lookup)
    | Scanned(outcome: Lookup)
    | Saved(now: nat)
    | Discarded

  /** How many of the events are saves. */
  function SaveCount(events: seq<Event>): (r: nat)
    ensures r <= |events|
  {
    if events == [] then 0
    else SaveCount(events[..|events| - 1]) + (if events[|events| - 1].Saved? then 1 else 0)
  }

  /** Runs the handlers for the events in order. Whatever the events, the
      history is only ever extended, never reordered or shortened, and it
      grows by at most one entry per save. */
  method Run(app: AppState, events: seq<Event>)
    modifies app
    ensures Extends(old(app.history), app.history)
    ensures |app.history| <= |old(app.history)| + SaveCount(events)
  {
    var i := 0;
    while i < |events|
      invariant 0 <= i <= |events|
      invariant Extends(old(app.history), app.history)
      invariant |app.history| <= |old(app.history)| + SaveCount(events[..i])
    {
      ghost var before := app.history;
      match events[i] {
        case Typed(text) => app.SetQuery(text);
        case Switched(v) => app.SetView(v);
        case ScannerShown(show) => app.SetShowScanner(show);
        case Analyzed(hasImage, outcome) =>
          var _ := app.HandleAnalyze(hasImage, outcome);
        case Scanned(outcome) => app.HandleBarcodeScan(outcome);
        case Saved(now) =>
          app.SaveEntry(now);
          if app.history != before {
            SaveExtends(before, app.history[|app.history| - 1]);
          }
        case Discarded => app.Discard();
      }
      assert Extends(before, app.history);
      ExtendsTransitive(old(app.history), before, app.history);
      assert events[..i + 1][..i] == events[..i];
      i := i + 1;
    }
    assert events[..i] == events;
  }

  /** A session: the first render, a search that succeeds, a save, then a
      barcode scan that fails. The history ends one entry longer, and the
      failed scan leaves no result behind. */
  method Session(saved: seq<FoodEntry>, estimate: NutritionData, now: nat) returns (app: AppState)
    ensures app.history == saved + [FoodEntry(estimate, NatToString(now), now)]
    ensures app.result == None && !app.loading && !app.showScanner
    ensures app.view == DashboardView && app.query == ""
  {
    app := new AppState(saved);
    app.SetQuery("apple");
    assert !IsWhitespace(app.query[0]);
    var started := app.HandleAnalyze(false, Found(estimate));
    assert started;
    app.SaveEntry(now);
    app.SetShowScanner(true);
    app.HandleBarcodeScan(Failed);
  }
}

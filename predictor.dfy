/**
 * The three forecasting strategies of predictor.py around their fitted
 * models: the linear trend over date ordinals (`train_linear_model`), the
 * boosted regressor (`train_xgboost_model`) and the boosted direction
 * classifier (`predict_direction`).
 *
 * Fitting and predicting are the libraries' work; here each fitted model
 * is a function handed in by the caller, and `trainSize` stands for the
 * number of rows `train_test_split(..., shuffle=False, test_size=0.2)`
 * keeps for training.
 */
module Predictor {
  import opened Wrappers
  import opened Text
  import opened Sorting
  import opened TradingCalendar
  import opened Frames
  import opened Features

  /** One observation of the linear strategy: a date ordinal and its close price. */
  datatype Row = Row(date: int, close: real)

  /** One line of a returned forecast table. */
  datatype Prediction<V> = Prediction(date: int, value: V)

  datatype PredictError =
    | ResetRefused(col: string)     // reset_index(): the column label is taken
    | NoCloseColumn                 // ValueError at predictor.py:37
    | NoDateColumn                  // KeyError selecting or dropping 'Date'
    | NotADate                      // a Date cell that is not a date
    | NonNumericClose               // a Close cell that is not a number
    | NoSamples                     // fitting on zero rows
    | Features(cause: FeatureError) // raised inside engineer_features
    | EmptyTrainingSet              // train_test_split leaves no training row
    | LengthMismatch                // DataFrame columns of unequal length
    | EmptyPrediction               // `model.predict([])`: no dates to predict

  function Min(a: int, b: int): int
  {
    if a <= b then a else b
  }

  /** Pairs dates with values positionally, as `pd.DataFrame({...})` does; unequal lengths raise. */
  function Pair<V>(dates: seq<int>, values: seq<V>): (r: Result<seq<Prediction<V>>, PredictError>)
    ensures r.Ok? <==> |dates| == |values|
    ensures r.Ok? ==> (|r.value| == |dates|
      && forall j :: 0 <= j < |dates| ==> r.value[j] == Prediction(dates[j], values[j]))
  {
    if |dates| != |values| then Err(LengthMismatch)
    else Ok(seq(|dates|, j requires 0 <= j < |dates| => Prediction(dates[j], values[j])))
  }

  // ================================================================ train_linear_model

  /** Lines 31-32: `reset_index()` only when there is no `Date` column. */
  function WithDateColumn(t: Table): (r: Result<Table, PredictError>)
    requires Shaped(t) && t.labels.Flat?
    ensures "Date" in t.labels.names ==> r == Ok(t)
    ensures "Date" !in t.labels.names ==> (r.Ok? <==> ResetIndex(t).Ok?)
    ensures "Date" !in t.labels.names && r.Ok? ==> r.value == ResetIndex(t).value
    ensures r.Err? ==> r == Err(ResetRefused(ResetLabel(t.labels.names, t.index)))
    ensures r.Ok? ==> (Shaped(r.value) && r.value.labels.Flat? && |r.value.rows| == |t.rows|)
  {
    if "Date" in t.labels.names then Ok(t)
    else match ResetIndex(t)
      case Err(col) => Err(ResetRefused(col))
      case Ok(u) => Ok(u)
  }

  predicate AllDays(cells: seq<Value>)
  {
    forall i :: 0 <= i < |cells| ==> cells[i].Day?
  }

  /**
   * Lines 35-42: the first label containing the case-sensitive substring
   * `Close` supplies the prices, the `Date` column the dates.
   */
  function SelectDateClose(t: Table): (r: Result<seq<Row>, PredictError>)
    requires Shaped(t) && t.labels.Flat?
    ensures r == Err(NoCloseColumn) <==>
      forall j :: 0 <= j < |t.labels.names| ==> !Contains(t.labels.names[j], "Close")
    ensures r == Err(NoDateColumn) <==>
      FirstLabelContaining(t.labels.names, "Close").Some? && "Date" !in t.labels.names
    ensures r.Ok? <==>
      FirstLabelContaining(t.labels.names, "Close").Some? && FirstIndexOf(t.labels.names, "Date").Some?
      && AllDays(Column(t, FirstIndexOf(t.labels.names, "Date").value))
      && AllNumbers(Column(t, FirstLabelContaining(t.labels.names, "Close").value))
    ensures r.Ok? ==> |r.value| == |t.rows|
    ensures r.Ok? ==>
      FirstLabelContaining(t.labels.names, "Close").Some? && FirstIndexOf(t.labels.names, "Date").Some?
      && var cj := FirstLabelContaining(t.labels.names, "Close").value;
      var dj := FirstIndexOf(t.labels.names, "Date").value;
      forall i :: 0 <= i < |t.rows| ==>
        t.rows[i][dj] == Day(r.value[i].date) && t.rows[i][cj] == Num(r.value[i].close)
  {
    match FirstLabelContaining(t.labels.names, "Close")
    case None => Err(NoCloseColumn)
    case Some(cj) =>
      match FirstIndexOf(t.labels.names, "Date")
      case None => Err(NoDateColumn)
      case Some(dj) =>
        var dates, closes := Column(t, dj), Column(t, cj);
        if !AllDays(dates) then Err(NotADate)
        else if !AllNumbers(closes) then Err(PredictError.NonNumericClose)
        else Ok(seq(|t.rows|, i requires 0 <= i < |t.rows| => Row(dates[i].ordinal, closes[i].x)))
  }

  function DateKey(r: Row): real
  {
    r.date as real
  }

  /**
   * Lines 31-47 up to the fit: the (Date, Close) rows in ascending date
   * order, a permutation of the selected rows; fitting zero rows fails.
   */
  function LinearRows(t: Table): (r: Result<seq<Row>, PredictError>)
    requires Shaped(t) && t.labels.Flat?
    ensures r.Ok? <==> WithDateColumn(t).Ok? && SelectDateClose(WithDateColumn(t).value).Ok? && |t.rows| > 0
    ensures r.Ok? ==> (|r.value| > 0 && SortedBy(r.value, DateKey)
      && multiset(r.value) == multiset(SelectDateClose(WithDateColumn(t).value).value))
  {
    match WithDateColumn(t)
    case Err(e) => Err(e)
    case Ok(u) =>
      match SelectDateClose(u)
      case Err(e) => Err(e)
      case Ok(rows) =>
        var sorted := SortBy(rows, DateKey);
        if |sorted| == 0 then Err(NoSamples) else Ok(sorted)
  }

  /**
   * What `train_linear_model` returns for a frame whose labels are already
   * flat: the fit's errors first, then the refusal to predict no dates.
   */
  function LinearForecast(t: Table, daysAhead: int, today: int, fit: seq<Row> -> (int -> real))
    : Result<seq<Prediction<real>>, PredictError>
    requires Shaped(t) && t.labels.Flat?
  {
    match LinearRows(t)
    case Err(e) => Err(e)
    case Ok(rows) =>
      if daysAhead <= 0 then Err(EmptyPrediction) else
      var dates := FutureTradingDays(today, daysAhead);
      Pair(dates, seq(|dates|, j requires 0 <= j < |dates| => fit(rows)(dates[j])))
  }

  /**
   * A linear forecast has one line per requested trading day after
   * `today`, in order, each the fitted line at that date's ordinal.
   */
  lemma LinearForecastSpec(t: Table, daysAhead: int, today: int, fit: seq<Row> -> (int -> real))
    requires Shaped(t) && t.labels.Flat?
    ensures LinearForecast(t, daysAhead, today, fit).Ok? <==> LinearRows(t).Ok? && daysAhead > 0
    ensures LinearRows(t).Err? ==> LinearForecast(t, daysAhead, today, fit) == Err(LinearRows(t).error)
    ensures LinearRows(t).Ok? && daysAhead <= 0 ==> LinearForecast(t, daysAhead, today, fit) == Err(EmptyPrediction)
    ensures var r := LinearForecast(t, daysAhead, today, fit);
      r.Ok? ==> (|r.value| == daysAhead
        && (forall j :: 0 <= j < |r.value| ==> (r.value[j].date == FutureTradingDays(today, daysAhead)[j]
             && today < r.value[j].date && IsTradingDay(r.value[j].date)
             && r.value[j].value == fit(LinearRows(t).value)(r.value[j].date)))
        && (forall i, j :: 0 <= i < j < |r.value| ==> r.value[i].date < r.value[j].date))
  {
    FutureTradingDaysOrdered(today, daysAhead);
    if LinearRows(t).Ok? && daysAhead > 0 {
      var model := fit(LinearRows(t).value);
      var dates := FutureTradingDays(today, daysAhead);
      var values := seq(|dates|, j requires 0 <= j < |dates| => model(dates[j]));
      assert LinearForecast(t, daysAhead, today, fit) == Pair(dates, values);
    }
  }

  /** Without any label containing `Close`, `train_linear_model` raises its ValueError. */
  lemma LinearRejectsWithoutClose(t: Table, daysAhead: int, today: int, fit: seq<Row> -> (int -> real))
    requires Shaped(t) && t.labels.Flat? && "Date" in t.labels.names
    ensures LinearForecast(t, daysAhead, today, fit) == Err(NoCloseColumn) <==>
      forall j :: 0 <= j < |t.labels.names| ==> !Contains(t.labels.names[j], "Close")
  {
  }

  /**
   * `train_linear_model(df, days_ahead)` (predictor.py:25-59). It flattens
   * a two-level header of the caller's frame in place (line 28), then works
   * on its own copies; the future dates come from the inline loop at
   * lines 49-54, which yields exactly `get_future_trading_days(today, days_ahead)`.
   * The loop reads nothing the fit produces, so it runs here before the fit.
   * With no future date (`days_ahead <= 0`) the prediction at line 57 is
   * asked for an empty input, which the regressor refuses.
   */
  method TrainLinearModel(df: DataFrame, daysAhead: int, today: int, fit: seq<Row> -> (int -> real))
    returns (r: Result<seq<Prediction<real>>, PredictError>)
    requires df.Valid()
    modifies df
    ensures df.Valid() && df.Snapshot() == FlattenedTable(old(df.Snapshot()))
    ensures r == LinearForecast(FlattenedTable(old(df.Snapshot())), daysAhead, today, fit)
  {
    df.FlattenColumns();
    var futureDates := [];
    var current := today;
    while |futureDates| < daysAhead
      invariant futureDates + FutureTradingDays(current, daysAhead - |futureDates|)
        == FutureTradingDays(today, daysAhead)
      modifies {}
      decreases daysAhead - |futureDates|, NextTradingDay(current) - current
    {
      WalkStep(today, daysAhead, futureDates, current);
      current := current + 1;
      if Weekday(current) < 5 {
        futureDates := futureDates + [current];
      }
    }
    assert futureDates == FutureTradingDays(today, daysAhead);
    var flat := df.Snapshot();
    var rows := LinearRows(flat);
    if rows.Err? {
      return Err(rows.error);
    }
    var model := fit(rows.value);
    if |futureDates| == 0 {
      return Err(EmptyPrediction);
    }
    var preds := seq(|futureDates|, j requires 0 <= j < |futureDates| => model(futureDates[j]));
    r := Pair(futureDates, preds);
  }

  // ================================================================ the boosted strategies

  /** The labels `X = df.drop(columns=['Date', 'Close', 'Target'])` removes (lines 66, 84). */
  const Dropped: seq<string> := ["Date", "Close", "Target"]

  /** One row with every `Date`, `Close` and `Target` cell dropped, the rest in column order. */
  function FeatureVector(names: seq<string>, row: seq<Value>): (v: seq<Value>)
    requires |row| == |names|
    ensures |v| <= |row|
    ensures (forall j :: 0 <= j < |names| ==> names[j] !in Dropped) ==> v == row
    ensures (forall j :: 0 <= j < |names| ==> names[j] in Dropped) ==> v == []
  {
    if names == [] then []
    else (if names[0] in Dropped then [] else [row[0]]) + FeatureVector(names[1..], row[1..])
  }

  /**
   * Column by column: a column under a dropped label adds nothing to the
   * feature vector, any other column adds its cell at the end. With the
   * empty row this fixes which cells `drop` keeps and in what order.
   */
  lemma {:induction false} FeatureVectorAppend(names: seq<string>, row: seq<Value>, col: string, v: Value)
    requires |row| == |names|
    ensures FeatureVector(names + [col], row + [v]) == FeatureVector(names, row) + (if col in Dropped then [] else [v])
    ensures col in Dropped ==> FeatureVector(names + [col], row + [v]) == FeatureVector(names, row)
  {
    var tail := if col in Dropped then [] else [v];
    if names != [] {
      FeatureVectorAppend(names[1..], row[1..], col, v);
      assert (names + [col])[1..] == names[1..] + [col];
      assert (row + [v])[1..] == row[1..] + [v];
    }
    assert FeatureVector(names + [col], row + [v]) == FeatureVector(names, row) + tail;
    assert FeatureVector(names, row) + [] == FeatureVector(names, row);
  }

  /** Overwriting a cell under a dropped label does not change the feature vector. */
  lemma {:induction false} FeatureVectorUpdate(names: seq<string>, row: seq<Value>, j: nat, v: Value)
    requires |row| == |names| && j < |names| && names[j] in Dropped
    ensures FeatureVector(names, row[j := v]) == FeatureVector(names, row)
  {
    if j > 0 {
      FeatureVectorUpdate(names[1..], row[1..], j - 1, v);
      assert row[j := v][1..] == row[1..][j - 1 := v];
    }
  }

  /** The Close column of the engineered frame, as numbers. */
  function CloseColumn(e: Table): Option<seq<real>>
    requires Shaped(e) && e.labels.Flat?
  {
    match FirstIndexOf(e.labels.names, "Close")
    case None => None
    case Some(j) =>
      var cells := Column(e, j);
      if AllNumbers(cells) then Some(Reals(cells)) else None
  }

  /** `df['Close'].shift(-1)` (line 63): the next close, missing on the last row. */
  function NextClose(c: seq<real>): (r: seq<Value>)
    ensures |r| == |c|
  {
    seq(|c|, k requires 0 <= k < |c| => if k + 1 < |c| then Num(c[k + 1]) else Missing)
  }

  /**
   * `(df['Close'].shift(-1) > df['Close']).astype(int)` (line 81): the
   * comparison with the missing value after the last row is false.
   */
  function Rises(c: seq<real>): (r: seq<Value>)
    ensures |r| == |c|
  {
    seq(|c|, k requires 0 <= k < |c| => if k + 1 < |c| && c[k + 1] > c[k] then Num(1.0) else Num(0.0))
  }

  /** `df['Target'] = target` followed by `df.dropna(inplace=True)` (lines 63-64, 81-82). */
  function Labelled(e: Table, target: seq<Value>): (l: Table)
    requires Shaped(e) && e.labels.Flat? && |target| == |e.rows|
    ensures Shaped(l) && l.labels.Flat? && "Target" in l.labels.names
  {
    DropNA(Assign(e, "Target", target))
  }

  /** The feature matrix `X`, one vector per row. */
  function Samples(l: Table): (X: seq<seq<Value>>)
    requires Shaped(l) && l.labels.Flat?
    ensures |X| == |l.rows|
  {
    seq(|l.rows|, i requires 0 <= i < |l.rows| => FeatureVector(l.labels.names, l.rows[i]))
  }

  /** The target vector `y = df['Target']`. */
  function Targets(l: Table): (y: seq<Value>)
    requires Shaped(l) && l.labels.Flat? && "Target" in l.labels.names
    ensures |y| == |l.rows|
  {
    Column(l, FirstIndexOf(l.labels.names, "Target").value)
  }

  /** How many leading samples `train_test_split(..., shuffle=False)` keeps for training. */
  function TrainCount(n: nat, trainSize: nat -> nat): (k: nat)
    ensures k <= n
  {
    Min(trainSize(n), n)
  }

  /** The model fitted on the chronological training prefix. */
  function Model<V>(l: Table, trainSize: nat -> nat, fit: (seq<seq<Value>>, seq<Value>) -> (seq<Value> -> V))
    : seq<Value> -> V
    requires Shaped(l) && l.labels.Flat? && "Target" in l.labels.names
  {
    var k := TrainCount(|l.rows|, trainSize);
    fit(Samples(l)[..k], Targets(l)[..k])
  }

  /**
   * `s.tail(n)`: the last `n` items, all of them when there are fewer; a
   * negative `n` drops the first `-n` instead.
   */
  function Tail<T>(s: seq<T>, n: int): (r: seq<T>)
    ensures |r| == if n >= 0 then Min(n, |s|) else |s| - Min(-n, |s|)
    ensures r == s[|s| - |r|..]
  {
    if n >= 0 then s[|s| - Min(n, |s|)..] else s[Min(-n, |s|)..]
  }

  /**
   * Lines 63-73 and 81-92 between the engineered frame and the
   * predictions: label, drop incomplete rows, fit on the training prefix,
   * predict on the last `days` rows.
   */
  function Predict<V>(e: Table, target: seq<Value>, days: int, trainSize: nat -> nat,
                      fit: (seq<seq<Value>>, seq<Value>) -> (seq<Value> -> V)): (r: Result<seq<V>, PredictError>)
    requires Shaped(e) && e.labels.Flat? && |target| == |e.rows|
    ensures r.Ok? <==> "Date" in e.labels.names && TrainCount(|Labelled(e, target).rows|, trainSize) > 0
    ensures r.Ok? ==> |r.value| == |Tail(Labelled(e, target).rows, days)|
  {
    var l := Labelled(e, target);
    if "Date" !in l.labels.names then Err(NoDateColumn)
    else
      var X, y := Samples(l), Targets(l);
      var k := TrainCount(|X|, trainSize);
      if k == 0 then Err(EmptyTrainingSet)
      else
        var model := fit(X[..k], y[..k]);
        var recent := Tail(X, days);
        Ok(seq(|recent|, j requires 0 <= j < |recent| => model(recent[j])))
  }

  /** What `train_xgboost_model(df, days)` returns, `today` being the current date. */
  function RegressionForecast(t: Table, days: int, today: int, std: seq<real> -> real, trainSize: nat -> nat,
                              fit: (seq<seq<Value>>, seq<Value>) -> (seq<Value> -> real))
    : Result<seq<Prediction<real>>, PredictError>
    requires Shaped(t)
  {
    match Engineered(t, std)
    case Err(fe) => Err(Features(fe))
    case Ok(e) => RegressionFrom(e, days, today, trainSize, fit)
  }

  /** Lines 63-77, from the engineered frame `e` on. */
  function RegressionFrom(e: Table, days: int, today: int, trainSize: nat -> nat,
                          fit: (seq<seq<Value>>, seq<Value>) -> (seq<Value> -> real))
    : Result<seq<Prediction<real>>, PredictError>
    requires Shaped(e) && e.labels.Flat?
  {
    match CloseColumn(e)
    case None => Err(PredictError.NonNumericClose)
    case Some(c) =>
      match Predict(e, NextClose(c), days, trainSize, fit)
      case Err(err) => Err(err)
      case Ok(preds) => Pair(FutureTradingDays(today, days), preds)
  }

  /** Line 93: a predicted class of 1 reads `Up`, anything else `Down`. */
  function DirectionLabel(p: int): (s: string)
    ensures s == "Up" <==> p == 1
    ensures s == "Down" <==> p != 1
  {
    if p == 1 then "Up" else "Down"
  }

  /** What `predict_direction(df, days)` returns, `today` being the current date. */
  function DirectionForecast(t: Table, days: int, today: int, std: seq<real> -> real, trainSize: nat -> nat,
                             fit: (seq<seq<Value>>, seq<Value>) -> (seq<Value> -> int))
    : Result<seq<Prediction<string>>, PredictError>
    requires Shaped(t)
  {
    match Engineered(t, std)
    case Err(fe) => Err(Features(fe))
    case Ok(e) => DirectionFrom(e, days, today, trainSize, fit)
  }

  /** Lines 81-95, from the engineered frame `e` on. */
  function DirectionFrom(e: Table, days: int, today: int, trainSize: nat -> nat,
                         fit: (seq<seq<Value>>, seq<Value>) -> (seq<Value> -> int))
    : Result<seq<Prediction<string>>, PredictError>
    requires Shaped(e) && e.labels.Flat?
  {
    match CloseColumn(e)
    case None => Err(PredictError.NonNumericClose)
    case Some(c) =>
      match Predict(e, Rises(c), days, trainSize, fit)
      case Err(err) => Err(err)
      case Ok(preds) =>
        Pair(FutureTradingDays(today, days), seq(|preds|, j requires 0 <= j < |preds| => DirectionLabel(preds[j])))
  }

  /**
   * `train_xgboost_model(df, days)` (predictor.py:61-77). `engineer_features`
   * rewrites the caller's frame; everything after it works on the new frame.
   */
  method TrainXgboostModel(df: DataFrame, days: int, today: int, std: seq<real> -> real, trainSize: nat -> nat,
                           fit: (seq<seq<Value>>, seq<Value>) -> (seq<Value> -> real))
    returns (r: Result<seq<Prediction<real>>, PredictError>)
    requires df.Valid()
    modifies df
    ensures df.Valid() && df.Snapshot() == CallerAfter(old(df.Snapshot()), std)
    ensures r == RegressionForecast(old(df.Snapshot()), days, today, std, trainSize, fit)
  {
    var e := EngineerFeatures(df, std);
    if e.Err? {
      return Err(Features(e.error));
    }
    r := RegressionOf(e.value, days, today, trainSize, fit);
  }

  /** Lines 63-77, on the engineered frame. */
  method RegressionOf(e: Table, days: int, today: int, trainSize: nat -> nat,
                      fit: (seq<seq<Value>>, seq<Value>) -> (seq<Value> -> real))
    returns (r: Result<seq<Prediction<real>>, PredictError>)
    requires Shaped(e) && e.labels.Flat?
    ensures r == RegressionFrom(e, days, today, trainSize, fit)
  {
    var c := CloseColumn(e);
    if c.None? {
      return Err(PredictError.NonNumericClose);
    }
    var preds := Predict(e, NextClose(c.value), days, trainSize, fit);
    if preds.Err? {
      return Err(preds.error);
    }
    var futureDates := GetFutureTradingDays(today, days);
    r := Pair(futureDates, preds.value);
  }

  /** `predict_direction(df, days)` (predictor.py:79-95). */
  method PredictDirection(df: DataFrame, days: int, today: int, std: seq<real> -> real, trainSize: nat -> nat,
                          fit: (seq<seq<Value>>, seq<Value>) -> (seq<Value> -> int))
    returns (r: Result<seq<Prediction<string>>, PredictError>)
    requires df.Valid()
    modifies df
    ensures df.Valid() && df.Snapshot() == CallerAfter(old(df.Snapshot()), std)
    ensures r == DirectionForecast(old(df.Snapshot()), days, today, std, trainSize, fit)
  {
    var e := EngineerFeatures(df, std);
    if e.Err? {
      return Err(Features(e.error));
    }
    r := DirectionOf(e.value, days, today, trainSize, fit);
  }

  /** Lines 81-95, on the engineered frame. */
  method DirectionOf(e: Table, days: int, today: int, trainSize: nat -> nat,
                     fit: (seq<seq<Value>>, seq<Value>) -> (seq<Value> -> int))
    returns (r: Result<seq<Prediction<string>>, PredictError>)
    requires Shaped(e) && e.labels.Flat?
    ensures r == DirectionFrom(e, days, today, trainSize, fit)
  {
    var c := CloseColumn(e);
    if c.None? {
      return Err(PredictError.NonNumericClose);
    }
    var preds := Predict(e, Rises(c.value), days, trainSize, fit);
    if preds.Err? {
      return Err(preds.error);
    }
    var futureDates := GetFutureTradingDays(today, days);
    var labels := seq(|preds.value|, j requires 0 <= j < |preds.value| => DirectionLabel(preds.value[j]));
    r := Pair(futureDates, labels);
  }

  // ---------------------------------------------------------------- what the boosted strategies learn from

  /** The regression target is missing exactly on the last row. */
  lemma NextCloseMissing(c: seq<real>)
    ensures forall k :: 0 <= k < |c| ==> (NextClose(c)[k] == Missing <==> k == |c| - 1)
  {
  }

  /** Elsewhere it is the next close. */
  lemma NextCloseCells(c: seq<real>)
    ensures forall k :: 0 <= k < |c| - 1 ==> NextClose(c)[k] == Num(c[k + 1])
  {
  }

  /** The direction target is never missing. */
  lemma RisesPresent(c: seq<real>)
    ensures forall k :: 0 <= k < |c| ==> Rises(c)[k] != Missing
  {
  }

  /** It is 1 when the next close is higher, and 0 otherwise. */
  lemma RisesCells(c: seq<real>)
    ensures forall k :: 0 <= k < |c| ==>
      Rises(c)[k] == if k + 1 < |c| && c[k + 1] > c[k] then Num(1.0) else Num(0.0)
  {
  }

  /** Labelling keeps the row's feature vector: `Target` is one of the dropped labels. */
  lemma AssignTargetKeepsFeatures(e: Table, target: seq<Value>, i: nat)
    requires Shaped(e) && e.labels.Flat? && |target| == |e.rows| && i < |e.rows|
    ensures var a := Assign(e, "Target", target);
      FeatureVector(a.labels.names, a.rows[i]) == FeatureVector(e.labels.names, e.rows[i])
  {
    match FirstIndexOf(e.labels.names, "Target")
    case Some(j) =>
      FeatureVectorUpdate(e.labels.names, e.rows[i], j, target[i]);
    case None =>
      FeatureVectorAppend(e.labels.names, e.rows[i], "Target", target[i]);
  }

  /** Dropping rows keeps the labels, so a kept row reads as it did. */
  lemma KeptRowLookup(a: Table, l: Table, k: nat, i: nat, other: string)
    requires Shaped(a) && Shaped(l) && a.labels.Flat? && l.labels == a.labels
    requires k < |l.rows| && i < |a.rows| && l.rows[k] == a.rows[i]
    ensures CellAt(l, other, k) == CellAt(a, other, i)
  {
  }

  /** A target missing only on the last row: labelling keeps every other row, in order. */
  lemma LabelledDropsLast(e: Table, target: seq<Value>)
    requires Shaped(e) && e.labels.Flat? && |target| == |e.rows| > 0
    requires forall i :: 0 <= i < |e.rows| ==> Complete(e.rows[i])
    requires forall i :: 0 <= i < |target| ==> (target[i] == Missing <==> i == |target| - 1)
    ensures Labelled(e, target).rows == Assign(e, "Target", target).rows[..|e.rows| - 1]
  {
    var a := Assign(e, "Target", target);
    forall i | 0 <= i < |a.rows| ensures Complete(a.rows[i]) <==> i < |a.rows| - 1 {
      AssignComplete(e, "Target", target, i);
    }
    KeptButLast(a.rows);
    var l := Labelled(e, target);
    assert |l.rows| == |a.rows| - 1;
    forall k | 0 <= k < |l.rows| ensures l.rows[k] == a.rows[..|a.rows| - 1][k] {
    }
  }

  /** A target never missing: labelling keeps every row. */
  lemma LabelledKeepsAll(e: Table, target: seq<Value>)
    requires Shaped(e) && e.labels.Flat? && |target| == |e.rows|
    requires forall i :: 0 <= i < |e.rows| ==> Complete(e.rows[i])
    requires forall i :: 0 <= i < |target| ==> target[i] != Missing
    ensures Labelled(e, target).rows == Assign(e, "Target", target).rows
  {
    var a := Assign(e, "Target", target);
    forall i | 0 <= i < |a.rows| ensures Complete(a.rows[i]) {
      AssignComplete(e, "Target", target, i);
    }
    DropNAKeepsComplete(a);
  }

  /**
   * The regression target: labelling drops exactly the last engineered
   * row, and row `k` keeps its cells and gains the next close as `Target`.
   */
  lemma NextCloseTarget(e: Table, c: seq<real>)
    requires Shaped(e) && e.labels.Flat? && |c| == |e.rows| > 0
    requires forall i :: 0 <= i < |e.rows| ==> Complete(e.rows[i])
    ensures var l := Labelled(e, NextClose(c));
      |l.rows| == |e.rows| - 1
      && forall k, other :: 0 <= k < |l.rows| ==>
           CellAt(l, other, k) == if other == "Target" then Some(Num(c[k + 1])) else CellAt(e, other, k)
  {
    var target := NextClose(c);
    var a := Assign(e, "Target", target);
    var l := Labelled(e, target);
    NextCloseMissing(c);
    NextCloseCells(c);
    LabelledDropsLast(e, target);
    forall k, other | 0 <= k < |l.rows|
      ensures CellAt(l, other, k) == if other == "Target" then Some(Num(c[k + 1])) else CellAt(e, other, k)
    {
      assert l.rows[k] == a.rows[..|a.rows| - 1][k];
      KeptRowLookup(a, l, k, k, other);
      AssignLookup(e, "Target", target, k, other);
    }
  }

  /**
   * The direction target: no row is dropped, `Target` is 1 exactly when
   * the next close is higher and 0 otherwise, so the last row reads 0.
   */
  lemma RisesTarget(e: Table, c: seq<real>)
    requires Shaped(e) && e.labels.Flat? && |c| == |e.rows| > 0
    requires forall i :: 0 <= i < |e.rows| ==> Complete(e.rows[i])
    ensures var l := Labelled(e, Rises(c));
      |l.rows| == |e.rows|
      && (forall k, other :: 0 <= k < |l.rows| && other != "Target" ==> CellAt(l, other, k) == CellAt(e, other, k))
      && (forall k :: 0 <= k < |l.rows| ==>
            CellAt(l, "Target", k) == Some(if k + 1 < |c| && c[k + 1] > c[k] then Num(1.0) else Num(0.0)))
      && CellAt(l, "Target", |l.rows| - 1) == Some(Num(0.0))
  {
    var target := Rises(c);
    var a := Assign(e, "Target", target);
    var l := Labelled(e, target);
    RisesPresent(c);
    RisesCells(c);
    LabelledKeepsAll(e, target);
    forall k, other | 0 <= k < |l.rows|
      ensures CellAt(l, other, k) == if other == "Target" then Some(target[k]) else CellAt(e, other, k)
    {
      KeptRowLookup(a, l, k, k, other);
      AssignLookup(e, "Target", target, k, other);
    }
  }

  /**
   * When labelling keeps the first `m` engineered rows, the model predicts
   * from the feature vectors of rows `m - days` to `m - 1`.
   */
  lemma RecentFeatures<V>(e: Table, target: seq<Value>, m: nat, days: int, trainSize: nat -> nat,
                          fit: (seq<seq<Value>>, seq<Value>) -> (seq<Value> -> V))
    requires Shaped(e) && e.labels.Flat? && |target| == |e.rows| && m <= |e.rows|
    requires Labelled(e, target).rows == Assign(e, "Target", target).rows[..m]
    requires "Date" in e.labels.names && TrainCount(m, trainSize) > 0 && 0 <= days <= m
    ensures var r := Predict(e, target, days, trainSize, fit);
      r.Ok? && |r.value| == days
      && forall j :: 0 <= j < days ==>
           r.value[j] == Model(Labelled(e, target), trainSize, fit)(FeatureVector(e.labels.names, e.rows[m - days + j]))
  {
    var l := Labelled(e, target);
    var X := Samples(l);
    var recent := Tail(X, days);
    assert |recent| == days;
    forall j | 0 <= j < days
      ensures recent[j] == FeatureVector(e.labels.names, e.rows[m - days + j])
    {
      assert recent[j] == X[m - days + j];
      assert l.rows[m - days + j] == Assign(e, "Target", target).rows[..m][m - days + j];
      AssignTargetKeepsFeatures(e, target, m - days + j);
    }
  }

  /** A target missing only on the last row: the model predicts from the rows before it. */
  lemma LastMissingRecent<V>(e: Table, target: seq<Value>, days: int, trainSize: nat -> nat,
                             fit: (seq<seq<Value>>, seq<Value>) -> (seq<Value> -> V))
    requires Shaped(e) && e.labels.Flat? && |target| == |e.rows| > 0
    requires forall i :: 0 <= i < |e.rows| ==> Complete(e.rows[i])
    requires forall i :: 0 <= i < |target| ==> (target[i] == Missing <==> i == |target| - 1)
    requires "Date" in e.labels.names && TrainCount(|e.rows| - 1, trainSize) > 0
    requires 0 <= days <= |e.rows| - 1
    ensures var r := Predict(e, target, days, trainSize, fit);
      r.Ok? && |r.value| == days
      && forall j :: 0 <= j < days ==>
           r.value[j] == Model(Labelled(e, target), trainSize, fit)
                           (FeatureVector(e.labels.names, e.rows[|e.rows| - 1 - days + j]))
  {
    LabelledDropsLast(e, target);
    var m := |e.rows| - 1;
    RecentFeatures(e, target, m, days, trainSize, fit);
    var r := Predict(e, target, days, trainSize, fit);
    var model := Model(Labelled(e, target), trainSize, fit);
    forall j | 0 <= j < days
      ensures r.value[j] == model(FeatureVector(e.labels.names, e.rows[|e.rows| - 1 - days + j]))
    {
      assert r.value[j] == model(FeatureVector(e.labels.names, e.rows[m - days + j]));
    }
  }

  /** A target never missing: the model predicts from the last rows. */
  lemma PresentTargetRecent<V>(e: Table, target: seq<Value>, days: int, trainSize: nat -> nat,
                               fit: (seq<seq<Value>>, seq<Value>) -> (seq<Value> -> V))
    requires Shaped(e) && e.labels.Flat? && |target| == |e.rows|
    requires forall i :: 0 <= i < |e.rows| ==> Complete(e.rows[i])
    requires forall i :: 0 <= i < |target| ==> target[i] != Missing
    requires "Date" in e.labels.names && TrainCount(|e.rows|, trainSize) > 0
    requires 0 <= days <= |e.rows|
    ensures var r := Predict(e, target, days, trainSize, fit);
      r.Ok? && |r.value| == days
      && forall j :: 0 <= j < days ==>
           r.value[j] == Model(Labelled(e, target), trainSize, fit)
                           (FeatureVector(e.labels.names, e.rows[|e.rows| - days + j]))
  {
    LabelledKeepsAll(e, target);
    var m := |e.rows|;
    RecentFeatures(e, target, m, days, trainSize, fit);
    var r := Predict(e, target, days, trainSize, fit);
    var model := Model(Labelled(e, target), trainSize, fit);
    forall j | 0 <= j < days
      ensures r.value[j] == model(FeatureVector(e.labels.names, e.rows[|e.rows| - days + j]))
    {
      assert r.value[j] == model(FeatureVector(e.labels.names, e.rows[m - days + j]));
    }
  }

  /**
   * The regressor predicts from the `days` rows before the last engineered
   * row: that row has no next close, so labelling drops it and it never
   * reaches the model.
   */
  lemma RegressionRecentRows<V>(e: Table, c: seq<real>, days: int, trainSize: nat -> nat,
                                fit: (seq<seq<Value>>, seq<Value>) -> (seq<Value> -> V))
    requires Shaped(e) && e.labels.Flat? && |c| == |e.rows| > 0
    requires forall i :: 0 <= i < |e.rows| ==> Complete(e.rows[i])
    requires "Date" in e.labels.names && TrainCount(|e.rows| - 1, trainSize) > 0
    requires 0 <= days <= |e.rows| - 1
    ensures var r := Predict(e, NextClose(c), days, trainSize, fit);
      r.Ok? && |r.value| == days
      && forall j :: 0 <= j < days ==>
           r.value[j] == Model(Labelled(e, NextClose(c)), trainSize, fit)
                           (FeatureVector(e.labels.names, e.rows[|e.rows| - 1 - days + j]))
  {
    NextCloseMissing(c);
    LastMissingRecent(e, NextClose(c), days, trainSize, fit);
  }

  /**
   * The classifier predicts from the last `days` engineered rows,
   * including the last one, which is labelled 0 for training.
   */
  lemma DirectionRecentRows<V>(e: Table, c: seq<real>, days: int, trainSize: nat -> nat,
                               fit: (seq<seq<Value>>, seq<Value>) -> (seq<Value> -> V))
    requires Shaped(e) && e.labels.Flat? && |c| == |e.rows| > 0
    requires forall i :: 0 <= i < |e.rows| ==> Complete(e.rows[i])
    requires "Date" in e.labels.names && TrainCount(|e.rows|, trainSize) > 0
    requires 0 <= days <= |e.rows|
    ensures var r := Predict(e, Rises(c), days, trainSize, fit);
      r.Ok? && |r.value| == days
      && forall j :: 0 <= j < days ==>
           r.value[j] == Model(Labelled(e, Rises(c)), trainSize, fit)
                           (FeatureVector(e.labels.names, e.rows[|e.rows| - days + j]))
  {
    RisesPresent(c);
    PresentTargetRecent(e, Rises(c), days, trainSize, fit);
  }

  /** The regressor makes one prediction per requested day, up to one fewer than the engineered rows. */
  lemma RegressionPredictCount<V>(e: Table, c: seq<real>, days: int, trainSize: nat -> nat,
                                  fit: (seq<seq<Value>>, seq<Value>) -> (seq<Value> -> V))
    requires Shaped(e) && e.labels.Flat? && |c| == |e.rows| > 0
    requires forall i :: 0 <= i < |e.rows| ==> Complete(e.rows[i])
    requires "Date" in e.labels.names && TrainCount(|e.rows| - 1, trainSize) > 0 && days >= 0
    ensures Predict(e, NextClose(c), days, trainSize, fit).Ok?
    ensures |Predict(e, NextClose(c), days, trainSize, fit).value| == Min(days, |e.rows| - 1)
  {
    NextCloseMissing(c);
    LabelledDropsLast(e, NextClose(c));
  }

  /** The classifier makes one prediction per requested day, up to the number of engineered rows. */
  lemma DirectionPredictCount<V>(e: Table, c: seq<real>, days: int, trainSize: nat -> nat,
                                 fit: (seq<seq<Value>>, seq<Value>) -> (seq<Value> -> V))
    requires Shaped(e) && e.labels.Flat? && |c| == |e.rows| > 0
    requires forall i :: 0 <= i < |e.rows| ==> Complete(e.rows[i])
    requires "Date" in e.labels.names && TrainCount(|e.rows|, trainSize) > 0 && days >= 0
    ensures Predict(e, Rises(c), days, trainSize, fit).Ok?
    ensures |Predict(e, Rises(c), days, trainSize, fit).value| == Min(days, |e.rows|)
  {
    RisesPresent(c);
    LabelledKeepsAll(e, Rises(c));
  }

  /**
   * One prediction per future trading day: from an engineered frame with
   * a Date column, the regression forecast succeeds for `days >= 0` exactly
   * when the labelled frame has at least `days` rows, one fewer than the
   * engineered frame.
   */
  lemma RegressionForecastNeedsRows(e: Table, days: int, today: int, trainSize: nat -> nat,
                                    fit: (seq<seq<Value>>, seq<Value>) -> (seq<Value> -> real))
    requires Shaped(e) && e.labels.Flat? && forall i :: 0 <= i < |e.rows| ==> Complete(e.rows[i])
    requires CloseColumn(e).Some? && |e.rows| > 0 && "Date" in e.labels.names
    requires TrainCount(|e.rows| - 1, trainSize) > 0 && days >= 0
    ensures var r := RegressionFrom(e, days, today, trainSize, fit);
      (r.Ok? <==> days <= |e.rows| - 1)
      && (r.Ok? ==> forall j :: 0 <= j < |r.value| ==> r.value[j].date == FutureTradingDays(today, days)[j])
  {
    RegressionPredictCount(e, CloseColumn(e).value, days, trainSize, fit);
  }

  /**
   * The direction forecast succeeds for `days >= 0` exactly when the
   * engineered frame has at least `days` rows; each label is `Up` exactly
   * when the classifier answers 1.
   */
  lemma DirectionForecastNeedsRows(e: Table, days: int, today: int, trainSize: nat -> nat,
                                   fit: (seq<seq<Value>>, seq<Value>) -> (seq<Value> -> int))
    requires Shaped(e) && e.labels.Flat? && forall i :: 0 <= i < |e.rows| ==> Complete(e.rows[i])
    requires CloseColumn(e).Some? && |e.rows| > 0 && "Date" in e.labels.names
    requires TrainCount(|e.rows|, trainSize) > 0 && days >= 0
    ensures var r := DirectionFrom(e, days, today, trainSize, fit);
      (r.Ok? <==> days <= |e.rows|)
      && (r.Ok? ==> forall j :: 0 <= j < |r.value| ==>
            r.value[j].date == FutureTradingDays(today, days)[j]
            && (r.value[j].value == "Up" <==>
                Predict(e, Rises(CloseColumn(e).value), days, trainSize, fit).value[j] == 1))
  {
    DirectionPredictCount(e, CloseColumn(e).value, days, trainSize, fit);
  }
}

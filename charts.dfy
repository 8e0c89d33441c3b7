/**
 * `plot_single_stock_performance` of charts.py: resolve the Date and
 * Close columns of a price table and rebase the closes to 100. The figure
 * itself is plotly's; here the result is the pair of series it is drawn from.
 */
module Charts {
  import opened Wrappers
  import opened Text
  import opened Frames
  import opened Features

  datatype ChartError =
    | ResetRefused(col: string)  // reset_index(): the column label is taken
    | CloseNotFound              // the KeyError of charts.py:75
    | EmptyFrame                 // `.iloc[0]` of an empty column
    | NotNumeric                 // dividing date cells
    | NoDateToPlot               // `x='Date'` names no column

  /** The two series handed to `px.line`: x is `Date`, y is `Normalized`. */
  datatype Plot = Plot(dates: seq<Value>, normalized: seq<Value>)

  /** Floating-point division of two cells; dates cannot be divided. */
  function Quotient(a: Value, b: Value): Option<Value>
  {
    match (a, b)
    case (Day(_), _) => None
    case (_, Day(_)) => None
    case (Missing, _) => Some(Missing)
    case (_, Missing) => Some(Missing)
    case (Infinite(_), Infinite(_)) => Some(Missing)
    case (Num(_), Infinite(_)) => Some(Num(0.0))
    case (Infinite(n), Num(y)) => Some(Infinite(if y < 0.0 then !n else n))
    case (Num(x), Num(y)) =>
      if y != 0.0 then Some(Num(x / y))
      else if x == 0.0 then Some(Missing)
      else Some(Infinite(x < 0.0))
  }

  /** Floating-point multiplication by 100. */
  function Scale100(v: Value): Value
  {
    match v
    case Num(x) => Num(x * 100.0)
    case _ => v
  }

  predicate Divisible(cells: seq<Value>)
    requires |cells| > 0
  {
    forall i :: 0 <= i < |cells| ==> Quotient(cells[i], cells[0]).Some?
  }

  /** `col / col.iloc[0] * 100` (line 77). */
  function Normalized(cells: seq<Value>): (r: Result<seq<Value>, ChartError>)
    ensures r == Err(EmptyFrame) <==> cells == []
    ensures r.Ok? ==> |r.value| == |cells|
  {
    if cells == [] then Err(EmptyFrame)
    else if !Divisible(cells) then Err(NotNumeric)
    else Ok(seq(|cells|, i requires 0 <= i < |cells| => Scale100(Quotient(cells[i], cells[0]).value)))
  }

  /**
   * With numeric closes and a non-zero first close, row `i` is
   * `close[i] / close[0] * 100`, and the first row reads exactly 100.
   */
  lemma NormalizedBase100(cells: seq<Value>)
    requires |cells| > 0 && forall i :: 0 <= i < |cells| ==> cells[i].Num?
    requires cells[0].x != 0.0
    ensures Normalized(cells).Ok?
    ensures forall i :: 0 <= i < |cells| ==>
      Normalized(cells).value[i] == Num(cells[i].x / cells[0].x * 100.0)
    ensures Normalized(cells).value[0] == Num(100.0)
  {
    assert Divisible(cells);
  }

  /**
   * A first close of zero gives no finite value: zero closes become NaN,
   * the others infinities of their sign.
   */
  lemma NormalizedZeroBase(cells: seq<Value>)
    requires |cells| > 0 && forall i :: 0 <= i < |cells| ==> cells[i].Num?
    requires cells[0] == Num(0.0)
    ensures Normalized(cells).Ok?
    ensures forall i :: 0 <= i < |cells| ==>
      Normalized(cells).value[i] ==
        if cells[i].x == 0.0 then Missing else Infinite(cells[i].x < 0.0)
  {
    assert Divisible(cells);
  }

  /**
   * Lines 68-72: the first label whose lower-case form contains `close`,
   * searched in column order.
   */
  method FindCloseColumn(names: seq<string>) returns (r: Option<nat>)
    ensures r == FirstLabelContaining(LowerAll(names), "close")
  {
    r := None;
    for j := 0 to |names|
      invariant forall k :: 0 <= k < j ==> !Contains(Lower(names[k]), "close")
    {
      if Contains(Lower(names[j]), "close") {
        r := Some(j);
        break;
      }
    }
  }

  /** Lines 64-79 on the flattened copy of the caller's frame. */
  function Performance(t: Table): Result<Plot, ChartError>
    requires Shaped(t) && t.labels.Flat?
  {
    var reset := if "Date" in t.labels.names then Ok(t) else ResetIndex(t);
    match reset
    case Err(col) => Err(ResetRefused(col))
    case Ok(u) =>
      match FirstLabelContaining(LowerAll(u.labels.names), "close")
      case None => Err(CloseNotFound)
      case Some(cj) =>
        match Normalized(Column(u, cj))
        case Err(e) => Err(e)
        case Ok(norm) =>
          match FirstIndexOf(u.labels.names, "Date")
          case None => Err(NoDateToPlot)
          case Some(dj) => Ok(Plot(Column(u, dj), norm))
  }

  /**
   * A frame with a Date column is plotted from its own Date column and
   * the first column whose label contains `close` in any case; without
   * such a column the call raises its KeyError.
   */
  lemma PerformanceColumns(t: Table)
    requires Shaped(t) && t.labels.Flat? && "Date" in t.labels.names
    ensures Performance(t) == Err(CloseNotFound) <==>
      forall j :: 0 <= j < |t.labels.names| ==> !Contains(Lower(t.labels.names[j]), "close")
    ensures FirstLabelContaining(LowerAll(t.labels.names), "close").Some? ==>
      var cj := FirstLabelContaining(LowerAll(t.labels.names), "close").value;
      (Performance(t).Ok? <==> Normalized(Column(t, cj)).Ok?)
      && (Normalized(Column(t, cj)).Err? ==> Performance(t) == Err(Normalized(Column(t, cj)).error))
    ensures Performance(t).Ok? ==>
      var cj := FirstLabelContaining(LowerAll(t.labels.names), "close").value;
      Performance(t).value.dates == Column(t, FirstIndexOf(t.labels.names, "Date").value)
      && Performance(t).value.normalized == Normalized(Column(t, cj)).value
  {
    var names := LowerAll(t.labels.names);
    if forall j :: 0 <= j < |t.labels.names| ==> !Contains(Lower(t.labels.names[j]), "close") {
      assert forall j :: 0 <= j < |names| ==> !Contains(names[j], "close");
    } else {
      var j :| 0 <= j < |t.labels.names| && Contains(Lower(t.labels.names[j]), "close");
      assert Contains(names[j], "close");
    }
  }

  /**
   * Lines 64-65: a frame without a Date column gets one only from its
   * index. `reset_index()` fails exactly when its label is taken; a plot
   * then needs the index to be named `Date`, and its dates are the index keys.
   */
  lemma PerformanceResetsIndex(t: Table)
    requires Shaped(t) && t.labels.Flat? && "Date" !in t.labels.names
    ensures Performance(t) == Err(ResetRefused(ResetLabel(t.labels.names, t.index))) <==> ResetIndex(t).Err?
    ensures Performance(t).Ok? ==> t.index.Keyed? && t.index.name == Some("Date")
    ensures Performance(t).Ok? ==> Performance(t).value.dates == seq(|t.rows|, i requires 0 <= i < |t.rows| => IndexKey(t, i))
    ensures t.index.Keyed? && t.index.name == Some("Date") ==> Performance(t) != Err(NoDateToPlot)
  {
    var r := ResetIndex(t);
    if r.Ok? {
      var u := r.value;
      var col := ResetLabel(t.labels.names, t.index);
      assert u.labels.names[0] == col;
      if col == "Date" {
        assert FirstIndexOf(u.labels.names, "Date") == Some(0);
      } else {
        assert forall j :: 0 < j < |u.labels.names| ==> u.labels.names[j] == t.labels.names[j - 1];
        assert "Date" !in u.labels.names;
      }
    }
  }

  /**
   * `plot_single_stock_performance(df)` as written (charts.py:53-82): the
   * flattening at line 59 renames the caller's columns before the copy at
   * line 61, so the caller's frame keeps the joined labels afterwards.
   */
  method PlotSingleStockPerformance(df: DataFrame) returns (r: Result<Plot, ChartError>)
    requires df.Valid()
    modifies df
    ensures df.Valid() && df.Snapshot() == FlattenedTable(old(df.Snapshot()))
    ensures r == Performance(FlattenedTable(old(df.Snapshot())))
  {
    df.FlattenColumns();
    r := PerformanceOfCopy(df.Snapshot());
  }

  /** `plot_single_stock_performance` with the copy taken first: the caller's frame is left alone. */
  method PlotSingleStockPerformanceOnCopy(df: DataFrame) returns (r: Result<Plot, ChartError>)
    requires df.Valid()
    ensures df.Snapshot() == old(df.Snapshot())
    ensures r == Performance(FlattenedTable(df.Snapshot()))
  {
    r := PerformanceOfCopy(FlattenedTable(df.Snapshot()));
  }

  /** Lines 61-79: everything after the flattening works on a private copy. */
  method PerformanceOfCopy(t: Table) returns (r: Result<Plot, ChartError>)
    requires Shaped(t) && t.labels.Flat?
    ensures r == Performance(t)
  {
    var u := t;
    if "Date" !in u.labels.names {
      var reset := ResetIndex(u);
      if reset.Err? {
        return Err(ResetRefused(reset.error));
      }
      u := reset.value;
    }
    var closeCol := FindCloseColumn(u.labels.names);
    if closeCol.None? {
      return Err(CloseNotFound);
    }
    var norm := Normalized(Column(u, closeCol.value));
    if norm.Err? {
      return Err(norm.error);
    }
    var dateCol := FirstIndexOf(u.labels.names, "Date");
    if dateCol.None? {
      return Err(NoDateToPlot);
    }
    r := Ok(Plot(Column(u, dateCol.value), norm.value));
  }

  /**
   * A price table as yfinance returns it for one ticker has the two-level
   * header (`Date`, ``), (`Close`, `AAPL`). `engineer_features` accepts
   * it, but not once the chart has flattened it in place to `Date`,
   * `Close AAPL`.
   */
  lemma FlatteningHidesClose(t: Table, std: seq<real> -> real)
    requires Shaped(t) && t.labels == TwoLevel([("Date", ""), ("Close", "AAPL")])
    requires forall i :: 0 <= i < |t.rows| ==> t.rows[i][1].Num?
    ensures Engineered(t, std).Ok?
    ensures FlattenedTable(t).labels == Flat(["Date", "Close AAPL"])
    ensures Engineered(FlattenedTable(t), std) == Err(MissingClose)
  {
    YfinanceHeaderAccepted(t, std);
    YfinanceLabelsJoined();
    FlatHeaderRefused(FlattenedTable(t), std);
  }

  /** The two-level header drops to `Date`, `Close`, and the close column holds numbers. */
  lemma YfinanceHeaderAccepted(t: Table, std: seq<real> -> real)
    requires Shaped(t) && t.labels == TwoLevel([("Date", ""), ("Close", "AAPL")])
    requires forall i :: 0 <= i < |t.rows| ==> t.rows[i][1].Num?
    ensures Engineered(t, std).Ok?
  {
    assert DropLevel1([("Date", ""), ("Close", "AAPL")]) == ["Date", "Close"];
    assert CloseIndex(t) == Some(1);
    assert AllNumbers(Column(Relabelled(t), 1));
  }

  /** A flat header without a bare `Close` label is refused. */
  lemma FlatHeaderRefused(f: Table, std: seq<real> -> real)
    requires Shaped(f) && f.labels == Flat(["Date", "Close AAPL"])
    ensures Engineered(f, std) == Err(MissingClose)
  {
    assert CloseIndex(f) == None;
  }

  /** `' '.join(col).strip()` on the yfinance header: the empty ticker leaves `Date` bare. */
  lemma YfinanceLabelsJoined()
    ensures JoinedNames([("Date", ""), ("Close", "AAPL")]) == ["Date", "Close AAPL"]
  {
    var r := JoinedNames([("Date", ""), ("Close", "AAPL")]);
    DateJoined();
    CloseJoined();
    assert r[0] == "Date" && r[1] == "Close AAPL";
  }

  lemma DateJoined()
    ensures Strip(JoinPair("Date", "")) == "Date"
  {
    assert JoinPair("Date", "") == "Date" + " ";
    assert "Date"[0] == 'D' && "Date"[3] == 'e';
    StripTrailingBlank("Date");
  }

  lemma CloseJoined()
    ensures Strip(JoinPair("Close", "AAPL")) == "Close AAPL"
  {
    assert JoinPair("Close", "AAPL") == "Close AAPL";
    assert "Close AAPL"[0] == 'C' && "Close AAPL"[9] == 'L';
    StripKeeps("Close AAPL");
  }


}

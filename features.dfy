/**
 * `engineer_features` as Python binds it (the second definition,
 * predictor.py:97-116): normalise the column labels, require a `Close`
 * column, add five trailing-window features to the caller's frame, and
 * return the rows that have no missing cell.
 */
module Features {
  import opened Wrappers
  import opened Frames

  datatype FeatureError =
    | MissingClose      // ValueError at predictor.py:107
    | NonNumericClose   // a Close cell that is not a number (see README, "Left out")

  // ---------------------------------------------------------------- labels (lines 99-103)

  /** `df.columns.droplevel(1)`: the first level of each pair. */
  function DropLevel1(pairs: seq<(string, string)>): seq<string>
  {
    seq(|pairs|, i requires 0 <= i < |pairs| => pairs[i].0)
  }

  /** `[col[0] for col in df.columns]`. */
  function FirstComponents(pairs: seq<(string, string)>): seq<string>
  {
    if pairs == [] then [] else [pairs[0].0] + FirstComponents(pairs[1..])
  }

  /** The two branches at lines 101 and 103 yield the same flat labels. */
  lemma {:induction false} BranchesAgree(pairs: seq<(string, string)>)
    ensures DropLevel1(pairs) == FirstComponents(pairs)
  {
    if pairs != [] {
      BranchesAgree(pairs[1..]);
      assert DropLevel1(pairs) == [pairs[0].0] + DropLevel1(pairs[1..]);
    }
  }

  /** The labels after lines 99-103. */
  function FeatureLabels(l: Labels): (r: Labels)
    ensures r.Flat? && Width(r) == Width(l)
  {
    match l
    case Flat(_) => l
    case TwoLevel(ps) =>
      BranchesAgree(ps);
      if "Close" in DropLevel1(ps) then Flat(DropLevel1(ps)) else Flat(FirstComponents(ps))
  }

  // ---------------------------------------------------------------- window features (lines 109-113)

  function Sum(s: seq<real>): real
  {
    if s == [] then 0.0 else Sum(s[..|s| - 1]) + s[|s| - 1]
  }

  /** `a / b - 1` in floating point: a zero divisor gives an infinity, or NaN for 0/0. */
  function Change(a: real, b: real): Value
  {
    if b != 0.0 then Num(a / b - 1.0)
    else if a == 0.0 then Missing
    else Infinite(a < 0.0)
  }

  /** `pct_change(k)` at row `i`: reads rows `i - k` and `i`. */
  function PctChange(c: seq<real>, i: nat, k: nat): Value
    requires i < |c| && k > 0
  {
    if i < k then Missing else Change(c[i], c[i - k])
  }

  /** The `w` values of the trailing window that ends at row `i`. */
  function Window(c: seq<real>, i: nat, w: nat): seq<real>
    requires i < |c| && w <= i + 1
  {
    c[i + 1 - w..i + 1]
  }

  /** `rolling(w).mean()` at row `i`: missing until a full window exists. */
  function RollingMean(c: seq<real>, i: nat, w: nat): Value
    requires i < |c| && w > 0
  {
    if i + 1 < w then Missing else Num(Sum(Window(c, i, w)) / w as real)
  }

  /** `rolling(w).std()` at row `i`; the deviation itself is the library's `std`. */
  function RollingStd(c: seq<real>, i: nat, w: nat, std: seq<real> -> real): Value
    requires i < |c| && w > 0
  {
    if i + 1 < w then Missing else Num(std(Window(c, i, w)))
  }

  /** The labels of the five feature columns, in the order they are assigned. */
  const FeatureNames: seq<string> := ["Return_1D", "Return_5D", "SMA_5", "SMA_10", "Volatility"]

  /** Column `f` of the five features over the close prices `c`. */
  function FeatureColumn(c: seq<real>, f: nat, std: seq<real> -> real): (r: seq<Value>)
    requires f < 5
    ensures |r| == |c|
  {
    seq(|c|, i requires 0 <= i < |c| =>
      match f
      case 0 => PctChange(c, i, 1)
      case 1 => PctChange(c, i, 5)
      case 2 => RollingMean(c, i, 5)
      case 3 => RollingMean(c, i, 10)
      case _ => RollingStd(c, i, 5, std))
  }

  // ---------------------------------------------------------------- the frame

  /** The position of the `Close` column after relabelling, if any. */
  function CloseIndex(t: Table): Option<nat>
  {
    FirstIndexOf(FeatureLabels(t.labels).names, "Close")
  }

  predicate AllNumbers(cells: seq<Value>)
  {
    forall i :: 0 <= i < |cells| ==> cells[i].Num?
  }

  function Reals(cells: seq<Value>): (r: seq<real>)
    requires AllNumbers(cells)
    ensures |r| == |cells| && forall i :: 0 <= i < |cells| ==> cells[i] == Num(r[i])
  {
    seq(|cells|, i requires 0 <= i < |cells| => cells[i].x)
  }

  /** `t` with its labels as lines 99-103 leave them. */
  function Relabelled(t: Table): (r: Table)
    ensures Shaped(t) ==> Shaped(r)
  {
    t.(labels := FeatureLabels(t.labels))
  }

  /** The close prices of a relabelled table, when its Close column holds numbers only. */
  function Closes(t: Table): Option<seq<real>>
    requires Shaped(t)
  {
    var u := Relabelled(t);
    match CloseIndex(t)
    case None => None
    case Some(j) =>
      var cells := Column(u, j);
      if AllNumbers(cells) then Some(Reals(cells)) else None
  }

  /** The frame after all five assignments of lines 109-113. */
  function WithFeatures(u: Table, c: seq<real>, std: seq<real> -> real): (r: Table)
    requires Shaped(u) && u.labels.Flat? && |c| == |u.rows|
    ensures Shaped(r) && r.labels.Flat? && |r.rows| == |u.rows|
  {
    var u1 := Assign(u, FeatureNames[0], FeatureColumn(c, 0, std));
    var u2 := Assign(u1, FeatureNames[1], FeatureColumn(c, 1, std));
    var u3 := Assign(u2, FeatureNames[2], FeatureColumn(c, 2, std));
    var u4 := Assign(u3, FeatureNames[3], FeatureColumn(c, 3, std));
    Assign(u4, FeatureNames[4], FeatureColumn(c, 4, std))
  }

  /**
   * What the caller's frame holds once `engineer_features` has run (or has
   * raised): relabelled, and extended by the features when it got that far.
   */
  function CallerAfter(t: Table, std: seq<real> -> real): (r: Table)
    requires Shaped(t)
    ensures Shaped(r) && r.labels.Flat?
  {
    match Closes(t)
    case None => Relabelled(t)
    case Some(c) => WithFeatures(Relabelled(t), c, std)
  }

  /** The value `engineer_features` returns, or the error it raises. */
  function Engineered(t: Table, std: seq<real> -> real): (r: Result<Table, FeatureError>)
    requires Shaped(t)
    ensures r.Ok? ==> Shaped(r.value) && r.value.labels.Flat?
  {
    match Closes(t)
    case None => if CloseIndex(t).None? then Err(MissingClose) else Err(NonNumericClose)
    case Some(c) => Ok(DropNA(WithFeatures(Relabelled(t), c, std)))
  }

  /** Lines 99-103: a two-level header of the caller's frame is flattened in place. */
  method RelabelColumns(df: DataFrame)
    requires df.Valid()
    modifies df
    ensures df.Valid() && df.Snapshot() == Relabelled(old(df.Snapshot()))
  {
    if df.labels.TwoLevel? {
      var ps := df.labels.pairs;
      if "Close" in DropLevel1(ps) {
        df.Relabel(Flat(DropLevel1(ps)));
      } else {
        BranchesAgree(ps);
        df.Relabel(Flat(FirstComponents(ps)));
      }
    }
  }

  /**
   * `engineer_features(df)`, second definition (predictor.py:97-116). It
   * relabels the caller's frame and assigns the five feature columns onto
   * it; only the final `dropna()` makes a new frame.
   */
  method EngineerFeatures(df: DataFrame, std: seq<real> -> real) returns (r: Result<Table, FeatureError>)
    requires df.Valid()
    modifies df
    ensures df.Valid()
    ensures df.Snapshot() == CallerAfter(old(df.Snapshot()), std)
    ensures r == Engineered(old(df.Snapshot()), std)
  {
    ghost var t := df.Snapshot();
    RelabelColumns(df);
    var j := FirstIndexOf(df.labels.names, "Close");
    if j.None? {
      return Err(MissingClose);
    }
    var cells := Column(df.Snapshot(), j.value);
    if !AllNumbers(cells) {
      return Err(NonNumericClose);
    }
    var c := Reals(cells);
    df.SetColumn("Return_1D", FeatureColumn(c, 0, std));
    df.SetColumn("Return_5D", FeatureColumn(c, 1, std));
    df.SetColumn("SMA_5", FeatureColumn(c, 2, std));
    df.SetColumn("SMA_10", FeatureColumn(c, 3, std));
    df.SetColumn("Volatility", FeatureColumn(c, 4, std));
    r := Ok(DropNA(df.Snapshot()));
  }

  // ---------------------------------------------------------------- properties

  /** `engineer_features` raises its ValueError exactly when the relabelled frame has no `Close`. */
  lemma RejectsIffNoClose(t: Table, std: seq<real> -> real)
    requires Shaped(t)
    ensures Engineered(t, std) == Err(MissingClose) <==> "Close" !in FeatureLabels(t.labels).names
  {
  }

  /** How `df[other]` reads at row `i` once the five feature columns are assigned. */
  lemma WithFeaturesLookup(u: Table, c: seq<real>, std: seq<real> -> real, i: nat, other: string)
    requires Shaped(u) && u.labels.Flat? && |c| == |u.rows| && i < |c|
    ensures CellAt(WithFeatures(u, c, std), other, i) ==
      if other == "Volatility" then Some(FeatureColumn(c, 4, std)[i])
      else if other == "SMA_10" then Some(FeatureColumn(c, 3, std)[i])
      else if other == "SMA_5" then Some(FeatureColumn(c, 2, std)[i])
      else if other == "Return_5D" then Some(FeatureColumn(c, 1, std)[i])
      else if other == "Return_1D" then Some(FeatureColumn(c, 0, std)[i])
      else CellAt(u, other, i)
  {
    var u1 := Assign(u, FeatureNames[0], FeatureColumn(c, 0, std));
    var u2 := Assign(u1, FeatureNames[1], FeatureColumn(c, 1, std));
    var u3 := Assign(u2, FeatureNames[2], FeatureColumn(c, 2, std));
    var u4 := Assign(u3, FeatureNames[3], FeatureColumn(c, 3, std));
    AssignLookup(u, FeatureNames[0], FeatureColumn(c, 0, std), i, other);
    AssignLookup(u1, FeatureNames[1], FeatureColumn(c, 1, std), i, other);
    AssignLookup(u2, FeatureNames[2], FeatureColumn(c, 2, std), i, other);
    AssignLookup(u3, FeatureNames[3], FeatureColumn(c, 3, std), i, other);
    AssignLookup(u4, FeatureNames[4], FeatureColumn(c, 4, std), i, other);
  }

  /** Each feature column holds, row by row, the window value that defines it. */
  lemma FeatureCellsAt(u: Table, c: seq<real>, std: seq<real> -> real, i: nat)
    requires Shaped(u) && u.labels.Flat? && |c| == |u.rows| && i < |c|
    ensures CellAt(WithFeatures(u, c, std), "Return_1D", i) == Some(PctChange(c, i, 1))
    ensures CellAt(WithFeatures(u, c, std), "Return_5D", i) == Some(PctChange(c, i, 5))
    ensures CellAt(WithFeatures(u, c, std), "SMA_5", i) == Some(RollingMean(c, i, 5))
    ensures CellAt(WithFeatures(u, c, std), "SMA_10", i) == Some(RollingMean(c, i, 10))
    ensures CellAt(WithFeatures(u, c, std), "Volatility", i) == Some(RollingStd(c, i, 5, std))
    ensures CellAt(WithFeatures(u, c, std), "Close", i) == CellAt(u, "Close", i)
  {
    WithFeaturesLookup(u, c, std, i, "Return_1D");
    WithFeaturesLookup(u, c, std, i, "Return_5D");
    WithFeaturesLookup(u, c, std, i, "SMA_5");
    WithFeaturesLookup(u, c, std, i, "SMA_10");
    WithFeaturesLookup(u, c, std, i, "Volatility");
    WithFeaturesLookup(u, c, std, i, "Close");
  }

  /** The features of row `i` over prices without a zero: all defined exactly from row 9 on. */
  lemma FeaturesDefinedFrom9(c: seq<real>, i: nat, std: seq<real> -> real)
    requires i < |c| && forall k :: 0 <= k < |c| ==> c[k] != 0.0
    ensures (forall f :: 0 <= f < 5 ==> FeatureColumn(c, f, std)[i] != Missing) <==> i >= 9
  {
    if i < 9 {
      assert FeatureColumn(c, 3, std)[i] == Missing;
    }
  }

  /** A complete row stays complete after the five assignments iff all five features are defined. */
  lemma WithFeaturesComplete(u: Table, c: seq<real>, std: seq<real> -> real, i: nat)
    requires Shaped(u) && u.labels.Flat? && |c| == |u.rows| && i < |c|
    requires Complete(u.rows[i])
    ensures Complete(WithFeatures(u, c, std).rows[i]) <==>
      forall f :: 0 <= f < 5 ==> FeatureColumn(c, f, std)[i] != Missing
  {
    var u1 := Assign(u, FeatureNames[0], FeatureColumn(c, 0, std));
    var u2 := Assign(u1, FeatureNames[1], FeatureColumn(c, 1, std));
    var u3 := Assign(u2, FeatureNames[2], FeatureColumn(c, 2, std));
    var u4 := Assign(u3, FeatureNames[3], FeatureColumn(c, 3, std));
    AssignComplete(u, FeatureNames[0], FeatureColumn(c, 0, std), i);
    AssignComplete(u1, FeatureNames[1], FeatureColumn(c, 1, std), i);
    AssignComplete(u2, FeatureNames[2], FeatureColumn(c, 2, std), i);
    AssignComplete(u3, FeatureNames[3], FeatureColumn(c, 3, std), i);
    AssignComplete(u4, FeatureNames[4], FeatureColumn(c, 4, std), i);
    if f :| 0 <= f < 5 && FeatureColumn(c, f, std)[i] == Missing {
      WithFeaturesLookup(u, c, std, i, FeatureNames[f]);
      MissingCellAt(WithFeatures(u, c, std), FeatureNames[f], i);
    }
  }

  /**
   * On a frame without missing cells whose prices have no zero, exactly
   * the rows from position 9 on survive `dropna()`: `max(0, n - 9)` rows.
   */
  lemma SurvivingRows(t: Table, std: seq<real> -> real)
    requires Shaped(t) && Closes(t).Some?
    requires forall i :: 0 <= i < |t.rows| ==> Complete(t.rows[i])
    requires forall k :: 0 <= k < |Closes(t).value| ==> Closes(t).value[k] != 0.0
    ensures Engineered(t, std).Ok?
    ensures |Engineered(t, std).value.rows| == if |t.rows| <= 9 then 0 else |t.rows| - 9
    ensures forall k :: 0 <= k < |Engineered(t, std).value.rows| ==>
      Engineered(t, std).value.rows[k] == CallerAfter(t, std).rows[k + 9]
  {
    var c := Closes(t).value;
    var w := WithFeatures(Relabelled(t), c, std);
    forall i | 0 <= i < |w.rows| ensures Complete(w.rows[i]) <==> i >= 9 {
      WithFeaturesComplete(Relabelled(t), c, std, i);
      FeaturesDefinedFrom9(c, i, std);
    }
    DropNAFrom(w, 9);
    assert Engineered(t, std) == Ok(DropNA(w)) && CallerAfter(t, std) == w;
  }

  /**
   * No look-ahead, and nothing older than nine rows back: the features of
   * row `i` depend only on the closes of rows `i - 9 .. i`.
   */
  lemma FeaturesReadTrailingWindow(c1: seq<real>, c2: seq<real>, i: nat, std: seq<real> -> real)
    requires i < |c1| && i < |c2|
    requires var lo := if i < 9 then 0 else i - 9; c1[lo..i + 1] == c2[lo..i + 1]
    ensures forall f :: 0 <= f < 5 ==> FeatureColumn(c1, f, std)[i] == FeatureColumn(c2, f, std)[i]
  {
    var lo := if i < 9 then 0 else i - 9;
    forall k | lo <= k <= i ensures c1[k] == c2[k] {
      assert c1[lo..i + 1][k - lo] == c2[lo..i + 1][k - lo];
    }
    if i >= 4 {
      assert Window(c1, i, 5) == Window(c2, i, 5);
    }
    if i >= 9 {
      assert Window(c1, i, 10) == Window(c2, i, 10);
    }
  }

  /** From row 9 on, the features are the ratios and means that name them. */
  lemma FeatureFormulas(c: seq<real>, i: nat, std: seq<real> -> real)
    requires 9 <= i < |c| && c[i - 1] != 0.0 && c[i - 5] != 0.0
    ensures FeatureColumn(c, 0, std)[i] == Num(c[i] / c[i - 1] - 1.0)
    ensures FeatureColumn(c, 1, std)[i] == Num(c[i] / c[i - 5] - 1.0)
    ensures FeatureColumn(c, 2, std)[i] == Num(Sum(c[i - 4..i + 1]) / 5.0)
    ensures FeatureColumn(c, 3, std)[i] == Num(Sum(c[i - 9..i + 1]) / 10.0)
  {
  }

  lemma {:induction false} SumConstant(s: seq<real>, x: real)
    requires forall k :: 0 <= k < |s| ==> s[k] == x
    ensures Sum(s) == |s| as real * x
  {
    if s != [] {
      SumConstant(s[..|s| - 1], x);
    }
  }

  /** A constant price series: both returns are zero and both means equal the price. */
  lemma ConstantSeries(c: seq<real>, x: real, i: nat, std: seq<real> -> real)
    requires 9 <= i < |c| && x != 0.0
    requires forall k :: 0 <= k < |c| ==> c[k] == x
    ensures FeatureColumn(c, 0, std)[i] == Num(0.0)
    ensures FeatureColumn(c, 1, std)[i] == Num(0.0)
    ensures FeatureColumn(c, 2, std)[i] == Num(x)
    ensures FeatureColumn(c, 3, std)[i] == Num(x)
  {
    var w5, w10 := Window(c, i, 5), Window(c, i, 10);
    forall k | 0 <= k < |w5| ensures w5[k] == x {
      assert w5[k] == c[i - 4 + k];
    }
    forall k | 0 <= k < |w10| ensures w10[k] == x {
      assert w10[k] == c[i - 9 + k];
    }
    SumConstant(w5, x);
    SumConstant(w10, x);
  }
}

# Stock forecasting and storefront core, modelled in Dafny

This project models the computational core of a small stock-analysis
dashboard and of the shop page that ships beside it.

- **Trading calendar** (`calendar.dfy`, module `TradingCalendar`):
  `get_future_trading_days` walks forward from a date one day at a time and
  keeps Monday to Friday. Dates are proleptic Gregorian ordinals, as
  `date.toordinal` gives them.
- **Frames** (`frames.dfy`, module `Frames`): the part of a pandas DataFrame
  the core relies on.
  - A table has flat or two-level column labels, a positional or keyed row
    index, and rows of cells. A cell is a date, a number, an infinity or
    missing (NaN/NaT).
  - The operations are `' '.join(col).strip()` flattening, `df[col]`
    lookup and assignment, `reset_index()` and `dropna()`.
  - `DataFrame` is a class whose methods change the shared frame in place,
    because the core mutates its caller's frame.
- **Feature engineering** (`features.dfy`, module `Features`): the second
  `engineer_features`, the one Python binds. It normalises the labels,
  requires `Close`, adds five trailing-window features to the caller's
  frame and returns the complete rows.
- **Forecasts** (`predictor.dfy`, module `Predictor`):
  - `train_linear_model`: column resolution, the date/close rows in date
    order, and the inline future-date loop;
  - `train_xgboost_model` and `predict_direction`: the target column,
    `dropna`, the chronological training prefix, the `tail(days)` rows the
    model predicts from, and the `Up`/`Down` labels.

  The fitted models, the split size and the rolling standard deviation are
  the libraries' work. They appear as function parameters.
- **Chart** (`charts.dfy`, module `Charts`): `plot_single_stock_performance`.
  It flattens the header, finds Date and the first column whose lower-case
  label contains `close`, and rebases the closes to 100. The result is the
  pair of series the figure is drawn from.
- **Storefront** (`storefront.dfy`, module `Storefront`): script.js as a
  `Page` class holding its module-level state. That state is the cart, the
  custom products, the users, the logged-in user, the admin form's flags
  and the carousel position. The page's operations are its methods.
- **Helpers**:
  - `text.dfy`: substring search, ASCII lower-casing, `strip()`;
  - `sorting.dfy`: a key-ordered insertion sort;
  - `wrappers.dfy`: `Option` and `Result`.

Numbers are Dafny `real`s, so floating-point rounding is not modelled. A
division by zero gives an infinity, or NaN for 0/0, as IEEE arithmetic does.

## Model

| member | source | states |
|---|---|---|
| TradingCalendar.NextTradingDay | predictor.py:10-13 | the next trading day is one to three days ahead, falls on Monday-Friday, and every day skipped on the way is a weekend day |
| TradingCalendar.FutureTradingDaysOrdered | predictor.py:7-14 | every future date lies after the start, is a weekday, and the dates strictly increase |
| TradingCalendar.FutureTradingDaysComplete | predictor.py:7-14 | the first date is the first trading day after the start, and no trading day up to the last date is skipped |
| TradingCalendar.FutureTradingDaysStep | predictor.py:11-13 | one step of the walk keeps a trading day and skips any other day without changing the answer |
| TradingCalendar.GetFutureTradingDays | predictor.py:7-14 | the loop returns exactly the first `n` trading days after the start (none when `n <= 0`) |
| Predictor.TrainLinearModel | predictor.py:25-59 | the caller's frame ends up with flattened labels; the result is the linear forecast of the flattened frame, over the dates of the inline loop (lines 49-54), which equal `get_future_trading_days(today, days_ahead)`; with no date to predict it fails as `model.predict([])` does |
| Predictor.WithDateColumn | predictor.py:31-32 | a frame with a `Date` column is used unchanged; otherwise the index is reset, which succeeds exactly when its label is free, and the row count is kept |
| Predictor.SelectDateClose | predictor.py:34-44 | the ValueError is raised exactly when no label contains `Close`; a missing `Date` column is the KeyError; the selection succeeds exactly when both columns exist, the Date cells are dates and the close cells numbers, and each row then pairs the Date cell with the first `Close`-containing column's number |
| Predictor.LinearRows | predictor.py:31-47 | the rows can be fitted exactly when the Date column is available, the selection succeeds and the frame has a row; the fitted rows are then sorted by date and a permutation of the selected (Date, Close) rows |
| Predictor.LinearForecastSpec | predictor.py:46-59 | the forecast succeeds exactly when the rows can be fitted and `days_ahead > 0`; a fit error comes first, then the empty-prediction error; a forecast has `days_ahead` lines, line `j` dated the `j`-th next trading day after today, in increasing order, each value the fitted line at that date |
| Predictor.LinearRejectsWithoutClose | predictor.py:35-37 | with a Date column, the forecast fails with the missing-Close error exactly when no label contains `Close` |
| Predictor.Pair | predictor.py:59 | the result frame pairs dates and values by position, and fails when their lengths differ |
| Predictor.FeatureVector | predictor.py:66 | dropping `Date`, `Close` and `Target` leaves a row without those labels whole and removes everything when only those remain; the mixed rows are fixed by `FeatureVectorAppend` |
| Predictor.FeatureVectorAppend | predictor.py:63-66 | column by column, `drop(columns=['Date', 'Close', 'Target'])` keeps exactly the cells under other labels, in column order: a further column adds its cell at the end unless its label is dropped; in particular adding the `Target` column changes no feature vector |
| Predictor.NextCloseMissing | predictor.py:63 | `shift(-1)` is missing exactly on the last row |
| Predictor.RisesPresent | predictor.py:81 | the direction target is never missing |
| Predictor.LabelledDropsLast | predictor.py:63-64 | with a target missing only on the last row, `dropna` keeps every other row in order |
| Predictor.LabelledKeepsAll | predictor.py:81-82 | with a target never missing, `dropna` keeps every row |
| Predictor.NextCloseTarget | predictor.py:63-64 | labelling drops exactly the last engineered row; every kept row keeps its cells and reads the next close as `Target` |
| Predictor.RisesTarget | predictor.py:81-82 | no row is dropped; `Target` is 1 exactly on rises, and the last row is labelled 0 |
| Predictor.TrainCount | predictor.py:68 | the chronological training prefix never exceeds the samples |
| Predictor.Tail | predictor.py:73 | `tail(n)` is a suffix of `min(n, len)` items, or all but the first `-n` for negative `n` |
| Predictor.Predict | predictor.py:66-74 | prediction succeeds exactly when there is a Date column and a non-empty training prefix, and yields one value per `tail(days)` row |
| Predictor.RegressionRecentRows | predictor.py:63-74 | the regressor predicts from the `days` rows before the last engineered row, each through its feature vector |
| Predictor.DirectionRecentRows | predictor.py:81-92 | the classifier predicts from the last `days` engineered rows, including the last one |
| Predictor.RegressionPredictCount | predictor.py:63-74 | the regressor makes `min(days, rows - 1)` predictions |
| Predictor.DirectionPredictCount | predictor.py:81-92 | the classifier makes `min(days, rows)` predictions |
| Predictor.RegressionForecastNeedsRows | predictor.py:73-77 | the regression forecast succeeds exactly when `days` is at most one fewer than the engineered rows, and its dates are the future trading days |
| Predictor.DirectionForecastNeedsRows | predictor.py:91-95 | the direction forecast succeeds exactly when `days` is at most the engineered rows; the dates are the future trading days; each label is `Up` exactly when the class is 1 |
| Predictor.DirectionLabel | predictor.py:93 | the label is `Up` exactly for class 1 and `Down` exactly for every other class |
| Predictor.TrainXgboostModel | predictor.py:61-77 | the caller's frame ends up relabelled and extended by the features; the result is the regression forecast of the original frame |
| Predictor.RegressionOf | predictor.py:63-77 | the steps after `engineer_features` compute the regression forecast of the engineered frame |
| Predictor.PredictDirection | predictor.py:79-95 | the caller's frame ends up relabelled and extended by the features; the result is the direction forecast of the original frame |
| Predictor.DirectionOf | predictor.py:81-95 | the steps after `engineer_features` compute the direction forecast of the engineered frame |
| Features.FeatureLabels | predictor.py:99-103 | relabelling always yields flat labels, one per column |
| Features.BranchesAgree | predictor.py:100-103 | `droplevel(1)` and `[col[0] for col in ...]` give the same labels |
| Features.RelabelColumns | predictor.py:99-103 | a two-level header of the caller's frame is replaced by its first level, in place |
| Features.EngineerFeatures | predictor.py:97-116 | the caller's frame is relabelled and gains the five features; the result is the frame's complete rows, or the error raised |
| Features.RejectsIffNoClose | predictor.py:105-107 | the ValueError is raised exactly when the relabelled frame has no `Close` label |
| Features.WithFeaturesLookup | predictor.py:109-113 | after the five assignments, each feature label reads its column and every other label reads as before |
| Features.FeatureCellsAt | predictor.py:109-113 | each feature column holds, row by row, the percentage change, rolling mean or rolling deviation that names it |
| Features.FeaturesDefinedFrom9 | predictor.py:109-113 | over prices without a zero, all five features of a row are defined exactly from row 9 on |
| Features.WithFeaturesComplete | predictor.py:109-114 | a complete row stays complete exactly when all five features are defined |
| Features.SurvivingRows | predictor.py:109-114 | a complete frame with non-zero prices keeps exactly its rows from position 9 on: `max(0, n - 9)` rows |
| Features.FeaturesReadTrailingWindow | predictor.py:109-113 | the features of row `i` depend only on the closes of rows `i - 9` to `i` (no look-ahead) |
| Features.FeatureFormulas | predictor.py:109-112 | from row 9 on, the returns are `c[i]/c[i-1] - 1` and `c[i]/c[i-5] - 1`, and the means are the 5- and 10-row averages |
| Features.ConstantSeries | predictor.py:109-112 | on a constant non-zero price series both returns are 0 and both means equal the price |
| Frames.JoinedNames | predictor.py:28 | each flattened label is the stripped `' '.join` of its pair, one per column |
| Frames.DataFrame.FlattenColumns | charts.py:58-59 | a two-level header of the shared frame is replaced by its joined labels, in place |
| Frames.DataFrame.SetColumn | predictor.py:109-113 | `df[col] = cells` changes the shared frame to the assigned table |
| Frames.AssignLookup | predictor.py:109-113 | after `df[col] = cells`, `df[col]` reads the new cells and every other label reads as before |
| Frames.AssignComplete | predictor.py:63-64 | a complete row stays complete after an assignment exactly when the new cell is not missing |
| Frames.FirstIndexOfAppend | predictor.py:109-113 | a new column is found at the end, and every other label is found where it was |
| Frames.ResetIndex | charts.py:64-65 | `reset_index()` fails exactly when the label it would add is taken; otherwise the index becomes the first column and a range index replaces it |
| Frames.DropNA | predictor.py:114 | `dropna()` keeps the labels and only complete rows |
| Frames.KeptIncreasing | predictor.py:114 | `dropna()` keeps rows in their original order |
| Frames.KeptEvery | predictor.py:114 | `dropna()` keeps every complete row |
| Frames.DropNAKeepsComplete | predictor.py:114 | a frame without missing cells survives `dropna()` whole |
| Frames.DropNAFrom | predictor.py:114 | when exactly the rows from position `m` on are complete, `dropna()` returns those rows |
| Charts.FindCloseColumn | charts.py:68-72 | the loop finds the first label whose lower-case form contains `close` |
| Charts.Normalized | charts.py:77 | an empty column is the only `iloc[0]` failure; a result has one value per row |
| Charts.NormalizedBase100 | charts.py:77 | with numeric closes and a non-zero first close, row `i` is `close[i] / close[0] * 100`, and the first row is 100 |
| Charts.NormalizedZeroBase | charts.py:77 | a zero first close gives NaN for zero closes and an infinity of the close's sign otherwise |
| Charts.PerformanceColumns | charts.py:64-79 | with a Date column, the KeyError is raised exactly when no label contains `close` in any case; when one does, the plot succeeds exactly when normalising the first such column succeeds (an empty frame or a non-numeric cell is that error), and then pairs the Date column with the normalised column |
| Charts.PerformanceResetsIndex | charts.py:64-65 | without a Date column, `reset_index()` is refused exactly when its label is already a column; a plot then needs the index to be named `Date`, its dates are the index keys, and a `Date`-named index never ends in the missing-Date error |
| Charts.PerformanceOfCopy | charts.py:61-79 | the steps after the flattening compute the performance series of the copy |
| Charts.PlotSingleStockPerformance | charts.py:53-82 | as written: the caller's frame ends up flattened, and the result is the performance of the flattened frame |
| Charts.PlotSingleStockPerformanceOnCopy | charts.py:58-61 | with the copy taken first, the caller's frame is unchanged and the result is the same |
| Charts.FlatteningHidesClose | charts.py:58-59 | a yfinance one-ticker frame is accepted by `engineer_features` before the chart and refused after it |
| Text.ContainsIff | charts.py:70 | substring search holds exactly when the needle occurs at some position |
| Text.StripSpec | predictor.py:28 | `strip()` returns a slice with only whitespace outside it, and neither of its ends is whitespace |
| Sorting.SortBy | predictor.py:43 | the result is sorted by the key and a permutation of the input |
| Storefront.Page.CustomIndex | script.js:39-40 | on the full, unsorted and unfiltered list (`getAllProducts()`: the six base products, then the custom ones), card `i` is custom exactly from position 6 on, and then names the custom product it shows; otherwise it shows base product `i` |
| Storefront.CardTarget | script.js:39-40 | as written: the buttons of card `i` address custom product `i - 6` exactly when `i` is 6 or more, whatever list is rendered |
| Storefront.SortedViewMisplacesButtons | script.js:39-40 | on the base products plus one cheaper custom product sorted by ascending price, the custom product is on card 0 with no buttons, while card 6 shows a base product whose buttons address custom product 0 |
| Storefront.CheapestSortsAlone | script.js:204 | sorted by ascending price, a product cheaper than all the others comes first and nowhere else |
| Storefront.ViewTarget | script.js:39-40 | intended: a card has Edit and Delete exactly when the product it shows is a custom one, and they address that product |
| Storefront.FullViewTargets | script.js:39-40 | on the full list the intended addressing and the one as written agree |
| Storefront.Page.ShowsAdminControls | script.js:39-46 | Edit and Delete appear on card `i` of any rendered list exactly when a user called `admin` in any case is logged in and the card's position is 6 or more; on the full list they then address the custom product the card shows |
| Storefront.FindByName | script.js:63 | `find` returns the first product with the name, or nothing exactly when none has it |
| Storefront.Page.AddToCart | script.js:62-70 | the first product with the name is appended to the cart; an unknown name changes nothing |
| Storefront.Page.RemoveFromCart | script.js:98-103 | the cart becomes `cart.splice(index, 1)` with JavaScript's index rules; nothing else changes |
| Storefront.SpliceOneRemoves | script.js:99 | removing item `i` keeps the other items in order, as a multiset minus that item, and lowers the total by its price |
| Storefront.SumPricesConcat | script.js:84-86 | the cart total of two parts is the sum of their totals |
| Storefront.Page.CartTotal | script.js:84-86 | the loop adds up exactly the prices of the cart |
| Storefront.Page.SubmitOrder | script.js:119-124 | an order empties the cart and changes nothing else |
| Storefront.Page.RegisterUser | script.js:157-169 | registration succeeds exactly when the name's lookup is falsy, and then stores the password |
| Storefront.RegistrationRefusals | script.js:162 | registration is refused exactly for a stored name with a non-empty password, or for an unstored name that `Object.prototype` answers |
| Storefront.Page.LoginUser | script.js:144-156 | login succeeds exactly when the lookup strictly equals the password, and then records the user |
| Storefront.LoginMatchesStored | script.js:149 | strict equality holds exactly for a stored user with that password |
| Storefront.RegisterThenLogin | script.js:149-165 | a freshly registered password logs in |
| Storefront.Page.LogoutUser | script.js:186-190 | logout forgets the user and changes nothing else |
| Storefront.Page.ToggleAdminPanel | script.js:210-216 | the modal flips and any edit is forgotten |
| Storefront.Stored | script.js:229-233 | an edit replaces the product at its index and keeps the others; otherwise the product is appended |
| Storefront.Page.AddProduct | script.js:218-238 | a falsy field stops the save; otherwise the custom products become what the form stores |
| Storefront.Page.EditProduct | script.js:245-254 | as written: an index outside the custom products throws; otherwise the form toggles and is left not editing |
| Storefront.EditThenSaveAppends | script.js:251-253 | after `editProduct(i)` as written, the next save appends and leaves product `i` as it was |
| Storefront.Page.EditProductIntended | script.js:245-254 | with the toggle first, the form opens editing product `i` |
| Storefront.EditIntendedThenSaveReplaces | script.js:229-233 | after the intended edit, the save replaces product `i` |
| Storefront.Page.DeleteProduct | script.js:256-262 | a confirmed delete splices the product out; a declined one changes nothing |
| Storefront.Matching | script.js:196-200 | the filter keeps, in order, exactly the products whose lower-cased name contains the query, with their multiplicities |
| Storefront.MatchingEmptyQuery | script.js:196-200 | an empty query keeps every product |
| Storefront.SortedProducts | script.js:201-206 | the sort is a permutation, ascending or descending by price as asked, and the unchanged list otherwise |
| Storefront.Page.NextSlide | script.js:268-272 | the slide advances by one modulo the slide count |
| Storefront.AdvanceTimesWraps | script.js:270 | over one round the carousel visits the following slides in order and wraps to the first |
| Storefront.AdvanceFullCycle | script.js:270 | after as many steps as slides the carousel is back where it started |
| Storefront.AdvanceWithoutSlides | script.js:270 | without slides the position becomes NaN and stays NaN |

## Left out

- Dates are day ordinals. `pd.Timestamp`, time zones, times of day and numeric Date values that `pd.to_datetime` would turn into dates are not modelled. A Date cell that is not a date is an error.
- `datetime.today()` is the parameter `today`.
- The fitted models are parameters of the operations that use them: `LinearRegression`, `XGBRegressor` and `XGBClassifier`. The model states only which rows they are fitted on and which rows they predict from.
- The training size `train_test_split` chooses is a parameter, clamped to the number of samples. The rolling standard deviation is a parameter too.
- Floating point is modelled by `real`. Rounding, negative zero and comparisons with NaN inside the models are not captured. An infinity is a separate cell kind.
- Features.Engineered: a `Close` column holding NaN or infinite cells is reported as `NonNumericClose`. pandas carries such cells through `pct_change` and `rolling`, and `dropna()` then removes the NaN rows and keeps the infinite ones. This path is not modelled. For cells that are not numbers at all, pandas raises a TypeError, as the model does.
- Duplicate column labels are not modelled: `df[col]` reads the first column with the label, and assignment overwrites it.
- Text.Lower lower-cases ASCII letters only; Unicode case mapping is not modelled.
- The first `engineer_features` (predictor.py:16-23) is not modelled, because the second definition at line 97 replaces it before any call.
- plotly's figure, its title and layout (charts.py:79-82) are not modelled. The model returns the series the figure would draw.
- The browser parts are not modelled: the DOM, rendering, `localStorage` persistence, `alert`, `setTimeout` and `setInterval`. The answer to `confirm`, the form fields and the number of slides are parameters.
- Storefront.Page.DeleteProduct requires that no edit is in progress. As written, `editProduct` never leaves the form editing, so this excludes no reachable state. With the intended edit it keeps `editingIndex` pointing at an existing product.
- Storefront.Page.AddProduct takes the parsed price and rating as `Option` values. `None` stands for NaN; `parseFloat` and `parseInt` themselves are not modelled.
- Sorting.SortBy is proved sorted and a permutation. Stability, which `Array.prototype.sort` guarantees, is not proved.
- `getAllProducts`, `filterProducts` and `sortProducts` are the reading functions `Page.AllProducts`, `Page.FilterProducts` and `Page.SortProducts`. Their properties are proved on `Page.CustomIndex`, `Matching` and `SortedProducts`.

## Findings

| source | as written | input that shows it | evidently intended | confidence | as-written member | corrected member |
|---|---|---|---|---|---|---|
| charts.py:58-61 | the two-level header is flattened on the caller's frame before `df.copy()` | a yfinance frame with header (`Date`, ``), (`Close`, `AAPL`): after the chart, its labels are `Date`, `Close AAPL`, and `engineer_features` on it raises the missing-Close ValueError | take the copy first, so the caller's frame keeps its header | medium, not executed | Charts.FlatteningHidesClose | Charts.PlotSingleStockPerformanceOnCopy |
| script.js:39-40 | `renderProducts` takes a card's custom index to be its position minus 6, even when it renders a filtered or sorted list (lines 199, 206) | the six base products plus a custom product priced 5.0, sorted by ascending price, with `admin` logged in: the custom product is on card 0 with no buttons, and card 6 shows a base product whose Edit and Delete act on the custom product | carry each card's place in the full list into the rendering, and decide the buttons and their index from it | high, not executed | Storefront.SortedViewMisplacesButtons | Storefront.ViewTarget |
| script.js:251-253 | `editProduct` sets `isEditing` and `editingIndex`, then calls `toggleAdminPanel`, which resets them | one custom product, `editProduct(0)`, save the form: the list has two products and product 0 is unchanged | open the panel first, then set the flags, so the save replaces product 0 | high, not executed | Storefront.EditThenSaveAppends | Storefront.EditIntendedThenSaveReplaces |

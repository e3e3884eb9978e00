# AQI app: conversion, exposure, categories and history

This Dafny project models the computational core of a small air-quality web
application. For a city, the application asks OpenWeatherMap for the
pollutant concentrations and converts them to a US AQI value. It stores the
reading in an SQLite table and reports that city's same-day average AQI
together with a "cigarettes per day" exposure figure. A browser page then
colours each value by its EPA category.

The model covers four things:

- **US AQI conversion** (`UsAqi`, server.js `convertToUSAQI`). This is a
  six-band piecewise-linear curve from the PM2.5 concentration to an integer
  index. It approximates the PM2.5 breakpoints of the US EPA Air Quality Index
  (40 CFR Part 58, Appendix G, Table 2) using that appendix's interpolation
  equation, with three simplifications: the bands are contiguous, the
  concentration is not truncated, and the two top EPA bands are merged into
  one segment from 250.4 to 400. Nothing clamps the result from above. The
  source's formulas are proved equal to the EPA equation over the breakpoint
  table (`CONC_BREAKS`, `INDEX_BREAKS`). The curve is proved continuous
  (Lipschitz) and strictly increasing, and each band is proved to map its
  concentration range into its index range.
- **Cigarette equivalent** (`Cigarettes`, server.js
  `calculateCigaretteEquivalent`). The figure is round((pm25 / 22) · (hours / 24)),
  and 0 for an absent, zero or negative concentration.
- **Categories and page fallbacks** (`AqiCategory`, `Display`,
  public/app.js). `getAQIColor` is an if-chain that assigns one of six EPA
  categories. It is proved equal to two independent definitions: a band table
  (`InBand`) and a count of category bounds. The page falls back to the
  current AQI when the daily average is null or 0, and shows 0 for a missing
  pollutant.
- **History store** (`History`, database.js). The table `aqi_records` is a
  class `HistoryStore` holding a sequence of rows and the next AUTOINCREMENT
  id. `Save` appends exactly one row and returns its id, which is larger than
  every earlier id. `DailyAverage(city, cutoff)` is null exactly when no row
  matches. Otherwise it is Math.round of the mean aqi of the matching rows.
  That value lies within the range of the matching aqi values and does not
  depend on row order. It is not changed by rows for other cities or rows
  from before the cutoff.

Arithmetic is over exact reals. JavaScript's `Math.round(x)` is `JsMath.Round`,
that is floor(x + 1/2), which rounds halves toward +infinity. A pollutant
object is a `map<string, real>`, and `components.k || 0` reads an absent key
as 0.

Timestamps are abstract ordered integers (`History.Timestamp`). The caller
passes in the row's insertion time (SQLite's `CURRENT_TIMESTAMP`) and the
start-of-day cutoff that getDailyAverage computes from the local clock. An
SQLite error on insert is a boolean parameter of `Save`. When it is set, the
promise rejects and the table stays as it was.

Three behaviours of the code a reader might not expect:

- The stored AQI is not limited to 0–500. Above 400 µg/m³ the unrounded index
  exceeds 500, and the rounded one is at least 500. A negative pm2_5 falls in
  the first band and gives a negative unrounded index, and 0 or less after
  rounding.
- Halves are rounded toward +infinity (`Math.round`), not away from zero.
- A daily average of 0 is falsy on the page, so the page shows the current
  AQI in its place, as it does for null.

## Model

| member | source | states |
|---|---|---|
| `JsMath.Round` | server.js:138 | Math.round(x) is the unique integer r with r − 1/2 ≤ x < r + 1/2 |
| `JsMath.RoundMonotone` | server.js:163 | Math.round is non-decreasing |
| `JsMath.RoundWithin` | database.js:76 | rounding keeps a value inside any interval with integer end points |
| `Pollutants.Concentration` | server.js:132 | an absent `components.pm2_5` reads as 0, a present one as its value |
| `UsAqi.Band` | server.js:137-148 | the if-chain picks band 1 exactly for pm25 ≤ 12, band 6 exactly above 250.4, and otherwise the band whose (lower, upper] range holds pm25 |
| `UsAqi.Unrounded` | server.js:137-149 | pm25 in [0, 400] gives an unrounded index in [0, 500]; pm25 above 400 gives more than 500 (there is no upper clamp) |
| `UsAqi.ConvertToUSAQI` | server.js:129-150 | a missing or zero pm2_5 gives 0; pm2_5 in [0, 400] gives an AQI in [0, 500]; above 400 gives at least 500 |
| `UsAqi.UnroundedIsInterpolation` | server.js:137-149 | each band's formula is the EPA equation (IHi − ILo)/(BPHi − BPLo)·(Cp − BPLo) + ILo on the breakpoint table |
| `UsAqi.BandRange` | server.js:137-148 | [0,12]→[0,50], (12,35.4]→(50,100], (35.4,55.4]→(100,150], (55.4,150.4]→(150,200], (150.4,250.4]→(200,300], (250.4,400]→(300,500] before rounding; after rounding each band lands in the closed range [0,50], [50,100], …, [300,500] |
| `UsAqi.BreakpointsAgree` | server.js:137-148 | adjacent band formulas agree at 12, 35.4, 55.4, 150.4 and 250.4, on 50, 100, 150, 200 and 300 |
| `UsAqi.UnroundedLipschitz` | server.js:137-149 | the curve is continuous and non-decreasing: from p to q ≥ p it rises by between 0 and (50/12)·(q − p) |
| `UsAqi.UnroundedStrictlyIncreasing` | server.js:137-149 | the unrounded curve is strictly increasing |
| `UsAqi.ConvertMonotone` | server.js:137-149 | the rounded AQI is non-decreasing in pm2_5 |
| `UsAqi.ConvertDependsOnlyOnPm25` | server.js:129-133 | the result depends only on pm2_5: the provider index and pm10 are never used |
| `UsAqi.ConvertBreakpoints` | server.js:137-148 | pm2_5 absent → 0, 12 → 50, 35.4 → 100, 55.4 → 150, 150.4 → 200, 250.4 → 300, 400 → 500 |
| `Cigarettes.CigaretteEquivalent` | server.js:155-164 | 0 for an absent, zero or negative pm25; otherwise within 1/2 of (pm25/22)(hours/24); non-negative whenever hours ≥ 0 |
| `Cigarettes.DefaultExposure` | server.js:155-163 | with the default 24 hours the count is round(pm25/22) |
| `Cigarettes.Examples` | server.js:155-163 | 25 → 1 and 44 → 2 cigarettes a day; 0 and absent → 0 |
| `Cigarettes.Monotone` | server.js:156-163 | for hours ≥ 0 the count is non-decreasing in pm25 |
| `Cigarettes.AbsentIsLeast` | server.js:156 | an absent concentration never counts for more than a present one |
| `AqiCategory.CategoryOf` | public/app.js:2-8 | the chosen category's band (lower bound exclusive, upper inclusive) contains the AQI |
| `AqiCategory.GetAQIColor` | public/app.js:2-9 | label "Good" iff aqi ≤ 50, "Moderate" iff 50 < aqi ≤ 100, … "Very Unhealthy" iff 200 < aqi ≤ 300, "Hazardous" iff aqi > 300; text class always white |
| `AqiCategory.BandUnique` | public/app.js:3-8 | an AQI lies in exactly one band, so the classifier is total and assigns exactly one category |
| `AqiCategory.CategoryCountsBounds` | public/app.js:3-8 | the category index equals the number of bounds 50, 100, 150, 200, 300 below the AQI |
| `AqiCategory.CategoryMonotone` | public/app.js:2-8 | a ≤ b implies category index of a ≤ that of b |
| `AqiCategory.LabelsDistinct` | public/app.js:3-8 | the six labels are pairwise different |
| `AqiCategory.LabelIs` | public/app.js:3-8 | each label string names exactly one category |
| `AqiCategory.Boundaries` | public/app.js:3-8 | 50 → Good, 51 → Moderate, 100 → Moderate, 150 → Unhealthy for Sensitive Groups, 200 → Unhealthy, 300 → Very Unhealthy, 301 → Hazardous |
| `Display.DailyValue` | public/app.js:39 | shows the daily average when it is non-null and non-zero, otherwise the current AQI |
| `Display.ShownComponent` | public/app.js:47-53 | a missing components object or a missing pollutant shows 0; a present one shows its value |
| `Display.ShownComponents` | public/app.js:47-53 | six readings, in the order pm2_5, pm10, o3, no2, so2, co |
| `Display.Truthy` | public/app.js:39 | JavaScript truthiness of the daily average: null and 0 are falsy, any other number truthy |
| `Display.Render` | public/app.js:30-53 | the current card shows the current AQI in its category style, the daily card shows the daily value with the null-or-0 fallback in its own category style, each card's label is the category label of its value, and the six readings are the pollutant values with their fallbacks |
| `Display.DailyCardFallsBack` | public/app.js:39-44 | with a null or 0 daily average, the daily card repeats the current card's value and style |
| `Display.NoComponentsShowsZeros` | public/app.js:47-53 | without pollutant data all six readings show 0 |
| `History.Matches` | database.js:69 | a row matches only for the requested city and never when it was created before the cutoff |
| `History.Contribution` | database.js:67-69 | a row adds 1 to COUNT(*) and its aqi to the sum exactly when it matches, and nothing otherwise |
| `History.TallyOf` | database.js:67-69 | COUNT(*) and the sum of aqi over the matching rows; a count of 0 comes with a sum of 0 |
| `History.Average` | database.js:67-76 | the value getDailyAverage resolves: null exactly when the count is 0, otherwise the integer within 1/2 of sum/count (Math.round of AVG) |
| `History.TallyAppend` | database.js:67-69 | count and sum of matching rows add up over a concatenation |
| `History.TallyCountZero` | database.js:67-69 | the count of matching rows is 0 exactly when no row matches |
| `History.TallyPermutation` | database.js:67-69 | count and sum depend only on the multiset of rows |
| `History.TallyBounds` | database.js:67-69 | if every matching aqi is in [lo, hi], the sum lies between count·lo and count·hi |
| `History.RoundedMeanWithin` | database.js:76 | the rounded mean of values in [lo, hi] is in [lo, hi] |
| `History.AverageIsRoundedMean` | database.js:67-76 | a non-null average is within 1/2 of the exact mean of the matching aqi |
| `History.AverageNullIffNoMatch` | database.js:66-76 | null exactly when no row has the city and a timestamp at or after the cutoff |
| `History.AverageWithinBounds` | database.js:67-76 | a non-null average lies within any range holding every matching aqi, in particular [min, max] |
| `History.AverageOrderIndependent` | database.js:67-76 | the average does not depend on insertion order |
| `History.AppendOtherUnchanged` | database.js:69 | a row for another city or from before the cutoff leaves the average unchanged |
| `History.AppendMatchingNotNull` | database.js:69-76 | after a matching row is appended the average is not null |
| `History.HistoryStore.constructor` | database.js:19-27 | a new table is empty and the first id is 1 |
| `History.HistoryStore.Save` | database.js:41-57 | on error nothing changes; otherwise exactly one row with the given fields is appended, its id is returned and is larger than every earlier id, earlier rows are untouched, the day's average for that city becomes non-null, and other cities' averages stay the same |
| `History.HistoryStore.DailyAverage` | database.js:60-81 | null exactly when no stored row has that city and a timestamp at or after the cutoff |

## Left out

- The Express route `/api/aqi/:city`, `app.listen` and the two OpenWeatherMap HTTP calls (server.js:20-126, 166-169) are network I/O and are not modelled.
- The mock-data branch (server.js:84-122) draws its values from `Math.random` and is not modelled. As written, `API_KEY` is declared inside `try` but read in `catch`, so in that branch only a 401 response reaches the mock data. Any other error throws a ReferenceError instead of sending the 500 reply.
- History.HistoryStore.constructor: models only a newly created database file. `CREATE TABLE IF NOT EXISTS` on an existing aqi_data.db keeps the earlier rows and the AUTOINCREMENT counter, so the table is then not empty and the first id is not 1.
- Opening and closing the database (the connection setup in `initializeDatabase`, `closeDatabase`), the SQL text and `JSON.stringify` of components are not modelled. Components are stored as given.
- Date handling (`setHours`, `toISOString`, local midnight against UTC `CURRENT_TIMESTAMP`) is replaced by abstract timestamps passed in by the caller.
- History.HistoryStore.DailyAverage: a failing SQLite read (the rejected promise) is not modelled. The function always returns the aggregate.
- History.HistoryStore.Save: SQLite's id limit of 2^63 − 1 (SQLITE_FULL) is not modelled. Ids are unbounded naturals.
- Floating point: IEEE-754 artefacts (for example at x.5 after a division) and NaN are not modelled. Because all values are exact reals, a NaN pm25 cannot occur, although `!pm25` would treat it as 0.
- The page's DOM updates, `toFixed(1)`, `toLocaleString`, `showError`, `fetchAQI` and the event listeners are not modelled. `Display.Render` only computes the values the page writes.

# AutoTrackr core in Dafny

AutoTrackr is a car-dealership inventory tool. An Express/Prisma server stores car records and
answers analytics queries. A React client lists, filters and edits the cars and charts the figures.
This project models the parts of both that compute something, and proves what they promise:

- **Server analytics** (`server_analytics.dfy`, module `ServerAnalytics`). The four handlers of
  `/analytics` run over a sequence of records instead of Prisma queries:
  - `/summary`: counts, sold revenue and the rounded average price;
  - `/inventory`: the make and status histograms, one loop that bumps two accumulators;
  - `/time-series`: twelve month buckets in an `array`, then running totals;
  - `/age-buckets`: available cars by age in days.
  The loops are methods with invariants, proved against specification functions.
- **Car routes** (`car_routes.dfy`, module `CarRoutes`).
  - The request schema is a per-field check that yields the failing keys in schema order, or the
    parsed fields.
  - The table is a class `CarStore` holding a `map<Id, Car>` and the next id to hand out. It
    keeps four invariants: ids stored under themselves, every id below the next one, every row
    well formed, and VINs unique.
  - `List` returns the stored records, newest first. `Get`, `Create`, `Update` and `Delete`
    return the route's reply: 200, 201, 204, 400, 404 or 409.
- **Inventory dashboard** (`dashboard.dfy`, module `Dashboard`):
  - the status badge;
  - the search/status/make filter;
  - the sorted list of distinct makes;
  - the list updates after add, edit and delete. These are methods of `DashboardState`, which
    holds the `cars` list and the edit state.
- **Analytics view** (`admin_analytics.dfy`, module `AdminAnalytics`):
  - the key metrics and the status pie;
  - the make and sold-make histograms, written as the left folds the source uses;
  - the cumulative revenue series and the top-five sold list.
- **Car form** (`car_form.dfy`, module `CarForm`):
  - `normalizeMake`: trim, collapse whitespace, lower-case, title-case;
  - `stripLeadingZero`;
  - `Number()` on integer text;
  - the form state (class `CarFormState`) and the submit guard with its payload.
- **Shared pieces**:
  - `records.dfy`: the `Car` record and the statuses;
  - `text.dfy`: ASCII character classes, case mapping, decimal printing, and the default
    `sort` order;
  - `seqs.dfy`: filter, subsequence and sum;
  - `tally.dfy`: the counts, sums, histograms and `Math.round` that the server and the client
    share.
- **Consistency** (`consistency.dfy`): the analytics view computes the same key metrics and make
  histogram as the server.

Modelling choices:

- Prices and all other numbers are integers.
- Timestamps are integer milliseconds.
- A sale carries its instant and the month index (0..11) that `getMonth()` would give.
- Identifiers are naturals handed out by the store's counter.
- The URL check of the schema is a parameter `isUrl`.
- Clocks (`now`) and API results (`ApiResult`) are parameters.

## Model

| member | source | states |
|---|---|---|
| Records.ParseStatus | server/src/routes/cars.ts:16 | a status name is accepted only as the status that prints as it |
| Records.ParseStatusName | server/src/routes/cars.ts:16 | each of `available`, `sold`, `pending` is accepted as its own status |
| Text.ToLower | src/components/CarInventoryDashboard.tsx:102 | an upper-case letter becomes the lower-case letter at the same place in the alphabet; every other character is kept; letters, word characters and whitespace keep their class |
| Text.ToUpper | src/components/CarForm.tsx:43 | upper-casing leaves no lower-case letter and lower-cases back to what the original lower-cases to |
| Text.LowerStr | src/components/CarInventoryDashboard.tsx:102 | `toLowerCase` maps every character and keeps the length |
| Text.NatToString | src/components/CarInventoryDashboard.tsx:106 | `toString` of a natural is a non-empty digit string with no leading zero |
| Text.IntToString | src/components/CarInventoryDashboard.tsx:106 | `year.toString()` is a non-empty text of digits, starting with `-` exactly when the number is negative |
| Text.Contains | src/components/CarInventoryDashboard.tsx:103-107 | defines `includes`: the part occurs at some position of the text |
| Text.StrLess | src/components/CarInventoryDashboard.tsx:114 | defines the default `sort()` order: character by character, a proper prefix first |
| Text.DigitsValueOfNatToString | src/components/CarForm.tsx:24-26 | the digits printed for `n` denote `n` |
| Text.StrLessIrreflexive | src/components/CarInventoryDashboard.tsx:114 | the default sort order never puts a text before itself |
| Text.StrLessTransitive | src/components/CarInventoryDashboard.tsx:114 | the default sort order is transitive |
| Text.StrLessTotal | src/components/CarInventoryDashboard.tsx:114 | of two different texts the default sort order puts one first |
| Seqs.Filter | src/components/AdminAnalytics.tsx:36-38 | an element is in the result exactly when it is in the input and satisfies the predicate, and the result is no longer than the input |
| Seqs.FilterMultiset | src/components/AdminAnalytics.tsx:36-38 | `filter` keeps every occurrence of each element that satisfies the predicate, and no occurrence of any other |
| Seqs.FilterAppend | src/components/AdminAnalytics.tsx:40-42 | filtering distributes over concatenation |
| Seqs.FilterIsSubsequence | src/components/CarInventoryDashboard.tsx:101-112 | `filter` keeps the input order |
| Seqs.SumAppend | src/components/AdminAnalytics.tsx:79 | the sum of a concatenation is the sum of the parts |
| Seqs.SumPrefixStep | src/components/AdminAnalytics.tsx:79 | the sum of a prefix one longer adds the next element |
| Tally.SumPricesAppend | server/src/routes/analytics.ts:48 | revenue of a concatenation adds the revenues of the parts |
| Tally.StatusCountsPartition | src/components/AdminAnalytics.tsx:35-38 | the available, pending and sold counts add up to the number of cars |
| Tally.Round | server/src/routes/analytics.ts:17 | `Math.round(r / n)` is the integer nearest to r/n, halves rounded up, and is non-negative for non-negative r |
| Tally.RoundsToUnique | server/src/routes/analytics.ts:17 | only one integer is nearest to r/n |
| Tally.Bump | server/src/routes/analytics.ts:28 | `(acc[k] \|\| 0) + 1` adds `k` to the keys |
| Tally.MakeCounts | server/src/routes/analytics.ts:24-30 | the `byMake` record built car by car; every make in it has a count between 1 and the number of cars |
| Tally.MakeCountsKeys | server/src/routes/analytics.ts:24-30 | the histogram's keys are exactly the makes present |
| Tally.MakeCountsValues | server/src/routes/analytics.ts:24-30 | each make's count is the number of cars of that make |
| Tally.MapSumBump | server/src/routes/analytics.ts:28 | bumping a key adds one to the sum of the histogram |
| Tally.MakeCountsTotal | server/src/routes/analytics.ts:24-30 | the histogram's counts add up to the number of cars |
| ServerAnalytics.SoldPriceAggregate | server/src/routes/analytics.ts:13 | the price aggregate over sold cars is null exactly when no car is sold |
| ServerAnalytics.Summary | server/src/routes/analytics.ts:7-19 | the four counts, with the status counts adding up to the total; revenue is the sum of sold prices, and 0 when none is sold; the average is the nearest integer to revenue/sold, or 0 |
| ServerAnalytics.StatusCounts | server/src/routes/analytics.ts:25-29 | the `byStatus` record has exactly the keys available, pending and sold, and their counts add up to the number of cars |
| ServerAnalytics.Inventory | server/src/routes/analytics.ts:22-32 | the loop yields the make histogram and a status record with exactly the three statuses, which add up to the number of cars |
| ServerAnalytics.InventoryStep | server/src/routes/analytics.ts:27-30 | one more car bumps its make and its status |
| ServerAnalytics.CountStep | server/src/routes/analytics.ts:29 | one more car adds one to its own status count only |
| ServerAnalytics.InventoryByMakeTotal | server/src/routes/analytics.ts:24-30 | `byMake` adds up to the number of cars and gives each make its number of cars |
| ServerAnalytics.MonthBuckets | server/src/routes/analytics.ts:42-49 | the twelve buckets, numbered 1..12, hold each month's sale count and revenue |
| ServerAnalytics.TimeSeries | server/src/routes/analytics.ts:35-58 | twelve rows over the sold cars in the year's range, each with month `i + 1`, its count and revenue, `round(revenue / sales)` or 0, and the revenue of months 0..i as `cumulative` |
| ServerAnalytics.AvgPrice | server/src/routes/analytics.ts:54 | `sales ? Math.round(revenue / sales) : 0`: the nearest integer to revenue/sales, 0 without sales, never negative for non-negative revenue |
| ServerAnalytics.ExtendRows | server/src/routes/analytics.ts:51-55 | one more row with the running total plus its revenue keeps every earlier row's running total |
| ServerAnalytics.AppendRow | server/src/routes/analytics.ts:53 | appending a month adds its revenue to the total and keeps earlier prefixes |
| ServerAnalytics.MonthStep | server/src/routes/analytics.ts:45-49 | one more sale adds to its own month only |
| ServerAnalytics.ThroughCons | server/src/routes/analytics.ts:45-49 | a sale counts in the months up to `k` exactly when its month is before `k` |
| ServerAnalytics.MonthsPartition | server/src/routes/analytics.ts:45-49 | every sale lands in exactly one month: the twelve months hold all sales and all revenue |
| ServerAnalytics.TimeSeriesPrefix | server/src/routes/analytics.ts:51-55 | the first `k` rows hold the sales and revenue of the first `k` months |
| ServerAnalytics.TimeSeriesTotals | server/src/routes/analytics.ts:35-58 | the year's sales add up to the number of cars sold in range, and December's `cumulative` is their total revenue |
| ServerAnalytics.AgeDays | server/src/routes/analytics.ts:68 | `Math.floor((now - createdAt) / 86400000)` is the number of whole days elapsed |
| ServerAnalytics.BucketOf | server/src/routes/analytics.ts:69-71 | `<30` below 30 days, `30-60` from 30 to 59 days, `60+` from 60 |
| ServerAnalytics.AgeStep | server/src/routes/analytics.ts:66-72 | one more car adds one to its own age bucket if it is available, and nothing otherwise |
| ServerAnalytics.AgeBuckets | server/src/routes/analytics.ts:61-75 | each count is the number of available cars of that age; the three add up to the number of available cars |
| ServerAnalytics.AgeBucketsPartition | server/src/routes/analytics.ts:64-71 | every available car lands in exactly one age bucket |
| CarRoutes.KeyAt | server/src/routes/cars.ts:9-20 | the schema's keys are listed in their declared order |
| CarRoutes.SchemaKeysListed | server/src/routes/cars.ts:9-20 | every field key appears in the schema |
| CarRoutes.IssuesInSchemaOrder | server/src/routes/cars.ts:9-20 | the reported issues follow the order of the schema |
| CarRoutes.FieldOk | server/src/routes/cars.ts:9-20 | defines each key's rule: non-empty strings, the year range 1886..3000, non-negative price and mileage, the status enum, a VIN of at least 5 characters, an optional string description, a URL |
| CarRoutes.Issues | server/src/routes/cars.ts:9-20 | defines the reported keys as the failing keys in schema order; IssuesMeaning and IssuesInSchemaOrder state what they are |
| CarRoutes.IssuesMeaning | server/src/routes/cars.ts:9-20 | a key is reported exactly when its field check fails |
| CarRoutes.IssuesEmpty | server/src/routes/cars.ts:9-20 | no issue is reported exactly when every field check passes |
| CarRoutes.PassedChecks | server/src/routes/cars.ts:9-20 | a body with no issues passes each of the ten field checks |
| CarRoutes.Parse | server/src/routes/cars.ts:35 | a body is refused exactly when some check fails, with the failing keys; an accepted body gives well-formed fields: non-empty make, model and color, year an integer in 1886..3000, non-negative price, non-negative integer mileage, a listed status, VIN of length 5 or more, and an image URL |
| CarRoutes.Accept | server/src/routes/cars.ts:18 | a body that passed the checks gives well-formed fields |
| CarRoutes.ParseReadsBody | server/src/routes/cars.ts:9-20 | the parsed fields are the body's values; a missing description becomes the empty text |
| CarRoutes.NoIssues | server/src/routes/cars.ts:9-20 | passing each field check means no issue |
| CarRoutes.BodyOf | server/src/routes/cars.ts:9-20 | a record's fields are sent under every schema key |
| CarRoutes.ParseBodyOf | server/src/routes/cars.ts:9-20 | sending well-formed fields and parsing them gives back the same fields |
| CarRoutes.WithFields | server/src/routes/cars.ts:54-57 | an update replaces the schema fields and keeps id and timestamps |
| CarRoutes.InsertNewest | server/src/routes/cars.ts:23 | inserting a record keeps a list newest first and ids distinct, and adds exactly that record |
| CarRoutes.InsertKeepsTable | server/src/routes/cars.ts:36 | a new well-formed row under the next id, with a VIN no row holds, keeps the table consistent |
| CarRoutes.ReplaceKeepsTable | server/src/routes/cars.ts:54-57 | replacing a row by a well-formed one, with a VIN no other row holds, keeps the table consistent |
| CarRoutes.RemoveKeepsTable | server/src/routes/cars.ts:74 | removing a row keeps the table consistent |
| CarRoutes.CarStore.constructor | server/src/routes/cars.ts:3 | the `car` table the routes query through `prisma`, starting empty and consistent |
| CarRoutes.CarStore.List | server/src/routes/cars.ts:22-25 | every stored record exactly once, newest first |
| CarRoutes.CarStore.Get | server/src/routes/cars.ts:27-31 | the record under the id, or not found |
| CarRoutes.CarStore.Create | server/src/routes/cars.ts:33-49 | 400 with the issues for a bad body, 409 for a VIN in use, each with the table unchanged; otherwise 201 with one new record under a fresh id, created and updated now |
| CarRoutes.CarStore.Insert | server/src/routes/cars.ts:36 | the new row is stored under the next id and the table stays consistent |
| CarRoutes.CarStore.Update | server/src/routes/cars.ts:51-70 | 400 for a bad body, 404 for an unknown id, 409 for a VIN held by another record, each with the table unchanged; otherwise 200 with that record's fields replaced, updated now, and the other records untouched |
| CarRoutes.CarStore.Replace | server/src/routes/cars.ts:54-57 | only row `id` changes and the table stays consistent |
| CarRoutes.CarStore.Delete | server/src/routes/cars.ts:72-83 | 204 removes exactly that record; 404 leaves the table unchanged |
| CarRoutes.DeleteTwice | server/src/routes/cars.ts:72-83 | deleting the same id twice: the second attempt is 404 |
| Dashboard.StatusToBadgeVariant | src/components/CarInventoryDashboard.tsx:50-61 | available is success, pending is warning, sold is danger, never default |
| Dashboard.FilteredCars | src/components/CarInventoryDashboard.tsx:101-112 | a car is shown exactly when it matches the search, the status filter and the make filter |
| Dashboard.MatchesSearch | src/components/CarInventoryDashboard.tsx:102-107 | defines the search test: the lower-cased query in make, model or VIN lower-cased, or the raw query in the year's text |
| Dashboard.MatchesStatus | src/components/CarInventoryDashboard.tsx:109 | defines the status test: `all`, or the status's name |
| Dashboard.MatchesMake | src/components/CarInventoryDashboard.tsx:110 | defines the make test: `all`, or the exact make |
| Dashboard.FilteredKeepsOrder | src/components/CarInventoryDashboard.tsx:101-112 | the filtered list keeps the inventory's order |
| Dashboard.ContainsEmpty | src/components/CarInventoryDashboard.tsx:104 | every text contains the empty text |
| Dashboard.NoFilterShowsAll | src/components/CarInventoryDashboard.tsx:101-112 | an empty search with both filters `all` shows the whole list |
| Dashboard.InsertSorted | src/components/CarInventoryDashboard.tsx:114 | inserting into a sorted duplicate-free list keeps it so and adds exactly that make |
| Dashboard.UniqueMakes | src/components/CarInventoryDashboard.tsx:114 | the make list is sorted, has no duplicates, and holds exactly the makes present |
| Dashboard.SortedDistinct | src/components/CarInventoryDashboard.tsx:114 | a strictly sorted list has no duplicates |
| Dashboard.SortedUnique | src/components/CarInventoryDashboard.tsx:114 | two strictly sorted lists with the same elements are equal, so the make list is determined by the set of makes |
| Dashboard.UniqueMakesAreHistogramKeys | src/components/CarInventoryDashboard.tsx:114 | the make list holds the keys of the make histogram, each once |
| Dashboard.DistinctCard | src/components/CarInventoryDashboard.tsx:114 | a duplicate-free list has as many elements as its set |
| Dashboard.ReplaceById | src/components/CarInventoryDashboard.tsx:131 | the map replaces the records with that id and keeps every other record and the length |
| Dashboard.ReplaceKeepsIds | src/components/CarInventoryDashboard.tsx:131 | replacing by id keeps the ids and their distinctness |
| Dashboard.ReplaceAbsent | src/components/CarInventoryDashboard.tsx:131 | replacing an id that is absent changes nothing |
| Dashboard.RemoveById | src/components/CarInventoryDashboard.tsx:143 | a record remains exactly when it was in the list and has another id |
| Dashboard.RemoveByIdMultiset | src/components/CarInventoryDashboard.tsx:143 | every record with another id is kept as often as it occurred, and none with the removed id |
| Dashboard.RemoveKeepsOrder | src/components/CarInventoryDashboard.tsx:143 | removal keeps the order of the rest |
| Dashboard.RemoveUndoesAdd | src/components/CarInventoryDashboard.tsx:119 | removing a just-prepended car with a new id gives back the old list |
| Dashboard.AlertText | src/components/CarInventoryDashboard.tsx:122 | `e.message \|\| fallback`: the message if there is one, else the fallback |
| Dashboard.DashboardState.constructor | src/components/CarInventoryDashboard.tsx:66-73 | the loaded list, not editing, form hidden |
| Dashboard.DashboardState.HandleAddCar | src/components/CarInventoryDashboard.tsx:116-124 | success prepends the created car and closes the form; failure alerts and changes nothing |
| Dashboard.DashboardState.HandleEditCar | src/components/CarInventoryDashboard.tsx:126-138 | without a car under edit nothing happens; success replaces that id and closes the form; failure alerts and changes nothing |
| Dashboard.DashboardState.HandleDeleteCar | src/components/CarInventoryDashboard.tsx:140-147 | success removes every record with that id; failure alerts and changes nothing |
| AdminAnalytics.ReducePricesSum | src/components/AdminAnalytics.tsx:40-42 | the `reduce` over prices computes the sum |
| AdminAnalytics.ReducePrices | src/components/AdminAnalytics.tsx:42 | defines the left fold `reduce((sum, car) => sum + car.price, acc)`; ReducePricesSum gives its value |
| AdminAnalytics.KeyMetrics | src/components/AdminAnalytics.tsx:35-44 | the status counts add up to the inventory; revenue is the sum of sold prices; the average is the nearest integer to revenue/sold, or 0 |
| AdminAnalytics.StatusData | src/components/AdminAnalytics.tsx:58-62 | three slices, Available, Sold and Pending in that order, carrying the counts, which add up to the inventory |
| AdminAnalytics.CountIntoMakeCounts | src/components/AdminAnalytics.tsx:47-50 | the `reduce` into a record builds the make histogram |
| AdminAnalytics.CountInto | src/components/AdminAnalytics.tsx:47-50 | defines the left fold that bumps each car's make; CountIntoMakeCounts gives its value |
| AdminAnalytics.InventoryByMake | src/components/AdminAnalytics.tsx:47-50 | keys are the makes present, each with its number of cars, adding up to the inventory |
| AdminAnalytics.SalesByMake | src/components/AdminAnalytics.tsx:64-69 | keys are the makes of sold cars, each with its number of sales, adding up to the sold count |
| AdminAnalytics.RevenueSeq | src/components/AdminAnalytics.tsx:79 | the month revenues in order |
| AdminAnalytics.ReduceRevenueSum | src/components/AdminAnalytics.tsx:79 | the `reduce` over revenues computes the sum |
| AdminAnalytics.ReduceRevenue | src/components/AdminAnalytics.tsx:79 | defines the left fold over month revenues; ReduceRevenueSum gives its value |
| AdminAnalytics.CumulativeRevenue | src/components/AdminAnalytics.tsx:77-80 | every field is copied and `cumulative` at i is the revenue of months 0..i |
| AdminAnalytics.WithCumulative | src/components/AdminAnalytics.tsx:78-79 | defines `{ ...item, cumulative }`: every field of the month plus its running total |
| AdminAnalytics.CumulativeStep | src/components/AdminAnalytics.tsx:77-80 | the running total starts at the first revenue and grows by each next one |
| AdminAnalytics.Take | src/components/AdminAnalytics.tsx:335 | `slice(0, n)` is the prefix of length min(n, length) |
| AdminAnalytics.TopSellers | src/components/AdminAnalytics.tsx:333-335 | the first min(5, sold) sold cars, a prefix of the sold list |
| AdminAnalytics.TopSellersKeepOrder | src/components/AdminAnalytics.tsx:333-335 | the top sellers appear in the inventory in the same order |
| AdminAnalytics.PrefixSubsequence | src/components/AdminAnalytics.tsx:335 | a prefix of an order-preserving selection is order-preserving |
| Consistency.SummaryAgrees | src/components/AdminAnalytics.tsx:35-44 | the view's key metrics equal the server's `/summary` |
| Consistency.InventoryByMakeAgrees | src/components/AdminAnalytics.tsx:47-50 | the view's make histogram equals the server's `byMake` |
| CarForm.TrimStart | src/components/CarForm.tsx:43 | removes exactly the leading whitespace |
| CarForm.TrimEnd | src/components/CarForm.tsx:43 | removes exactly the trailing whitespace |
| CarForm.Trim | src/components/CarForm.tsx:43 | `trim()` leaves no whitespace at either end |
| CarForm.TrimTrimmed | src/components/CarForm.tsx:43 | trimming trimmed text changes nothing |
| CarForm.Collapse | src/components/CarForm.tsx:43 | `replace(/\s+/g, " ")` keeps whether the text starts with whitespace and keeps a first non-space character |
| CarForm.CollapseByPositions | src/components/CarForm.tsx:43 | every non-whitespace character is kept in order, and each maximal whitespace run becomes exactly one space |
| CarForm.CollapseIsCollapsed | src/components/CarForm.tsx:43 | after collapsing, every whitespace is one space with no whitespace after it |
| CarForm.CollapseKeepsLast | src/components/CarForm.tsx:43 | collapsing keeps a last character that is not whitespace |
| CarForm.CollapseCollapsed | src/components/CarForm.tsx:43 | collapsing collapsed text changes nothing |
| CarForm.TitleCase | src/components/CarForm.tsx:43 | `replace(/\b\w/g, toUpperCase)` upper-cases the word-initial characters only |
| CarForm.ShapeKeeps | src/components/CarForm.tsx:43 | a per-character case change keeps trimming, collapsing and word starts |
| CarForm.TitleCasedOfLower | src/components/CarForm.tsx:43 | title-casing lower-case text upper-cases exactly the word-initial letters |
| CarForm.LowerOfTitle | src/components/CarForm.tsx:43 | title-casing changes letter case only |
| CarForm.NormalizeMake | src/components/CarForm.tsx:42-43 | no whitespace at the ends, no run of whitespace, word-initial letters upper case and all others lower case; lower-cased it is the trimmed, collapsed, lower-cased input |
| CarForm.NormalizeMakeIdempotent | src/components/CarForm.tsx:42-43 | normalising twice is normalising once |
| CarForm.NormalizeMakeMerges | src/components/CarForm.tsx:41-43 | inputs that agree once lower-cased, trimmed and with whitespace runs made single spaces normalise to one spelling |
| CarForm.StripLeadingZero | src/components/CarForm.tsx:45 | drops only zeros, and only while a digit follows, leaving no zero that a digit follows |
| CarForm.StripLeadingZeroIdempotent | src/components/CarForm.tsx:45 | stripping twice is stripping once |
| CarForm.StripLeadingZeroExamples | src/components/CarForm.tsx:45 | "0" stays "0", "007" becomes "7", "000" becomes "0" |
| CarForm.DigitsValueLeadingZero | src/components/CarForm.tsx:45 | a leading zero does not change the value of a digit string |
| CarForm.StripKeepsValue | src/components/CarForm.tsx:45 | stripping leading zeros from a digit string keeps its value |
| CarForm.ToNumber | src/components/CarForm.tsx:56-58 | `Number` of the empty text is 0 and of a digit string its value; a negative result needs a minus sign |
| CarForm.ToNumberOfIntToString | src/components/CarForm.tsx:24-26 | `Number(String(n))` is `n` |
| CarForm.ToNumberStripped | src/components/CarForm.tsx:45 | stripping leading zeros does not change the number submitted |
| CarForm.IntToStringNoLeadingZero | src/components/CarForm.tsx:24-26 | a printed integer never starts with a zero that a digit follows |
| CarForm.InitialFields | src/components/CarForm.tsx:20-35 | a new form is blank with status available and the stock image; an edit form holds the car's fields and its numbers as text that reads back as those numbers |
| CarForm.HandleSubmit | src/components/CarForm.tsx:47-67 | refused exactly when make, model or year is empty, with the source's messages; otherwise the payload has the normalised make, the text fields verbatim, the numbers read from the inputs, and 0 for an empty price or mileage |
| CarForm.SubmitUnchangedEdit | src/components/CarForm.tsx:20-67 | an edit form submitted untouched sends back the car with only its make normalised |
| CarForm.SubmitBlankRefused | src/components/CarForm.tsx:20-51 | a new form submitted untouched is refused for make and model |
| CarForm.CarFormState.constructor | src/components/CarForm.tsx:20-35 | the state starts at the initial fields, with no leading zero in the numeric inputs |
| CarForm.CarFormState.SetMake | src/components/CarForm.tsx:81 | only the make changes |
| CarForm.CarFormState.SetModel | src/components/CarForm.tsx:86 | only the model changes |
| CarForm.CarFormState.SetYear | src/components/CarForm.tsx:99 | only the year changes, to the stripped input, and no numeric input has a leading zero |
| CarForm.CarFormState.SetPrice | src/components/CarForm.tsx:113 | only the price changes, to the stripped input, and no numeric input has a leading zero |
| CarForm.CarFormState.SetMileage | src/components/CarForm.tsx:126 | only the mileage changes, to the stripped input, and no numeric input has a leading zero |
| CarForm.CarFormState.SetColor | src/components/CarForm.tsx:132 | only the color changes |
| CarForm.CarFormState.SetStatus | src/components/CarForm.tsx:137 | only the status changes |
| CarForm.CarFormState.SetVin | src/components/CarForm.tsx:151 | only the VIN changes |
| CarForm.CarFormState.SetImageUrl | src/components/CarForm.tsx:156 | only the image URL changes |
| CarForm.CarFormState.SetDescription | src/components/CarForm.tsx:163 | only the description changes |
| CarForm.CarFormState.Submit | src/components/CarForm.tsx:47-67 | the outcome of the submit guard on the current fields, refused exactly when make, model or year is empty |

## Left out

- Prisma queries, the Express app, HTTP transport, logging and the `fetch` wrappers are not part of this model. Queries become record sequences or the `CarStore` map. API calls become `ApiResult` inputs.
- The 500 replies for unexpected errors are left out. Prisma's P2002 and P2025 errors are modelled as the store's "VIN in use" and "id absent" outcomes.
- zod reports issue objects with messages and paths. The model reports only the failing keys, in schema order.
- The request body is a map from the ten schema keys to JSON values. Unknown properties are dropped, as zod does by default.
- `z.string().url()` is the parameter `isUrl`. URL syntax is not modelled.
- Tally.MakeCounts, AdminAnalytics.InventoryByMake, AdminAnalytics.SalesByMake: the histograms are maps, while the source bumps counts on a plain `{}` (server/src/routes/analytics.ts:28, src/components/AdminAnalytics.tsx:48 and :67). A make that names an `Object.prototype` property behaves differently there: `"__proto__"` reads the prototype, and the setter drops the string `"[object Object]1"`, so the make is missing from `byMake`; `"constructor"` ends up with a string count. The totals proved here (`Tally.MakeCountsTotal`, `ServerAnalytics.InventoryByMakeTotal`, `AdminAnalytics.InventoryByMake`, `AdminAnalytics.SalesByMake`) hold for makes that are not such property names.
- CarRoutes.Parse: refuses a price with a fractional part, although the schema accepts any non-negative number, because prices are integers here.
- server/prisma/schema.prisma is not part of this model. Ids come from a counter. `createdAt`/`updatedAt` are set to the given `now`.
- The routes never write `soldAt`: the schema has no such field. So a car marked sold through the API keeps whatever `soldAt` it had, as in the code.
- Calendars and time zones are left out. `/time-series` takes the year as the instants `[from, to)`, and each sale carries the month index that `getMonth()` gives. `Number(req.query.year) || currentYear` is not modelled.
- The mock sales data, the random chart colours, `inventoryAgeData`, `getTimeFilterLabel`, `toLocaleString` and all JSX are left out. They are random, floating-point or presentation.
- `cumulativeRevenueData` is modelled over any sequence of month points, not the random mock data it is fed.
- CarForm.ToNumber: covers the empty text, decimal digits and a minus sign followed by digits; everything else is NaN. Surrounding whitespace, fractions, exponents, hexadecimal and `Infinity` are not modelled. Number inputs in a browser hold integer text here.
- Text.ToLower: maps ASCII letters only. So `toLowerCase`, `toUpperCase` and the `\s`/`\w` classes are modelled for ASCII text.
- Text.StrLess: compares characters by code point, which equals the UTF-16 order of `sort()` on ASCII text.
- Field-level `useState` renders, `useEffect` loading, the abort controller, the login flow and the detail page are left out.

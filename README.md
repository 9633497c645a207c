# ExpressRequest, modelled in Dafny

ExpressRequest is a CakePHP plugin. It turns the query string of an HTTP
request into a filtered, sorted and limited repository query. A repository
declares a `FiltersCollection` made of six filter kinds: boolean, null,
number, text search, list membership and date. A component reads the request
in two stages.

First it reads the parameters it reserves for itself into an `ExpressParams`:
- `props`, the selected fields;
- `size`, the page size;
- `sort`, the ordering;
- `page`, the page;
- `nested`, the contained relations.

Every other parameter is bound to the filter of the same name through that
filter's `setValue`. The result may be cached under a hash of the URL.

Then `FilterRepositoryService` applies the `ExpressParams` to the query. It
makes the select, order and contain calls, then one `where` that holds the
predicates of every processable filter in declaration order.

`ExpressRequestComponent` reconfigures an `ExpressConfig` from the request
and has no paging steps. `ExpressParamsComponent` has the paging steps and
works out the page request that goes to the paginator.

The model follows the source file by file, with one Dafny module per file:
- **Filters and state holders.** Each filter class, `FiltersCollection`,
  `ExpressParams`, `ExpressConfig`, `QueryExpression` and `Query` is a Dafny
  `class` whose methods update its fields in place.
- **Snapshots.** Every class has a `State()` snapshot. Each method is proved
  against a pure function of the old snapshot.
- **Mixed code.** The loops of the collection (`each`, `eachProcessable`)
  are `while` loops with invariants.
- **Pure code.** Request reading, composition and the cache are pure
  functions, with lemmas on top.
- **The heterogeneous collection.** `Filters.Filter` is a datatype over the
  six classes. It stands for the `FilterTypeInterface` values the collection
  holds, and its operations dispatch on the kind.

PHP's `strict_types` type errors, its `ErrorException` for an empty alias,
and the `Error` raised when an object is used as an array are all modelled
as `Status`/`Result` values. The wrapped call chain stops at the first such
error, as it does in PHP.

## Model

| member | source | states |
|---|---|---|
| PhpValues.Lookup | src/FunctionalClosure.php:8-13 | the value read for a present key is the value of an entry with that key |
| PhpValues.FirstKey | src/Filters/NullFilter.php:47 | `key()` yields a key exactly when the array is not empty, and then it is the first key |
| PhpValues.Coalesce | src/Types/ExpressConfig.php:65-66 | `??` yields the entry when it is set and not null, and the default otherwise |
| PhpValues.IntCastOfDecimal | src/Types/ExpressConfig.php:133-140 | the decimal form of every integer is numeric; `(int)` reads it back as that integer within PHP's 64-bit range and saturates beyond it, at `PHP_INT_MAX` above and `PHP_INT_MIN` below |
| PhpValues.Coerce | src/Filters/NumberFilter.php:59 | numeric coercion gives an integer exactly for decimal integer strings within the 64-bit range, and that integer is the string's decimal value; any other text, a float beyond that range included, is kept as it is |
| PhpValues.CoerceOfDecimal | src/Filters/NumberFilter.php:59 | coercion reads back the decimal form of every integer within the 64-bit range; beyond it the result is a float, kept as the text |
| PhpValues.CoercePaddedAndSigned | src/Filters/NumberFilter.php:59 | leading zeros and a `+` sign leave the integer unchanged: '007' is 7 and '+5' is 5 |
| PhpStrings.Split | src/Filters/SearchInFilter.php:40 | `explode` never returns an empty list |
| PhpStrings.SplitJoin | src/Filters/SearchInFilter.php:40 | joining the pieces of `explode` with the same separator gives back the input |
| PhpStrings.SplitSingle | src/Filters/NumberFilter.php:47 | `explode` yields a single piece exactly when the separator does not occur |
| PhpStrings.SplitAvoiding | src/Filters/NumberFilter.php:47 | a piece that cannot contain the separator is not split |
| PhpStrings.SplitAvoidingPrefix | src/Filters/NumberFilter.php:47 | such a piece followed by the separator is split off as the first piece |
| PhpStrings.SplitPrefix | src/Filters/NumberFilter.php:47 | a piece in which no occurrence of the separator starts is split off as the first piece when the separator follows it |
| PhpStrings.SplitWhole | src/Filters/NumberFilter.php:47 | a string without the separator is its own single piece |
| PhpStrings.JoinSplit | src/Filters/SearchInFilter.php:40 | splitting pieces joined with a separator that none of them touches gives back the pieces |
| PhpStrings.Lower | src/Controller/Component/ExpressRequestComponent.php:165 | `strtolower` keeps the length and lower-cases each character |
| PhpStrings.LowerAll | src/Controller/Component/ExpressRequestComponent.php:165-166 | `array_map('strtolower', …)` lower-cases every item, in place |
| PhpStrings.DecimalRoundTrip | src/Types/ExpressConfig.php:135-138 | the decimal form of every integer is a decimal integer whose value is that integer |
| ExpressConfigs.ExpressConfig.constructor | src/Types/ExpressConfig.php:21-38 | the given settings, on page 1, not limited, with no keywords |
| ExpressConfigs.ExpressConfig.Factory | src/Types/ExpressConfig.php:40-56 | the component's settings and its reserved keywords, on page 1, not limited |
| ExpressConfigs.IsEnabled | src/functions.php:16-19 | null is false, a boolean is itself, an array is refused (null) |
| ExpressConfigs.IsEnabledSpellings | src/functions.php:16-19 | true/false, 1/0, 'true'/'false' and 'TRUE'/'FALSE' are read back as that boolean |
| ExpressConfigs.GetReserved | src/Types/ExpressConfig.php:79-85 | the configured keyword for a key when there is one, else the default |
| ExpressConfigs.SetSizeSpec | src/Types/ExpressConfig.php:133-140 | a numeric size becomes the smaller of that size and the maximum; anything else leaves the state; only `size` changes |
| ExpressConfigs.SetCurrentPageSpec | src/Types/ExpressConfig.php:154-161 | a numeric page becomes the current page; anything else leaves the state; only `currentPage` changes |
| ExpressConfigs.ReconfigureFrame | src/Types/ExpressConfig.php:58-71 | `reconfigure` leaves the maximum, ssl, full-url, cache, cache configuration and keywords as they were |
| ExpressConfigs.ReconfigureSizeCases | src/Types/ExpressConfig.php:58-71 | the size after `reconfigure`, in each of its three cases: absent (the current size, capped), numeric (capped) and not numeric (unchanged) |
| ExpressConfigs.ReconfigureCapsSize | src/Types/ExpressConfig.php:58-71 | a size within the maximum stays within it |
| ExpressConfigs.ReconfigureLimitFlag | src/Types/ExpressConfig.php:60-62 | the limited flag is set exactly when it was set before or the request has the size key |
| ExpressConfigs.ReconfigureSize | src/Types/ExpressConfig.php:58-71 | a decimal size in the request is taken, saturated at the 64-bit range and capped at the maximum |
| ExpressConfigs.ReconfigureSizeAbsent | src/Types/ExpressConfig.php:58-71 | without a size in the request the current size is kept, capped at the maximum |
| ExpressConfigs.ReconfigurePage | src/Types/ExpressConfig.php:58-71 | the page is taken from the request when numeric, is 1 when absent, and stays as it was when present but not numeric |
| ExpressConfigs.ReconfigurePagination | src/Types/ExpressConfig.php:68 | pagination stays on exactly when it was on and `noPage` is not set |
| ExpressConfigs.ReconfigureIdempotent | src/Types/ExpressConfig.php:58-71 | reconfiguring twice with the same options is the same as reconfiguring once |
| ExpressConfigs.ExpressConfig.Reconfigure | src/Types/ExpressConfig.php:58-71 | the new state is `ReconfigureSpec` of the old one |
| ExpressConfigs.ExpressConfig.SetPagination | src/Types/ExpressConfig.php:99-103 | stores the boolean `isEnabled` reads; a value it refuses raises a type error and changes nothing |
| ExpressConfigs.ExpressConfig.SetMaxSize | src/Types/ExpressConfig.php:116-119 | only the maximum changes |
| ExpressConfigs.ExpressConfig.SetSize | src/Types/ExpressConfig.php:133-140 | the new state is `SetSizeSpec` of the old one |
| ExpressConfigs.ExpressConfig.SetCurrentPage | src/Types/ExpressConfig.php:154-161 | the new state is `SetCurrentPageSpec` of the old one |
| ExpressConfigs.ExpressConfig.SetSsl | src/Types/ExpressConfig.php:184-188 | only the ssl flag changes |
| ExpressConfigs.ExpressConfig.SetFullUrl | src/Types/ExpressConfig.php:201-204 | only the full-url flag changes |
| ExpressConfigs.ExpressConfig.SetCache | src/Types/ExpressConfig.php:217-220 | only the cache flag changes |
| ExpressConfigs.ExpressConfig.SetCacheConfig | src/Types/ExpressConfig.php:233-236 | only the cache configuration name changes |
| Expressions.QueryExpression.constructor | src/FilterRepositoryService.php:25-26 | a new expression holds no condition |
| Expressions.QueryExpression.Add | src/Filters/BooleanFilter.php:61-67 | a predicate builder call appends exactly its condition |
| Expressions.Query.constructor | src/FilterRepositoryService.php:13 | the query handed to the service, with the calls already made on it |
| Expressions.Query.Select | src/FilterRepositoryService.php:15-17 | appends one `select` of the fields |
| Expressions.Query.Order | src/FilterRepositoryService.php:19-20 | appends one `order` with its argument |
| Expressions.Query.Contain | src/FilterRepositoryService.php:21-23 | appends one `contain` of the relations |
| Expressions.Query.Where | src/FilterRepositoryService.php:38 | appends one `where` holding the expression's conditions |
| Expressions.Query.NewExpr | src/FilterRepositoryService.php:25-26 | a fresh, empty expression, with the query unchanged |
| BooleanFilters.Fresh | src/Filters/BooleanFilter.php:22-25 | a new filter has its name, is not processable and holds no value |
| BooleanFilters.SetValueSpec | src/Filters/BooleanFilter.php:32-54 | a true spelling stores true and a false spelling stores false, both marking the filter processable; any other input leaves the state; the name never changes |
| BooleanFilters.Contribution | src/Filters/BooleanFilter.php:61-67 | when processable, one `eq` on the bare, unaliased name whose argument is the stored boolean; nothing otherwise |
| BooleanFilters.LiteralsDisjoint | src/Filters/BooleanFilter.php:34-53 | no input is both a true and a false spelling |
| BooleanFilters.NearMissesRejected | src/Filters/BooleanFilter.php:34-53 | 'TRUE', 'yes', '', 2 and null leave the state as it was (strict comparison) |
| BooleanFilters.SpellingRoundTrip | src/Filters/BooleanFilter.php:34-53 | 'true'/'false', true/false and 1/0 are read back as that boolean |
| BooleanFilters.SpellingProcesses | src/Filters/BooleanFilter.php:32-67 | any accepted spelling of a boolean, given to a new filter, makes `process` add exactly `eq(name, b)` for that boolean |
| BooleanFilters.SetValueIdempotent | src/Filters/BooleanFilter.php:32-54 | giving the same input twice is the same as giving it once |
| BooleanFilters.ProcessableSticks | src/Filters/BooleanFilter.php:32-54 | no input makes a processable filter unprocessable |
| BooleanFilters.BooleanFilter.constructor | src/Filters/BooleanFilter.php:22-25 | the object holds `Fresh(name)` |
| BooleanFilters.BooleanFilter.Restore | src/Controller/Component/ExpressRequestComponent.php:256-263 | an object read back from the cache holds the stored state |
| BooleanFilters.BooleanFilter.SetProcessable | src/Filters/ProcessableFilterTrait.php:15-18 | only the flag changes, to true |
| BooleanFilters.BooleanFilter.SetCantProcess | src/Filters/ProcessableFilterTrait.php:10-13 | only the flag changes, to false |
| BooleanFilters.BooleanFilter.IsProcessable | src/Filters/ProcessableFilterTrait.php:20-23 | the flag of the state |
| BooleanFilters.BooleanFilter.SetValue | src/Filters/BooleanFilter.php:32-54 | the new state is `SetValueSpec` of the old one |
| BooleanFilters.BooleanFilter.Process | src/Filters/BooleanFilter.php:61-67 | appends exactly `Contribution` to the expression |
| NullFilters.Fresh | src/Filters/NullFilter.php:27-30 | a new filter has its name, is not processable and has no mode or value |
| NullFilters.Normalise | src/Filters/NullFilter.php:39-41 | the string 'null' becomes the map `{is: 'null'}`; every other input stays as it is |
| NullFilters.SetValueSpec | src/Filters/NullFilter.php:37-56 | a non-array leaves the state; for a map the mode is its first key, the filter is processable exactly when that key is `is` or `not`, and the whole map is stored only then |
| NullFilters.Contribution | src/Filters/NullFilter.php:63-70 | exactly one `isNull` on `alias.name` with no argument |
| NullFilters.NullStringIsIsMap | src/Filters/NullFilter.php:39-41 | 'null' behaves exactly as `{is: 'null'}` and makes the filter processable |
| NullFilters.EmptyMapRejected | src/Filters/NullFilter.php:47-52 | an empty map sets the mode to null and the filter to unprocessable, and changes nothing else |
| NullFilters.ModeIgnoredByProcess | src/Filters/NullFilter.php:63-70 | both modes produce the same predicate: `not` does not negate |
| NullFilters.SetValueIdempotent | src/Filters/NullFilter.php:37-56 | giving the same input twice is the same as giving it once |
| NullFilters.NullFilter.constructor | src/Filters/NullFilter.php:27-30 | the object holds `Fresh(name)` |
| NullFilters.NullFilter.Restore | src/Controller/Component/ExpressRequestComponent.php:256-263 | an object read back from the cache holds the stored state |
| NullFilters.NullFilter.SetProcessable | src/Filters/ProcessableFilterTrait.php:15-18 | only the flag changes, to true |
| NullFilters.NullFilter.SetCantProcess | src/Filters/ProcessableFilterTrait.php:10-13 | only the flag changes, to false |
| NullFilters.NullFilter.IsProcessable | src/Filters/ProcessableFilterTrait.php:20-23 | the flag of the state |
| NullFilters.NullFilter.SetValue | src/Filters/NullFilter.php:37-56 | the new state is `SetValueSpec` of the old one |
| NullFilters.NullFilter.Process | src/Filters/NullFilter.php:63-70 | appends exactly `Contribution` to the expression |
| NumberFilters.Fresh | src/Filters/NumberFilter.php:26-31 | a new filter has its name, operator `eq`, is not processable and has no mode or value |
| NumberFilters.OperatorSpec | src/Filters/NumberFilter.php:85-96 | a map whose first key is `lt`, `lte`, `gt` or `gte` sets the operator to that key and unwraps its value; anything else is passed on unchanged; only the operator changes |
| NumberFilters.SetValueSpec | src/Filters/NumberFilter.php:38-66 | after the operator step: an array is ignored; a non-string raises a type error and changes nothing else; a string without `..` is coerced whole, in mode exact; a string with one `..` becomes a range, in mode between, whose two ends joined by `..` are the string; a string with more is ignored; each case marks the filter processable exactly when it stores a value |
| NumberFilters.Contribution | src/Filters/NumberFilter.php:73-83 | one predicate on `alias.name`: the operator with the number in exact mode, otherwise `between` with the two range ends |
| NumberFilters.SetValueKeepsConsistent | src/Filters/NumberFilter.php:38-66 | mode and value always change together: no mode with no value, exact with a number, between with a pair |
| NumberFilters.OperatorOnlyOverwritten | src/Filters/NumberFilter.php:13-15 | the operator is kept or becomes one of the four comparison keys |
| NumberFilters.ExactRoundTrip | src/Filters/NumberFilter.php:56-61 | a decimal integer is read back as that integer, with mode exact; beyond the 64-bit range it stays the text of a float |
| NumberFilters.RangeRoundTrip | src/Filters/NumberFilter.php:63-65 | `lo..hi`, where this `..` is the first (no `..` starts inside `lo`) and the only one, is read back as the range from lo to hi, with both ends kept as strings, for example `1.5..2.5` |
| NumberFilters.TooManyRangesIgnored | src/Filters/NumberFilter.php:49-51 | any string with two `..` or more leaves the whole state as it was, the flag included |
| NumberFilters.OperatorMapRoundTrip | src/Filters/NumberFilter.php:85-96 | `{op: n}` applies the operator to that integer, in exact mode (a float text beyond the 64-bit range) |
| NumberFilters.NumberFilter.constructor | src/Filters/NumberFilter.php:28-31 | the object holds `Fresh(name)` |
| NumberFilters.NumberFilter.Restore | src/Controller/Component/ExpressRequestComponent.php:256-263 | an object read back from the cache holds the stored state |
| NumberFilters.NumberFilter.SetProcessable | src/Filters/ProcessableFilterTrait.php:15-18 | only the flag changes, to true |
| NumberFilters.NumberFilter.SetCantProcess | src/Filters/ProcessableFilterTrait.php:10-13 | only the flag changes, to false |
| NumberFilters.NumberFilter.IsProcessable | src/Filters/ProcessableFilterTrait.php:20-23 | the flag of the state |
| NumberFilters.NumberFilter.SetOperatorIfValueIsArray | src/Filters/NumberFilter.php:85-96 | the new state and the unwrapped value are `OperatorSpec` of the old state and the input |
| NumberFilters.NumberFilter.SetValue | src/Filters/NumberFilter.php:38-66 | the new state and the status are `SetValueSpec` of the old state and the input |
| NumberFilters.NumberFilter.Process | src/Filters/NumberFilter.php:73-83 | appends exactly `Contribution` to the expression |
| SearchFilters.Fresh | src/Filters/SearchFilter.php:32-36 | a new filter has its name and strategy, is not processable and holds null |
| SearchFilters.Wrap | src/Filters/SearchFilter.php:43-63 | a wrapping strategy adds two wildcards for `partial` and one for `start` or `end`: a leading `%` except for `start`, a trailing `%` except for `end` |
| SearchFilters.SetValueSpec | src/Filters/SearchFilter.php:43-63 | processable exactly for the four known strategies; a wrapping strategy stores a pattern that has the strategy's `%` wildcards and whose unwrapping is the input as a string; otherwise the input is stored as it is |
| SearchFilters.Contribution | src/Filters/SearchFilter.php:70-77 | one predicate on `alias.name` with the value: `eq` for `exact`, `like` otherwise |
| SearchFilters.WrapRoundTrip | src/Filters/SearchFilter.php:43-63 | stripping the added `%` wildcards gives back the text, for every wrapping strategy |
| SearchFilters.UnwrapRoundTrip | src/Filters/SearchFilter.php:43-63 | conversely, a pattern carrying a strategy's wildcards is the wrapping of the text it reads back to |
| SearchFilters.UnwrapRejects | src/Filters/SearchFilter.php:43-63 | a pattern that starts and ends with a character other than `%` is the wrapping of no text |
| SearchFilters.SetValueWraps | src/Filters/SearchFilter.php:43-63 | the stored pattern is exactly the wrapped string form of the input |
| SearchFilters.SetValueForgetsPast | src/Filters/SearchFilter.php:43-63 | the result does not depend on the earlier value or flag |
| SearchFilters.SearchFilter.constructor | src/Filters/SearchFilter.php:32-36 | `new SearchFilter($name)` uses the `exact` strategy |
| SearchFilters.SearchFilter.WithMode | src/Filters/SearchFilter.php:32-36 | `new SearchFilter($name, $mode)` holds `Fresh(name, mode)` |
| SearchFilters.SearchFilter.Restore | src/Controller/Component/ExpressRequestComponent.php:256-263 | an object read back from the cache holds the stored state |
| SearchFilters.SearchFilter.SetProcessable | src/Filters/ProcessableFilterTrait.php:15-18 | only the flag changes, to true |
| SearchFilters.SearchFilter.SetCantProcess | src/Filters/ProcessableFilterTrait.php:10-13 | only the flag changes, to false |
| SearchFilters.SearchFilter.IsProcessable | src/Filters/ProcessableFilterTrait.php:20-23 | the flag of the state |
| SearchFilters.SearchFilter.SetValue | src/Filters/SearchFilter.php:43-63 | the new state is `SetValueSpec` of the old one |
| SearchFilters.SearchFilter.Process | src/Filters/SearchFilter.php:70-77 | appends exactly `Contribution` to the expression |
| SearchInFilters.Fresh | src/Filters/SearchInFilter.php:19-24 | a new filter has its name, operator `in`, is not processable and holds no list |
| SearchInFilters.InOperatorSpec | src/Filters/SearchInFilter.php:64-75 | a map whose first key is `not` sets the operator to `notIn` and unwraps its value; anything else is passed on unchanged; only the operator changes |
| SearchInFilters.SetValueSpec | src/Filters/SearchInFilter.php:31-48 | after the operator step: an array is ignored, a non-string raises a type error, and a string stores a non-empty list that joins back to it and marks the filter processable |
| SearchInFilters.Contribution | src/Filters/SearchInFilter.php:55-62 | one predicate with the operator on `alias.name`, holding the list |
| SearchInFilters.NotInSticks | src/Filters/SearchInFilter.php:64-75 | nothing sets the operator back from `notIn` to `in` |
| SearchInFilters.OperatorStaysInRange | src/Filters/SearchInFilter.php:19 | the operator is always `in` or `notIn` |
| SearchInFilters.ListRoundTrip | src/Filters/SearchInFilter.php:40-46 | a list of comma-free items is read back item for item, in order and untrimmed |
| SearchInFilters.SingleItem | src/Filters/SearchInFilter.php:40-46 | an item without a comma is read as a one-element list |
| SearchInFilters.SearchInFilter.constructor | src/Filters/SearchInFilter.php:21-24 | the object holds `Fresh(name)` |
| SearchInFilters.SearchInFilter.Restore | src/Controller/Component/ExpressRequestComponent.php:256-263 | an object read back from the cache holds the stored state |
| SearchInFilters.SearchInFilter.SetProcessable | src/Filters/ProcessableFilterTrait.php:15-18 | only the flag changes, to true |
| SearchInFilters.SearchInFilter.SetCantProcess | src/Filters/ProcessableFilterTrait.php:10-13 | only the flag changes, to false |
| SearchInFilters.SearchInFilter.IsProcessable | src/Filters/ProcessableFilterTrait.php:20-23 | the flag of the state |
| SearchInFilters.SearchInFilter.SetInOperator | src/Filters/SearchInFilter.php:64-75 | the new state and the unwrapped value are `InOperatorSpec` of the old state and the input |
| SearchInFilters.SearchInFilter.SetValue | src/Filters/SearchInFilter.php:31-48 | the new state and the status are `SetValueSpec` of the old state and the input |
| SearchInFilters.SearchInFilter.Process | src/Filters/SearchInFilter.php:55-62 | appends exactly `Contribution` to the expression |
| DateTokens.RemoveDashes | src/Filters/SearchDateFilter.php:115 | `str_replace('-', '', …)` leaves no dash |
| DateTokens.FindDashedDate | src/Filters/SearchDateFilter.php:128-130 | a match of the unanchored dashed pattern names a date within the pattern's ranges |
| DateTokens.ShapeDate | src/Filters/SearchDateFilter.php:116-126 | the date `createFromFormat` builds from a year, year-and-month or year-month-day token is within the pattern ranges |
| DateTokens.CreateDateFromString | src/Filters/SearchDateFilter.php:113-133 | every date it returns is within the pattern ranges (year 1000-2999, month 1-12, day 1-31); the only error it raises is a type error |
| DateTokens.DashedPatternNeverMatches | src/Filters/SearchDateFilter.php:115-130 | after the dashes are removed, the fourth, dashed pattern can never match |
| DateTokens.CreateDateShapes | src/Filters/SearchDateFilter.php:113-133 | a token parses exactly when its dash-free form is a year, a year and month, or a year, month and day; it raises exactly when that form is one of them followed by a newline, which `$` lets through and `createFromFormat` rejects |
| DateTokens.NewlineRaises | src/Filters/SearchDateFilter.php:113-126 | one of the three shapes followed by a newline raises a type error: `createFromFormat` returns false, which the `?\DateTime` return type refuses |
| DateTokens.NewlineYearExample | src/Filters/SearchDateFilter.php:116-118 | '2020' followed by a newline raises a type error |
| DateTokens.DashesIgnored | src/Filters/SearchDateFilter.php:115 | a token and its dash-free form name the same date |
| DateTokens.YearToken | src/Filters/SearchDateFilter.php:116-118 | '2020' is the first of January 2020 |
| DateTokens.YearMonthShape | src/Filters/SearchDateFilter.php:120-122 | a year and month, with or without a dash, is the first of that month |
| DateTokens.YearMonthDayShape | src/Filters/SearchDateFilter.php:124-126 | a year, month and day, with or without dashes, names that day |
| DateTokens.YearMonthToken | src/Filters/SearchDateFilter.php:120-122 | '2020-03' is the first of March 2020 |
| DateTokens.MonthThirteenRejected | src/Filters/SearchDateFilter.php:120-122 | '202013' is rejected: month 13 is outside the pattern |
| SearchDateFilters.Fresh | src/Filters/SearchDateFilter.php:22-37 | a new filter: not processable, no value, no mode, operators `eq`, `gte`, `lte` |
| SearchDateFilters.OperatorSpec | src/Filters/SearchDateFilter.php:135-146 | answers true exactly for a map with a comparison key first, and then writes that key into the named operator property; otherwise nothing changes |
| SearchDateFilters.SetValueWith | src/Filters/SearchDateFilter.php:44-63 | the name never changes; only a string or a map can raise, and then with a type error; a value that is neither string nor array changes nothing |
| SearchDateFilters.SetValueAsWritten | src/Filters/SearchDateFilter.php:44-63 | `setValue` as written keeps the name and raises only type errors; it agrees with the corrected reading on everything but a one-entry map, and there it has the same status and differs at most in the mode left unset |
| SearchDateFilters.Contribution | src/Filters/SearchDateFilter.php:70-81 | processing fails, indexing a `DateTime` as an array, exactly when the mode is not exact and the value is one date; the exact mode adds one predicate and a pair adds the two operators' predicates |
| SearchDateFilters.ValidContributes | src/Filters/SearchDateFilter.php:70-81 | a processable filter whose mode matches its value processes without error, adding one predicate in exact mode and two otherwise |
| SearchDateFilters.SetValueKeepsValid | src/Filters/SearchDateFilter.php:44-63 | the corrected `setValue` keeps a filter's mode matching its value |
| SearchDateFilters.TooManyRangesIgnored | src/Filters/SearchDateFilter.php:158-161 | any string with two `..` or more changes nothing |
| SearchDateFilters.SingleToken | src/Filters/SearchDateFilter.php:156-175 | a string without `..` raises exactly when its token raises, and then is left processable with nothing else changed; otherwise the mode becomes exact, the filter stays processable exactly when the token parses and then holds that date, and no operator changes |
| SearchDateFilters.NewlineTokenRaises | src/Filters/SearchDateFilter.php:44-48 | `setValue("2020\n")` on a new filter raises a type error, leaving it processable |
| SearchDateFilters.TwoTokens | src/Filters/SearchDateFilter.php:156-175 | `d1..d2`, with this `..` the only one, raises exactly when a token raises; otherwise it stays processable exactly when both tokens parse, and then has mode between and holds the pair; otherwise mode and value are kept |
| SearchDateFilters.MapSizeRejected | src/Filters/SearchDateFilter.php:187-190 | a map with no entry or more than two marks the filter unprocessable and changes nothing else |
| SearchDateFilters.OneOperatorCorrected | src/Filters/SearchDateFilter.php:192-195 | corrected: `{op: token}` holds that date with that operator in exact mode, and processes to one `op` predicate |
| SearchDateFilters.OneOperatorAsWritten | src/Filters/SearchDateFilter.php:192-195 | as written: on a new filter, `{op: token}` leaves the mode unset, so the processable filter fails when processed |
| SearchDateFilters.OneOperatorAsWrittenExample | src/Filters/SearchDateFilter.php:192-195 | as written: `{gte: '2020'}` on a new filter is processable and fails when processed |
| SearchDateFilters.TwoOperators | src/Filters/SearchDateFilter.php:197-204 | `{op1: t1, op2: t2}` sets the two operators in map order, searches the period, and processes to the two predicates |
| SearchDateFilters.SecondKeyNotOperator | src/Filters/SearchDateFilter.php:197-206 | a second key that is not an operator rejects the map, after `firstOperator` has been written |
| SearchDateFilters.FirstKeyNotOperator | src/Filters/SearchDateFilter.php:197-206 | a first key that is not an operator rejects the map and writes no operator |
| SearchDateFilters.SearchDateFilter.constructor | src/Filters/SearchDateFilter.php:34-37 | the object holds `Fresh(name)` |
| SearchDateFilters.SearchDateFilter.Restore | src/Controller/Component/ExpressRequestComponent.php:256-263 | an object read back from the cache holds the stored state |
| SearchDateFilters.SearchDateFilter.SetProcessable | src/Filters/ProcessableFilterTrait.php:15-18 | only the flag changes, to true |
| SearchDateFilters.SearchDateFilter.SetCantProcess | src/Filters/ProcessableFilterTrait.php:10-13 | only the flag changes, to false |
| SearchDateFilters.SearchDateFilter.IsProcessable | src/Filters/ProcessableFilterTrait.php:20-23 | the flag of the state |
| SearchDateFilters.SearchDateFilter.SetOneDateSearch | src/Filters/SearchDateFilter.php:83-93 | the new state and status are `OneDateSpec`: holds the parsed date, becomes unprocessable, or raises the token's type error |
| SearchDateFilters.SearchDateFilter.SetTwoDateSearch | src/Filters/SearchDateFilter.php:95-107 | the new state and status are `TwoDateSpec`: holds both dates in mode between, becomes unprocessable, or raises the first type error |
| SearchDateFilters.SearchDateFilter.SetOperatorIfValueIsArray | src/Filters/SearchDateFilter.php:135-146 | the new state and the answer are `OperatorSpec` of the old state |
| SearchDateFilters.SearchDateFilter.SetPeriodByParseString | src/Filters/SearchDateFilter.php:156-175 | the new state and status are `PeriodSpec` of the old state |
| SearchDateFilters.SearchDateFilter.SetDateByArray | src/Filters/SearchDateFilter.php:182-207 | the new state and status are the corrected `DateByArraySpec` |
| SearchDateFilters.SearchDateFilter.SetValue | src/Filters/SearchDateFilter.php:44-63 | the new state and status are the corrected `SetValueSpec` |
| SearchDateFilters.SearchDateFilter.Process | src/Filters/SearchDateFilter.php:70-81 | appends `Contribution` on success; on failure raises its error and adds nothing |
| Filters.IsProcessable | src/Filters/FilterTypeInterface.php:18 | `isProcessable()` of any kind is the flag of its state |
| Filters.SetValueOf | src/Filters/FilterTypeInterface.php:10 | `setValue` of any kind, with the corrected date filter (finding 1), keeps the kind and the name |
| Filters.ContributionOf | src/Filters/FilterTypeInterface.php:26 | only a date filter can fail when processed |
| Filters.FreshOf | src/Filters/FilterTypeInterface.php:6-27 | a new filter of every kind has its name, is not processable and keeps its kind's invariant |
| Filters.SetValueKeepsOk | src/Filters/FilterTypeInterface.php:10 | every successful `setValue` keeps its kind's invariant |
| Filters.OkContributes | src/Filters/FilterTypeInterface.php:26 | a processable filter that keeps its invariant processes without error |
| Filters.ContributionFields | src/Filters/FilterTypeInterface.php:26 | every predicate is on `alias.name`, except a boolean filter's, which is on the bare name |
| Filters.SetValueErrors | src/Filters/FilterTypeInterface.php:10 | the only error `setValue` raises is a type error |
| Filters.SetValue | src/Filters/FilterTypeInterface.php:10 | the new state and status are `SetValueOf` the old state, with the corrected date filter (finding 1) |
| Filters.Process | src/Filters/FilterTypeInterface.php:26 | appends `ContributionOf` on success; on failure raises its error and adds nothing |
| Filters.Restore | src/Controller/Component/ExpressRequestComponent.php:256-263 | a new filter object holding the stored state |
| FiltersCollections.Bind1 | src/Controller/Component/ExpressRequestComponent.php:225-238 | binding one filter keeps its kind and name, and leaves a filter whose name is not a key as it was |
| FiltersCollections.BindAll | src/Types/FiltersCollection.php:54-57 | the `each` walk keeps the number of filters |
| FiltersCollections.ProcessableOnly | src/Types/FiltersCollection.php:61-63 | `array_filter` on `isProcessable` keeps at most the filters it was given |
| FiltersCollections.BindAllKeepsNames | src/Types/FiltersCollection.php:54-57 | binding keeps every filter's kind and name at its position |
| FiltersCollections.BindSkipsUnnamed | src/Controller/Component/ExpressRequestComponent.php:225-238 | a filter whose name is not a parameter key is left as it was |
| FiltersCollections.BindAllPointwise | src/Types/FiltersCollection.php:54-57 | when no filter fails, every filter has been bound independently of the others |
| FiltersCollections.BindAllErrors | src/Types/FiltersCollection.php:54-57 | the only error binding raises is a type error |
| FiltersCollections.BindAllKeepsOk | src/Types/FiltersCollection.php:54-57 | a successful binding keeps every filter's invariant |
| FiltersCollections.ProcessableOnlyExact | src/Types/FiltersCollection.php:61-63 | exactly the processable filters are kept, in declaration order |
| FiltersCollections.AssembleAppend | src/Types/FiltersCollection.php:59-65 | the predicates come out grouped filter by filter in declaration order, and the walk stops at the first error |
| FiltersCollections.AssembleOne | src/Types/FiltersCollection.php:59-65 | one filter contributes its own predicates when processable, and nothing otherwise |
| FiltersCollections.BindFrom | src/Types/FiltersCollection.php:54-57 | the loop's walk from the `i`-th filter yields one state per remaining filter |
| FiltersCollections.BindFromIsBindAll | src/Types/FiltersCollection.php:54-57 | the loop's walk equals the declarative mapping over the list |
| FiltersCollections.AssembleFromIsAssemble | src/Types/FiltersCollection.php:59-65 | the loop's walk agrees with filtering first and then concatenating the contributions |
| FiltersCollections.AssembleOk | src/Types/FiltersCollection.php:59-65 | filters that keep their invariants are processed without error |
| FiltersCollections.FiltersCollection.States | src/Types/FiltersCollection.php:10 | one state per filter, in order |
| FiltersCollections.FiltersCollection.constructor | src/Types/FiltersCollection.php:12-21 | the filters are stored in the order given |
| FiltersCollections.FiltersCollection.AddFilter | src/Types/FiltersCollection.php:23-27 | appends the filter, without checking its name, and its state |
| FiltersCollections.FiltersCollection.GetFilterNames | src/Types/FiltersCollection.php:29-34 | the filters' names, position by position |
| FiltersCollections.FiltersCollection.Count | src/Types/FiltersCollection.php:49-52 | the number of filters |
| FiltersCollections.FiltersCollection.IsEmpty | src/Types/FiltersCollection.php:44-47 | true exactly when the count is 0 |
| FiltersCollections.FiltersCollection.BindAt | src/Controller/Component/ExpressRequestComponent.php:230-236 | the callback on the `i`-th filter changes that filter's state only |
| FiltersCollections.FiltersCollection.BindEach | src/Types/FiltersCollection.php:54-57 | the new states and the status are the `each` walk over the old states |
| FiltersCollections.FiltersCollection.ProcessAt | src/FilterRepositoryService.php:28-32 | the callback on the `i`-th filter adds its contribution when processable, and changes no filter |
| FiltersCollections.FiltersCollection.EachProcessable | src/Types/FiltersCollection.php:59-65 | appends the `eachProcessable` walk's predicates over the old states, and ends as it does |
| FiltersCollections.BindOne | src/Controller/Component/ExpressRequestComponent.php:230-236 | the new state and the status are `Bind1` of the old state |
| FiltersCollections.RestoreCollection | src/Controller/Component/ExpressRequestComponent.php:256-263 | a new collection of distinct new filter objects holding the stored states |
| FunctionalClosure.MatchRun | src/FunctionalClosure.php:8-13 | the handler runs exactly when the key is present |
| FunctionalClosure.MatchRunFirst | src/FunctionalClosure.php:8-13 | the handler receives the value of the first entry with the key |
| FunctionalClosure.FilterArrayOutFromKeys | src/FunctionalClosure.php:15-20 | keeps at most the entries it was given |
| FunctionalClosure.FilterArrayByKeys | src/FunctionalClosure.php:22-27 | keeps at most the entries it was given |
| FunctionalClosure.FilterByValue | src/FunctionalClosure.php:29-34 | keeps at most the entries it was given |
| FunctionalClosure.OutFromKeysExact | src/FunctionalClosure.php:15-20 | an entry survives exactly when its key is not a possible key |
| FunctionalClosure.ByKeysExact | src/FunctionalClosure.php:22-27 | an entry survives exactly when its key is a possible key |
| FunctionalClosure.KeyFiltersOrdered | src/FunctionalClosure.php:15-27 | both key filters keep the order of the array |
| FunctionalClosure.KeyFiltersPartition | src/FunctionalClosure.php:15-27 | the two key filters split the array between them: every entry lands in exactly one |
| FunctionalClosure.ByValueExact | src/FunctionalClosure.php:29-34 | exactly the entries identical to the value are kept, in order |
| FunctionalClosure.ByValueDisjoint | src/FunctionalClosure.php:29-34 | the entries kept for two different values are disjoint |
| ExpressParamsTypes.QualifyAll | src/Types/ExpressParams.php:157-165 | one qualified item per item |
| ExpressParamsTypes.AliasOnValues | src/Types/ExpressParams.php:157-165 | raises `Alias is empty` exactly when the alias is '' or '0'; otherwise one qualified item per item |
| ExpressParamsTypes.Keys | src/Types/ExpressParams.php:172-181 | one key per entry |
| ExpressParamsTypes.AliasOnKeys | src/Types/ExpressParams.php:172-181 | raises `Alias is empty` exactly when the alias is '' or '0'; otherwise one qualified key per entry |
| ExpressParamsTypes.StripQualified | src/Types/ExpressParams.php:157-165 | removing the `alias.` prefix from a qualified item gives back the item |
| ExpressParamsTypes.AliasOnValuesRoundTrip | src/Types/ExpressParams.php:157-165 | every qualified value carries the alias and gives back its item, in order |
| ExpressParamsTypes.AliasOnKeysRoundTrip | src/Types/ExpressParams.php:172-181 | every qualified key carries the alias and gives back its key; the values are dropped |
| ExpressParamsTypes.ExpressParams.FilterStates | src/Types/ExpressParams.php:147-150 | there are filter states exactly when a collection is attached |
| ExpressParamsTypes.ExpressParams.Snapshot | src/Controller/Component/ExpressRequestComponent.php:295 | what the cache stores is the settings and the attached filters' states |
| ExpressParamsTypes.ExpressParams.constructor | src/Types/ExpressParams.php:8-22 | the property defaults (no alias, no fields, limit 0, page 1) and no filters |
| ExpressParamsTypes.ExpressParams.Restore | src/Controller/Component/ExpressRequestComponent.php:256-263 | an object read back from the cache holds the stored settings and collection |
| ExpressParamsTypes.ExpressParams.SetAlias | src/Types/ExpressParams.php:24-27 | only the alias changes |
| ExpressParamsTypes.ExpressParams.HasFields | src/Types/ExpressParams.php:34-37 | true exactly when fields are set |
| ExpressParamsTypes.ExpressParams.SetFields | src/Types/ExpressParams.php:43-46 | stores the alias-qualified fields, or raises and leaves the state |
| ExpressParamsTypes.ExpressParams.SetLimit | src/Types/ExpressParams.php:67-70 | only the limit changes |
| ExpressParamsTypes.ExpressParams.SetOrderAsc | src/Types/ExpressParams.php:83-86 | only the ascending order changes, to the entries as given |
| ExpressParamsTypes.ExpressParams.SetOrderDesc | src/Types/ExpressParams.php:100-103 | stores the alias-qualified keys, or raises and leaves the state |
| ExpressParamsTypes.ExpressParams.SetPage | src/Types/ExpressParams.php:116-119 | only the page changes |
| ExpressParamsTypes.ExpressParams.HasNested | src/Types/ExpressParams.php:121-124 | true exactly when relations are set |
| ExpressParamsTypes.ExpressParams.SetNested | src/Types/ExpressParams.php:137-140 | only the relations change |
| ExpressParamsTypes.ExpressParams.SetFilters | src/Types/ExpressParams.php:142-145 | attaches the collection and changes no setting |
| ExpressParamsTypes.ExpressParams.GetFilters | src/Types/ExpressParams.php:147-150 | the attached collection; with none attached, a type error |
| ExpressParamsTypes.RestoreParams | src/Controller/Component/ExpressRequestComponent.php:256-263 | a new object whose snapshot is the stored one, with new, distinct filter objects |
| ComponentSteps.Names | src/Controller/Component/ExpressRequestComponent.php:132-138 | holds exactly the five reserved names |
| ComponentSteps.Intersect | src/Controller/Component/ExpressRequestComponent.php:164-167 | keeps at most the items of the first list |
| ComponentSteps.SelectedFieldsExact | src/Controller/Component/ExpressRequestComponent.php:148-169 | a field is selected exactly when it is the lower-cased form of a requested and of a selectable name; the request's order is kept, a selected name occurs as often as it was requested (repeats kept), and every field is lower case |
| ComponentSteps.SelectableFieldsSpec | src/Controller/Component/ExpressRequestComponent.php:148-169 | raises exactly for a string parameter under an empty alias, and then changes nothing; only the fields change |
| ComponentSteps.SelectableFieldsQualified | src/Controller/Component/ExpressRequestComponent.php:148-169 | with an alias, the stored fields are the selected fields, each qualified by the alias |
| ComponentSteps.SizeOfPageSpec | src/Controller/Component/ExpressParamsComponent.php:176-182 | only the limit changes |
| ComponentSteps.PageSpec | src/Controller/Component/ExpressRequestComponent.php:202-208 | only the page changes |
| ComponentSteps.NumericStepsDecimal | src/Controller/Component/ExpressRequestComponent.php:171-177 | a decimal limit or page is read back as that number, saturated at the 64-bit range; a non-numeric one changes nothing |
| ComponentSteps.SortSpec | src/Controller/Component/ExpressRequestComponent.php:187-200 | raises exactly for an array parameter under an empty alias; only the two orderings change |
| ComponentSteps.SortSplits | src/Controller/Component/ExpressRequestComponent.php:187-200 | the ascending ordering holds exactly the 'asc' entries; the descending ordering is, position by position, the alias-qualified keys of the 'desc' entries, taken in the request's order, so each 'desc' field is in it and nothing else is |
| ComponentSteps.NestedSpec | src/Controller/Component/ExpressRequestComponent.php:210-223 | only the relations change, and a non-string parameter changes nothing |
| ComponentSteps.NestedRoundTrip | src/Controller/Component/ExpressRequestComponent.php:210-223 | the relations are never empty and join back to the parameter |
| ComponentSteps.SetSelectableFields | src/Controller/Component/ExpressRequestComponent.php:148-169 | the new settings and status are `SelectableFieldsSpec`; the filters stay attached as they were |
| ComponentSteps.SetSizeOfPage | src/Controller/Component/ExpressRequestComponent.php:171-177 | the new settings are `SizeOfPageSpec` |
| ComponentSteps.SetSortOfItems | src/Controller/Component/ExpressRequestComponent.php:187-200 | the new settings and status are `SortSpec` |
| ComponentSteps.SetPage | src/Controller/Component/ExpressRequestComponent.php:202-208 | the new settings are `PageSpec` |
| ComponentSteps.SetNestedData | src/Controller/Component/ExpressRequestComponent.php:210-223 | the new settings are `NestedSpec` |
| ComponentSteps.SetFilters | src/Controller/Component/ExpressRequestComponent.php:225-238 | binds every filter to its parameter, then attaches the collection; a binding error escapes before the collection is attached |
| Composition.SettingsSpec | src/Controller/Component/ExpressRequestComponent.php:265-277 | the settings are built under the given alias |
| Composition.SettingsPaging | src/Controller/Component/ExpressRequestComponent.php:268-277 | without the paging steps the limit stays 0 and the page 1 |
| Composition.SettingsOk | src/Controller/Component/ExpressRequestComponent.php:265-277 | with a usable alias no settings step raises |
| Composition.SettingsAliasEmpty | src/Controller/Component/ExpressRequestComponent.php:265-277 | with an empty alias, a string `props` parameter raises before anything else is read |
| Composition.SettingsUntouched | src/Controller/Component/ExpressRequestComponent.php:265-277 | without any reserved parameter the settings are the defaults under the alias |
| Composition.ReservedNamesNotBound | src/Controller/Component/ExpressRequestComponent.php:282-293 | a filter named like a reserved parameter is never bound, whatever the request holds |
| Composition.ComposeAttaches | src/Controller/Component/ExpressRequestComponent.php:282-293 | filters are attached exactly when the build succeeds and the repository has filters, and are then the bound filters |
| Composition.ComposeErrors | src/Controller/Component/ExpressRequestComponent.php:265-293 | a build fails only with an empty alias or a filter value of the wrong type |
| Composition.CacheRoundTrip | src/Controller/Component/ExpressRequestComponent.php:256-295 | a hit is returned unchanged, binds nothing and leaves the cache; a successful miss is stored, and the next request reads it back |
| Composition.NoCacheBuilds | src/Controller/Component/ExpressRequestComponent.php:256-295 | with caching off every request is built afresh and the cache is left alone |
| Composition.BuildSettings | src/Controller/Component/ExpressRequestComponent.php:265-277 | a new object whose settings and status are `SettingsSpec` |
| Composition.Compose | src/Controller/Component/ExpressRequestComponent.php:265-293 | the snapshot, the filters' states afterwards and the status are `ComposeSpec` |
| Composition.ComposeCached | src/Controller/Component/ExpressRequestComponent.php:248-298 | the snapshot, the filters' states, the status and the cache afterwards are `ComposeCachedSpec` |
| FilterRepositoryServices.ShapingOps | src/FilterRepositoryService.php:15-23 | `select` comes first and only when fields are set, then the two orderings and `contain` |
| FilterRepositoryServices.ExpressionIsEmpty | src/FilterRepositoryService.php:41-44 | true exactly when the expression holds no condition |
| FilterRepositoryServices.InvokeShape | src/FilterRepositoryService.php:13-39 | the shaping calls come first; one `where` follows only on success, holding the non-empty list of the processable filters' predicates in order |
| FilterRepositoryServices.InvokeOk | src/FilterRepositoryService.php:13-39 | filters that keep their invariants never make the service fail |
| FilterRepositoryServices.InvokeWithoutFiltersFails | src/FilterRepositoryService.php:28-29 | as written: with no filters attached the service raises a type error after the shaping calls |
| FilterRepositoryServices.InvokeCorrectedWithoutFilters | src/FilterRepositoryService.php:28-36 | corrected: with no filters attached the service behaves as for filters that add nothing, and succeeds |
| FilterRepositoryServices.InvokeCorrectedAgrees | src/FilterRepositoryService.php:13-39 | the correction changes nothing when filters are attached, and never changes the calls made |
| FilterRepositoryServices.Shape | src/FilterRepositoryService.php:15-23 | appends `ShapingOps` of the settings to the query |
| FilterRepositoryServices.ApplyFilters | src/FilterRepositoryService.php:25-38 | appends the `where` of the assembled predicates, none when they are empty or processing fails |
| FilterRepositoryServices.Invoke | src/FilterRepositoryService.php:13-39 | as written: the query's calls and the status are `InvokeSpec` |
| FilterRepositoryServices.InvokeCorrected | src/FilterRepositoryService.php:13-39 | corrected: the query's calls and the status are `InvokeCorrectedSpec` |
| FilterRepositoryServices.ApplyParams | src/Controller/Component/ExpressRequestComponent.php:240-246 | `processSearch`: the corrected service, leaving the caller's filters as they are |
| ExpressRequestComponents.SearchWithoutParams | src/Controller/Component/ExpressRequestComponent.php:97-104 | without parameters the query, the cache and the filters stay as they are |
| ExpressRequestComponents.SearchSpec | src/Controller/Component/ExpressRequestComponent.php:97-117 | with the corrected date filter (finding 1): no parameters leave query, cache and filters as they are; with caching off the cache is untouched; only the request's `express.queries.` key can be added or replaced; with caching on, a successful search leaves that key cached |
| ExpressRequestComponents.SearchFromCache | src/Controller/Component/ExpressRequestComponent.php:256-263 | a cached descriptor is applied as it is, and no filter is bound |
| ExpressRequestComponents.SearchAliasEmpty | src/Controller/Component/ExpressRequestComponent.php:106-112 | with an empty alias and a `props` parameter, an uncached search raises before any call on the query |
| ExpressRequestComponents.SearchWithoutFilters | src/Controller/Component/ExpressRequestComponent.php:106-117 | with the corrected service (finding 2): against a repository without filters, an uncached search with an alias makes only the shaping calls and succeeds, with limit 0 and page 1 |
| ExpressRequestComponents.SearchWithoutFiltersAsWritten | src/FilterRepositoryService.php:28-29 | with the service as written, the same search composes parameters without a filter collection, and applying them raises a type error after the shaping calls |
| ExpressRequestComponents.ComposeExpressParams | src/Controller/Component/ExpressRequestComponent.php:248-298 | `ComposeCachedSpec` with caching as `canCache()` says and no paging steps |
| ExpressRequestComponents.SearchParams | src/Controller/Component/ExpressRequestComponent.php:97-117 | the query's calls, the status, the cache and the filters afterwards are `SearchSpec`, with the corrected date filter (finding 1) |
| ExpressRequestComponents.Search | src/Controller/Component/ExpressRequestComponent.php:63-125 | the configuration is reconfigured from the request, and the rest is `SearchSpec`, with the corrected date filter (finding 1) |
| ExpressParamsComponents.PageRequestOf | src/Controller/Component/ExpressParamsComponent.php:114-129 | the page and maximum pass through; a zero limit falls back to the configured size; `noPage` is read from the request |
| ExpressParamsComponents.EmptySearchRequest | src/Controller/Component/ExpressParamsComponent.php:89-99 | page 1 at the configured size and maximum, paged |
| ExpressParamsComponents.SearchWithoutParams | src/Controller/Component/ExpressParamsComponent.php:89-99 | without parameters: the first page at the configured size, and nothing else changes |
| ExpressParamsComponents.SearchSpec | src/Controller/Component/ExpressParamsComponent.php:89-130 | with the corrected date filter (finding 1): no parameters give the first page at the configured size and change nothing; with caching off or in debug mode the cache is untouched; only the request's `express.queries.` key can be added or replaced; with caching on, a successful search leaves that key cached |
| ExpressParamsComponents.SearchDebugSkipsCache | src/Controller/Component/ExpressParamsComponent.php:298-300 | in debug mode the cache is neither read nor written |
| ExpressParamsComponents.SearchPageSize | src/Controller/Component/ExpressParamsComponent.php:114-120 | an uncached, successful search with an alias pages by the decimal size parameter, saturated at the 64-bit range, or by the configured size when it is zero |
| ExpressParamsComponents.PageSizeFromSettings | src/Controller/Component/ExpressParamsComponent.php:314-325 | the size step sets the limit from a decimal size parameter, saturated at the 64-bit range |
| ExpressParamsComponents.NoPageValues | src/Controller/Component/ExpressParamsComponent.php:119-120 | absent, '0' or '' keep paging; '1' skips it |
| ExpressParamsComponents.ProcessComposedParams | src/Controller/Component/ExpressParamsComponent.php:288-348 | `ComposeCachedSpec` with the paging steps, caching as configured and never in debug mode |
| ExpressParamsComponents.Search | src/Controller/Component/ExpressParamsComponent.php:62-130 | the query's calls, the page request or error, the cache and the filters afterwards are `SearchSpec`, with the corrected date filter (finding 1) |

## Left out

- HTTP: the request, `md5` of its URL, `getQueryParams` and the router are not modelled. The URL hash and the decoded query parameters are parameters of the model.
- Finders: the finder lookup (`method_exists`, `call_user_func`) and the `instanceof Query` check are not modelled. The query is given.
- Pagination: `processPagination`, the `Paginator`, `ExpressCollection` and `ExpressRepositoryInterface` are not modelled. The params component's search ends with the page request it would hand over (`PageRequest`).
- `ExpressRequestComponent` reads its configuration into `ExpressConfig::factory` from CakePHP's component configuration. The model passes those settings to the `Factory` constructor.
- Getters such as `getAlias`, `getLimit`, `getPage`, `getValue` and `getFilters` of the collection, and the config's `is…`/`get…` readers, are modelled as reads of the class fields.
- The fluent `return $this` of setters is not modelled.
- Calls that end a chain, such as `addFilter` followed by `each`, are modelled without the returned object.
- Typing: the check that each `FiltersCollection` element is a `FilterTypeInterface` is enforced by the `Filter` datatype, so its `ErrorException` cannot happen.
- Other type checks: the `strict_types` argument checks other than the ones the filters and `setPagination` raise are enforced by Dafny's types.
- Filter objects: `FiltersCollection.BindEach` and `EachProcessable` need the filter objects to be distinct (`Distinct`). A collection holding one object twice is not modelled.
- Cache: the cache is a map from key to the stored `ExpressParams`. It is passed in and returned, and the cache configuration name only chooses that map.
- Cache serialization is modelled as storing a snapshot (`Descriptor`); a read builds new objects holding it. `__sleep`/`__wakeup` details are not modelled.
- Debug mode, read by the params component from `Configure::read('debug')`, is a parameter.
- Both components use the corrected service (finding 2), so that their ordinary no-filter search reaches the paginator. The as-written service is modelled beside it.
- Query builder: `QueryExpression` and `Query` are logs of the calls made on them. CakePHP's SQL generation is not modelled.
- `in_array` is modelled with strict comparison on string keys. PHP's loose comparison and integer array keys are not modelled.
- `array_filter` and `array_intersect` return lists here. The preserved original keys are not modelled: the core only iterates or implodes the results.
- `FILTER_VALIDATE_BOOLEAN` is modelled on its word lists. Surrounding whitespace is not modelled.
- `strtolower` lower-cases ASCII letters only.
- `is_numeric`, `(int)` and `0 + $value` are modelled for decimal integers with an optional sign. Other numeric strings (floats, exponents, surrounding whitespace) are not numeric in the model, and coercion keeps such a string as text. Non-numeric text such as 'abc', '' or '12abc' is also left uninterpreted by `0 +` with no error: PHP 7.4 gives 0 or the leading number with a warning, and PHP 8 raises a `TypeError` for 'abc' and '' and gives 12 with a warning for '12abc'; neither is modelled.
- Integer width: `(int)` of a decimal string saturates at `PHP_INT_MAX` and `PHP_INT_MIN` (64-bit), and `0 +` of one beyond that range gives a float, which the model keeps as the text. A raw PHP integer value is unbounded in the model.
- Filter arity: the `process` of `BooleanFilter`, `NumberFilter` and `SearchDateFilter` (src/Filters/BooleanFilter.php:61, src/Filters/NumberFilter.php:73, src/Filters/SearchDateFilter.php:70) has a third parameter, the query, which `FilterTypeInterface` (src/Filters/FilterTypeInterface.php:26) does not declare; `NullFilter`, `SearchFilter` and `SearchInFilter` declare the interface's two. As declared, those three classes are incompatible with the interface, a fatal error when PHP loads them, and even if loaded, the two-argument call in `FilterRepositoryService` (src/FilterRepositoryService.php:31) would raise `ArgumentCountError`. The model takes the interface's two-argument reading, as the service calls it, and drops the unused query.
- Filters.SetValueOf: binds a date filter through the corrected `setDateByArray` (finding 1), and so do `Filters.SetValue`, `Filters.SetValueKeepsOk`, `FiltersCollections.Bind1`, `FiltersCollections.BindAll`, the `Composition` build functions, `ExpressRequestComponents.SearchSpec`, `ExpressRequestComponents.SearchParams`, `ExpressRequestComponents.Search`, `ExpressParamsComponents.SearchSpec` and `ExpressParamsComponents.Search`; the code as written is `SearchDateFilters.SetValueAsWritten`, which differs only on a one-entry operator map and there only in the mode (see `SearchDateFilters.OneOperatorAsWritten`).
- `DateTime` is reduced to the (year, month, day) the token names. The PCRE patterns of `createDateFromString` are written as a grammar over the digits. `$` matching before one final newline is modelled (that token raises a type error); a day beyond the month's length, which `createFromFormat` rolls over into the next month, is kept as written.
- `ExpressConfigs.ExpressConfig.SetMaxSize`, `SetSsl`, `SetFullUrl`, `SetCache` and `SetCacheConfig`: the source's `return $this` is not modelled.

## Findings

| source | as written | input that shows it | evidently intended | confidence | as-written member | corrected member |
|---|---|---|---|---|---|---|
| src/Filters/SearchDateFilter.php:192-195 | a map with one comparison key sets the operator and the date and marks the filter processable, but never sets the mode, so `process` indexes the single `DateTime` as the pair `[d1, d2]` and raises an `Error` | `setValue(['gte' => '2020'])` on a new filter, then `process` | the one-operator map searches that date with mode `exact`, as a single date string does (lines 167-171) | not executed | SearchDateFilters.OneOperatorAsWrittenExample | SearchDateFilters.OneOperatorCorrected |
| src/FilterRepositoryService.php:28-29 | `getFilters()` is called on every `ExpressParams`, but the components attach a collection only when the repository's collection is not empty, so the declared return type rejects the null property with a `TypeError` | a repository with an empty filter collection and any non-empty request | a request against a repository without filters gets no `where` and succeeds | not executed | FilterRepositoryServices.InvokeWithoutFiltersFails | FilterRepositoryServices.InvokeCorrectedWithoutFilters |

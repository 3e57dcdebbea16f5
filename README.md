# Hospital search store, modelled in Dafny

The hospital list of this front end keeps its query intent in one search
store (`src/pages/hospital/stores/searchStore.ts`): the free-text search
term, the fields the term is searched in, the sort order in two mirrored
shapes (the domain `SortConfig` with an `ASC`/`DESC` enum and the table
widget's `SortDescriptor` with `"ascending"`/`"descending"`), the selected
state filter and the paging filters. Eight setters each replace part of
that state; `buildSearchParams` projects it into the request parameters of
the next list fetch: the filters, a `"field,direction"` sort string, and,
for a non-empty term, an `id` (the term parsed with `Number.parseInt`) or
the raw term in `name`/`ruc` for each selected, recognised search field.

The model:

- `wrappers.dfy` — `Option`, standing for an absent or `undefined` key and
  for `NaN`.
- `sorting.dfy` (module `Sorting`) — the two sort shapes, the conversions
  the store applies between them, the invariant `InSync` that ties them, and
  the `sort` string.
- `js_number.dfy` (module `JsNumber`) — `Number.parseInt` without a radix,
  following section 19.2.5 of ECMA-262 ("parseInt ( string, radix )"): leading white space
  (StrWhiteSpaceChar) skipped, an optional sign, a `0x`/`0X` prefix switching
  to radix 16, the longest run of digits, `NaN` when there is none.
- `search_params.dfy` (module `SearchParams`) — `HospitalRequestParams`, the
  store state as a value, the initial state, and `buildSearchParams` as the
  specification function `BuiltParams`, with its closed form proved.
- `search_store.dfy` (module `HospitalSearch`) — the store as the class
  `SearchStore` with one field per state entry, a setter method per setter,
  and `BuildSearchParams` as a method with the source's loop over the search
  fields, proved equal to `BuiltParams`. Its invariant `Valid()` is that the
  two sort shapes agree; every setter keeps it.
- `scenarios.dfy` (module `Scenarios`) — client methods that drive a fresh
  store through typical usage scenarios.

Two things the store depends on are defined elsewhere in the repository and
are parameters of the store's constructor: the recognised search fields
(`SEARCH_PARAMS`, as the sequence of their ids; it must be non-empty since
the initial state reads its first entry) and the string values of the
`SortDirection` enum (`DirectionTokens`).

Three details of the code that the model keeps as written:

- `setSelectedState(null)` sets `filters.stateId` to `undefined`
  (searchStore.ts:63) rather than deleting the key; the model writes an
  absent key and `undefined` both as `None`.
- `setPage` stores `page - 1` without a check (searchStore.ts:71), so
  `setPage(0)` gives page `-1`; the model does the same.
- The `sort` string puts in the values of the `SortDirection` enum
  (searchStore.ts:91). Those are defined outside these files, so they are
  the `DirectionTokens` parameter.

## Model

| member | source | states |
|---|---|---|
| `Sorting.DescriptorOf` | src/pages/hospital/stores/searchStore.ts:52-55 | the derived descriptor has the configuration's field as column, and its direction is `"ascending"` exactly when the configuration's is `ASC` (and `"descending"` exactly when it is `DESC`) |
| `Sorting.ConfigOf` | src/pages/hospital/stores/searchStore.ts:78-81 | the derived configuration has the descriptor's column as field, and its direction is `ASC` exactly when the descriptor's is `"ascending"` |
| `Sorting.ConversionsAreInverse` | src/pages/hospital/stores/searchStore.ts:49-83 | the two conversions undo each other, so a pair is in sync exactly when the configuration is the one derived from the descriptor; whichever shape a setter receives, the pair ends in sync |
| `Sorting.SortString` | src/pages/hospital/stores/searchStore.ts:91 | the `sort` template string; specified by `SortStringReadsBack`, which reads the field and the direction token back out of it |
| `Sorting.SplitAtComma` | src/pages/hospital/stores/searchStore.ts:91 | a split at the first comma gives a comma-free left part that, with a comma and the right part, rebuilds the string; no split exactly when there is no comma |
| `Sorting.SortStringReadsBack` | src/pages/hospital/stores/searchStore.ts:91 | when the field has no comma, the `sort` string `field,token` splits back into the field and the direction's token |
| `JsNumber.ParseInt` | src/pages/hospital/stores/searchStore.ts:98-99 | `Number.parseInt` without a radix; it has no contract of its own and is specified by the `JsNumber.ParseInt*` lemmas, `TrimStartSpec` and `LeadingDigitsSpec` below |
| `JsNumber.TrimStartSpec` | src/pages/hospital/stores/searchStore.ts:98 | the white-space skip removes a prefix made only of white space and keeps a suffix that does not start with white space |
| `JsNumber.LeadingDigitsSpec` | src/pages/hospital/stores/searchStore.ts:98 | the digits read are the longest prefix of digits of the radix: a prefix, followed by the end or by a non-digit |
| `JsNumber.ParseIntRoundTrip` | src/pages/hospital/stores/searchStore.ts:98 | parsing the decimal numeral of any integer gives that integer |
| `JsNumber.ParseIntSkipsWhiteSpace` | src/pages/hospital/stores/searchStore.ts:98 | leading white space never changes the parse |
| `JsNumber.ParseIntReadsDecimalRun` | src/pages/hospital/stores/searchStore.ts:98 | a decimal run followed by a non-digit, in a string that does not start with `0x`/`0X`, parses to the run's value (`"123abc"` is 123) |
| `JsNumber.ParseIntReadsHexRun` | src/pages/hospital/stores/searchStore.ts:98 | after `0x` or `0X` the longest hexadecimal run is read |
| `JsNumber.ParseIntRejectsEmptyHexRun` | src/pages/hospital/stores/searchStore.ts:98-99 | a `0x`/`0X` prefix with no hexadecimal digit after it (`"0x"`, `"0xg"`) parses to `NaN` |
| `JsNumber.ParseIntSign` | src/pages/hospital/stores/searchStore.ts:98 | `+` keeps and `-` negates the value of the unsigned part, and a failed unsigned part stays a failure |
| `JsNumber.ParseIntOneSignOnly` | src/pages/hospital/stores/searchStore.ts:98-99 | a sign followed by nothing, by white space or by a second sign parses to `NaN` (`"+ 5"`, `"+-5"`, `"--5"`) |
| `JsNumber.ParseIntRejectsNonDigit` | src/pages/hospital/stores/searchStore.ts:98-99 | a first non-blank character that is neither a sign nor a digit makes the parse `NaN` (`"abc"`) |
| `JsNumber.ParseIntRejectsBlank` | src/pages/hospital/stores/searchStore.ts:98-99 | an empty or all-blank string parses to `NaN` |
| `SearchParams.InitialState` | src/pages/hospital/stores/searchStore.ts:32-40 | the store starts with an empty term, no selected state, the given default search field, page 0 of size 20 with no other filter, sort `updatedAt` descending, and the two sort shapes in sync |
| `SearchParams.ApplySearchField` | src/pages/hospital/stores/searchStore.ts:96-105 | one pass of the loop body; specified, over whole field lists, by `ApplySearchFieldsEffect` and `IgnoredFieldContributesNothing` |
| `SearchParams.ApplySearchFields` | src/pages/hospital/stores/searchStore.ts:95-106 | the loop over the search fields; specified by `ApplySearchFieldsEffect` (closed form by field membership) and `IgnoredFieldContributesNothing` |
| `SearchParams.BuiltParams` | src/pages/hospital/stores/searchStore.ts:87-110 | `buildSearchParams` on a state value; specified by `BuiltParamsSpec`, and implemented by the method `HospitalSearch.SearchStore.BuildSearchParams` |
| `SearchParams.ApplySearchFieldsEffect` | src/pages/hospital/stores/searchStore.ts:95-106 | after the loop over the fields, `id` is the parsed term iff `"id"` is selected, recognised and parses, `name`/`ruc` are the raw term iff selected and recognised, and every other key, and otherwise those keys, keep their value |
| `SearchParams.BuiltParamsSpec` | src/pages/hospital/stores/searchStore.ts:87-110 | the built params always carry `sort = field + "," + token`, copy page, size and state filter, set `id`/`name`/`ruc` exactly when the non-empty term is searched in that field (`id` only when it parses) and keep the filters' values otherwise; with an empty term they are the filters plus `sort` |
| `SearchParams.IgnoredFieldContributesNothing` | src/pages/hospital/stores/searchStore.ts:96-105 | a field that is not recognised, or not one of `id`, `name`, `ruc`, changes nothing wherever it stands in the list |
| `HospitalSearch.SearchStore.constructor` | src/pages/hospital/stores/searchStore.ts:30-40 | a new store is in the initial state with the first recognised field selected, and its sort shapes agree |
| `HospitalSearch.SearchStore.SetSearchTerm` | src/pages/hospital/stores/searchStore.ts:43-47 | sets the term and resets the page to 0; all other filters and all other state unchanged |
| `HospitalSearch.SearchStore.SetSortConfig` | src/pages/hospital/stores/searchStore.ts:49-56 | sets the configuration and the descriptor derived from it (`ASC` iff `"ascending"`); nothing else changes; the sort shapes agree afterwards |
| `HospitalSearch.SearchStore.SetSelectedState` | src/pages/hospital/stores/searchStore.ts:58-65 | sets the selected state and the state filter to it, cleared for `null`; no other filter or state changes |
| `HospitalSearch.SearchStore.SetSearchFields` | src/pages/hospital/stores/searchStore.ts:67 | replaces only the search fields |
| `HospitalSearch.SearchStore.SetFilters` | src/pages/hospital/stores/searchStore.ts:69 | replaces only the filters |
| `HospitalSearch.SearchStore.SetPage` | src/pages/hospital/stores/searchStore.ts:71 | stores the one-based page as `page - 1`; no other filter or state changes |
| `HospitalSearch.SearchStore.SetPageSize` | src/pages/hospital/stores/searchStore.ts:73 | changes only the page size |
| `HospitalSearch.SearchStore.SetSortDescriptor` | src/pages/hospital/stores/searchStore.ts:75-83 | sets the descriptor as given and the configuration derived from it (`ASC` iff `"ascending"`); nothing else changes; the sort shapes agree afterwards |
| `HospitalSearch.SearchStore.BuildSearchParams` | src/pages/hospital/stores/searchStore.ts:87-110 | the loop over the search fields yields exactly `BuiltParams` of the current state, whose closed form is `BuiltParamsSpec`; the method modifies nothing |
| `Scenarios.ParsesTo123` | src/pages/hospital/stores/searchStore.ts:98 | `parseInt("123")` is 123 |
| `Scenarios.NumericTermScenario` | src/pages/hospital/stores/searchStore.ts:94-101 | with `id` the default field, searching `"123"` after changing page asks for id 123 on page 0 and no `name`/`ruc` |
| `Scenarios.NonNumericTermScenario` | src/pages/hospital/stores/searchStore.ts:97-101 | searching `"abc"` in `id` adds no `id` filter |
| `Scenarios.NameAndRucScenario` | src/pages/hospital/stores/searchStore.ts:102-104 | searching `"General"` in `name` and `ruc` gives page 0, size 20, both keys set to the term and `sort = "updatedAt," + desc token`, nothing else |
| `Scenarios.SortDescriptorScenario` | src/pages/hospital/stores/searchStore.ts:75-91 | choosing `name` ascending in the widget makes the configuration `(name, ASC)` and the request's sort `"name," + asc token` |
| `Scenarios.ClearSelectedStateScenario` | src/pages/hospital/stores/searchStore.ts:58-65 | selecting and then clearing a state leaves no state filter in the request |
| `Scenarios.BuildTwice` | src/pages/hospital/stores/searchStore.ts:87-110 | two calls of `buildSearchParams` with no setter between return equal records |

## Left out

- Aliasing of setter arguments: `setSortConfig`, `setSearchFields`,
  `setFilters` and `setSortDescriptor` store the caller's object or array by
  reference (searchStore.ts:51, 67, 69, 77), and zustand's `set` merges
  shallowly. The model treats these arguments as immutable values, so a
  caller that changes an argument after the call is not modelled. That
  includes changing a stored configuration's direction, which in the source
  leaves the two sort shapes out of sync; `Valid()` holds in the model
  because of this choice.
- zustand's `create`/`set`/`get`, subscriptions and re-rendering: the store
  is a plain class whose methods update its fields synchronously.
- `src/pages/hospital/components/HospitalForm.tsx` and
  `src/components/CustomSelect.tsx`: form and widget glue around
  react-hook-form, zod and the UI library, with nothing to state apart from
  those libraries.
- `src/pages/hospital/types/hospital.ts`: type declarations only; its field
  names are reused in `HospitalRequestParams`. The full
  `HospitalRequestParams` type is not part of this model: it is modelled
  with the keys the store uses (`page`, `size`, `stateId`, `name`, `ruc`,
  `id`, `sort`), so extra keys a caller passes to `setFilters` are not
  carried.
- The contents of `SEARCH_PARAMS` and the string values of `SortDirection`
  are not part of this model; they are constructor parameters.
- JavaScript numbers are modelled as unbounded integers: fractional, `NaN`
  or infinite arguments to `setPage`/`setPageSize`/`setSelectedState`, and
  the loss of precision of `page - 1` beyond 2^53, are not modelled.
- JsNumber.ParseInt: returns the exact integer of the digit run; the
  rounding of long runs to a double, `Infinity` for very long runs and the
  distinction of `-0` from `0` are not modelled.
- The descriptor's `column` is a widget `Key` (a string or a number) cast
  to a string; the model takes it as a string.
- `SEARCH_PARAMS.some(...)` is modelled as membership of the field in the
  sequence of recognised ids.
- Whether a backend combines `name` and `ruc` with AND or OR: the store does
  not decide it, so the model does not either.

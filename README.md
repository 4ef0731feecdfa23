# Replay query builder

A Dafny model of the part of Sentry that builds the session-replay query
(`src/sentry/replays/query.py`). It turns request parameters into one
aggregated query against the `replays` entity:

- the **pagination normaliser** turns untrusted limit and offset values into a page size in [0, 100] and an offset, using defaults instead of errors;
- the **sort resolver** maps five sort keys to an ordering and uses "most recent first" for anything else;
- the **filter translator** turns parsed search filters into post-aggregation conditions, one per filter and in order. It flattens dotted field names and reads unknown operators as equality;
- the **query assembler** adds the fixed project, time-window, first-segment and minimum-duration conditions, the select list, the `replay_id` grouping and the one-hour granularity. It serves two entry points: the paginated collection query and the single-replay instance query.

The model stops at the request value that would be handed to the query engine.

Modules, one per component:

| file | module | what it holds |
|---|---|---|
| wrappers.dfy | `Wrappers` | `Option` |
| snuba.dfy | `Snuba` | expressions, operators, conditions, orderings, the query and request records; a row-level meaning of column conditions (`Holds`) |
| pyint.dfy | `PyInt` | the part of Python's `int(str)` the pagination values go through, and `str(int)` |
| pagination.dfy | `Pagination` | `make_pagination_values`, `_coerce_to_integer_default` |
| sorting.dfy | `Sorting` | `make_sort_ordering` and the equivalent lookup table |
| filters.dfy | `Filters` | `OPERATOR_MAP`, `search_filters_to_snuba_filters` (function and loop) |
| select.dfy | `Select` | `make_select_statement`, `_grouped_unique_values`, `_grouped_unique_scalar_value`, and a reference meaning of "first unique value" |
| replay_query.dfy | `ReplayQuery` | `query_replays_dataset`, `query_replays_collection`, `query_replay_instance` |

Datetimes are integer timestamps. Raw limit and offset values are `Absent`,
a string, an integer or any other value. The model has `int()` return an
integer unchanged, convert a string by Python's integer-literal rules, and
treat any other value as rejected with `TypeError`.

Two facts about the code worth stating up front:

- The environment branch would build an `environment IN` condition, but it raises instead (see Findings).
- The offset is not range-checked, so negative integers pass through (`Pagination.OffsetStringKept`).

## Model

| member | source | states |
|---|---|---|
| `Pagination.IntConversion` | src/sentry/replays/query.py:309-310 | only strings and integers convert, and an integer converts to itself |
| `Pagination.NumeralConvertsLikeInteger` | src/sentry/replays/query.py:309-310 | an integer and its decimal numeral convert to the same value |
| `Pagination.CoerceToIntegerDefault` | src/sentry/replays/query.py:304-312 | the result is what `int()` makes of the value, or the default when the value is missing or `int()` raises; it never fails |
| `Pagination.MakePaginationValues` | src/sentry/replays/query.py:294-301 | the limit always lies in [0, 100]; it is the converted limit when that is in range and 10 otherwise; the offset is the converted offset or 0 |
| `Pagination.LimitStringInRangeKept` | src/sentry/replays/query.py:294-298 | every limit string "0" to "100" is placed in the query as asked |
| `Pagination.LimitStringOutOfRangeDefaults` | src/sentry/replays/query.py:296-298 | a limit string for a number below 0 or above 100 gives the default page size 10 |
| `Pagination.OffsetStringKept` | src/sentry/replays/query.py:300-301 | any integer offset string, negative included, comes back unchanged |
| `Pagination.MissingOrMalformedDefaults` | src/sentry/replays/query.py:304-312 | missing, non-string or unparsable limit and offset give (10, 0) |
| `Pagination.OversizedLimitExample` | src/sentry/replays/query.py:294-301 | limit "200" with no offset gives limit 10, offset 0 |
| `PyInt.ParseIntAccepts` | src/sentry/replays/query.py:309-312 | conversion succeeds exactly when the stripped text is an optional sign and well-formed digits; only a leading '-' gives a negative number |
| `PyInt.ParseShowRoundTrip` | src/sentry/replays/query.py:309-310 | `int(str(n)) == n` for every integer n |
| `PyInt.ParseNeedsDigit` | src/sentry/replays/query.py:309-312 | text without a decimal digit never converts |
| `PyInt.ParseAcceptsSignAndSpace` | src/sentry/replays/query.py:309-310 | surrounding whitespace and a sign are accepted: " -7\n" is -7 |
| `PyInt.ParseAcceptsUnderscore` | src/sentry/replays/query.py:309-310 | underscores between digits are accepted: "1_000" is 1000 |
| `PyInt.ParseRejectsDoubleUnderscore` | src/sentry/replays/query.py:309-312 | "1__0" raises `ValueError`, so the default is used |
| `PyInt.ParseRejectsDecimalPoint` | src/sentry/replays/query.py:309-312 | "5.0" raises `ValueError`, so the default is used |
| `PyInt.ParseRejectsEmpty` | src/sentry/replays/query.py:309-312 | "" raises `ValueError`, so the default is used |
| `Sorting.MakeSortOrdering` | src/sentry/replays/query.py:272-288 | exactly one ordering, on started_at, finished_at or duration; it is (started_at, DESC) exactly when the key is absent or not one of the five known keys |
| `Sorting.SortChainMatchesTable` | src/sentry/replays/query.py:272-288 | the comparison chain equals a lookup in the five-entry table with default (started_at, DESC) |
| `Sorting.RecognisedKeyMeaning` | src/sentry/replays/query.py:274-283 | for a known key, a leading '-' means descending and the rest of the key names the column |
| `Sorting.LongestFirstExample` | src/sentry/replays/query.py:282-283 | "-duration" orders by duration descending |
| `Filters.OperatorMapInvertsSymbol` | src/sentry/replays/query.py:248-255 | the map's keys are exactly the six comparison symbols, and each maps to the comparison operator written that way |
| `Filters.ResolveOperator` | src/sentry/replays/query.py:248-261 | the operator's symbol is the filter's symbol when it is one of the six known ones and "=" otherwise; `IN` never results |
| `Filters.ResolveSymbolRoundTrip` | src/sentry/replays/query.py:248-255 | every comparison operator is recovered from its own symbol |
| `Filters.UnknownOperatorIsEquality` | src/sentry/replays/query.py:261 | an operator outside the six symbols is read as equality |
| `Filters.FlatColumnName` | src/sentry/replays/query.py:263-264 | same length as the key; each '.' becomes '_' and every other character is kept |
| `Filters.FlatColumnNameIsFlat` | src/sentry/replays/query.py:264 | a flattened name has no '.', and flattening again changes nothing |
| `Filters.FlatNameUnchanged` | src/sentry/replays/query.py:264 | a key without dots is used as it is |
| `Filters.FlatColumnNameExample` | src/sentry/replays/query.py:264 | "user.id" becomes "user_id" |
| `Filters.TranslateFilter` | src/sentry/replays/query.py:259-266 | one filter's condition keeps the value untouched, compares a dot-free column as long as the key, and uses the filter's operator when known and equality otherwise |
| `Filters.SnubaFilters` | src/sentry/replays/query.py:258-266 | one condition per filter, the i-th being the translation of the i-th filter |
| `Filters.SnubaFiltersAppend` | src/sentry/replays/query.py:258-266 | translation keeps order: translating a concatenation concatenates the translations |
| `Filters.TranslatedConditionShape` | src/sentry/replays/query.py:259-266 | each condition compares the filter's own value, untouched, against a dot-free column as long as the key, with a comparison operator |
| `Filters.SearchFiltersToSnubaFilters` | src/sentry/replays/query.py:258-266 | the loop yields exactly the translated sequence |
| `Select.GroupedUniqueValuesShape` | src/sentry/replays/query.py:217-227 | the unique values are a group function over the column itself, so they are computed per group; they are named by the column when `aliased` and unnamed otherwise |
| `Select.GroupedUniqueScalarValueShape` | src/sentry/replays/query.py:217-242 | computed per group; first element of the column's unique-values array; the inner array is never named; the result is named by a non-empty explicit alias, else by the column, and is unnamed when `aliased` is false |
| `Select.MakeSelectStatement` | src/sentry/replays/query.py:149-214 | the select list has 24 items, one per response field |
| `Select.SelectStatementNames` | src/sentry/replays/query.py:149-214 | the select list starts with `replay_id`, and its items are named, in order, by the 24 response fields (`project_id` as `agg_project_id`) |
| `Select.SelectStatementAggregates` | src/sentry/replays/query.py:149-214 | every item after the grouping key is computed per group: it calls a group function (`groupUniqArray`, `groupUniqArrayArray`, `min`, `max`, `groupArray`, `count`) somewhere inside, or, for `duration`, refers to the `min` and `max` of the timestamp by their names |
| `Select.UniqueValues` | src/sentry/replays/query.py:217-222 | the unique values of a group hold each non-null value exactly once and nothing else |
| `Select.FirstUniqueValue` | src/sentry/replays/query.py:233-236 | the representative is one of the group's values, and there is none exactly when the group has no non-null value |
| `Select.FirstUniqueIsFirstNonNull` | src/sentry/replays/query.py:230-237 | the representative value is the group's first non-null value, and is absent only when every value is null |
| `Select.FirstUniqueExample` | src/sentry/replays/query.py:233-236 | [1, 2, 2, 3, 3, 3, null] reduces to 1 |
| `ReplayQuery.QueryReplaysDataset` | src/sentry/replays/query.py:101-142 | `where` is project IN ids, timestamp < end, timestamp >= start, then the caller's conditions; `having` is min(sequence_id) = 0, duration >= 5, then the translated filters; group by `replay_id`, granularity 3600; limit and offset are set exactly when pagination is given, and then equal its fields |
| `ReplayQuery.CallQueryReplaysDataset` | src/sentry/replays/query.py:101-109 | a call fails with the missing-argument error exactly when `search_filters` is not passed; otherwise it builds the dataset query |
| `ReplayQuery.BaseWhereMeaning` | src/sentry/replays/query.py:123-126 | a row passes the fixed conditions exactly when its project is one of the ids and its timestamp lies in [start, end) |
| `ReplayQuery.DatasetWhereMeaning` | src/sentry/replays/query.py:123-128 | a row passes the assembled `where` exactly when it is in scope and passes the caller's conditions |
| `ReplayQuery.QueryReplaysCollection` | src/sentry/replays/query.py:51-78 | fails exactly when an environment is named; otherwise `where` holds only the fixed conditions, `having` the fixed ones and the filters, one ordering, and a limit in [0, 100] with the normalised offset |
| `ReplayQuery.CollectionPaginates` | src/sentry/replays/query.py:66-77 | the collection query always carries the normalised limit and offset |
| `ReplayQuery.CollectionExample` | src/sentry/replays/query.py:66-77 | limit "200", sort "-duration": limit 10, offset 0, duration descending |
| `ReplayQuery.QueryReplaysCollectionWithEnvironment` | src/sentry/replays/query.py:62-64 | with the environment wired through, `where` is the fixed conditions followed by the environment condition, the query always paginates within [0, 100] and has one ordering |
| `ReplayQuery.EnvironmentConditionsMeaning` | src/sentry/replays/query.py:62-64 | a row passes the environment condition exactly when no environment is named or its environment is one of those named |
| `ReplayQuery.CollectionEnvironmentMeaning` | src/sentry/replays/query.py:62-73 | with the environment wired through, a row passes exactly when it is in scope and, if environments were named, belongs to one |
| `ReplayQuery.WithEnvironmentAgreesWhenEmpty` | src/sentry/replays/query.py:62-77 | with no environment named, the wired-through query is the one the code builds |
| `ReplayQuery.QueryReplayInstance` | src/sentry/replays/query.py:81-98 | `where` is project IN [project_id], the window, and replay_id = id; `having` is only the fixed conditions; no ordering, no limit, no offset |
| `ReplayQuery.InstanceWhereMeaning` | src/sentry/replays/query.py:88-97 | a row passes the instance query exactly when it belongs to that project, window and replay |
| `ReplayQuery.QueryReplayInstanceAsWritten` | src/sentry/replays/query.py:81-98 | the call as written, with every argument but `search_filters`, fails with the missing-argument error for every input |
| `ReplayQuery.InstanceWithFiltersSupplied` | src/sentry/replays/query.py:88-97 | the same call with no filters supplied builds exactly the corrected instance query |

## Left out

- Submitting the request (`raw_snql_query`) and returning the `data` rows: a network call to the query engine. The model ends at the `Request` value.
- `replay_config` (the search-parser configuration): search filters arrive already parsed.
- What the engine's functions compute (`groupUniqArray` order, `IPv4NumToString`, `IPv6NumToString`, `dateDiff`, `arrayMap`, `toString`, `count`, `groupArray`). They are opaque names. The one exception is the reference meaning of "first unique value" in `Select`, which follows the example in the source's comments.
- What a `having` condition means on an aggregated group. Only `where` conditions on raw rows get a meaning (`Snuba.Holds`).
- The parts of Python's `int()` outside the modelled grammar: non-ASCII digits, whitespace characters other than space, tab, newline, carriage return, vertical tab and form feed, floats (truncated by `int()`), and the digit-count limit of newer Python versions. Any raw value other than a string or an integer is treated as rejected with `TypeError`.
- The query library's own checks on the values it is given, such as the bounds it places on `Limit` and `Offset` values and the type check on a `Condition`'s operator, are not modelled, because the library (snuba_sdk) is not part of this model.
- Filters.ResolveOperator: the fallback in the source is the text "=", not the equality member of the operator enum. It is modelled as equality. Whether the query library accepts the bare text is not part of this model, because the library (snuba_sdk) is not part of this model.
- The laziness of the filter generator: the model returns the whole sequence. Since the generator is consumed once, in order, this changes nothing.
- Datetimes are integers: time zones and datetime arithmetic are not modelled.
- The `dataset` and `app_id` strings are kept as constants and carry no behaviour.

## Findings

| source | as written | input that shows it | evidently intended | confidence | as-written member | corrected member |
|---|---|---|---|---|---|---|
| src/sentry/replays/query.py:62-73 | a non-empty environment list reaches a call with the wrong arity, which raises `TypeError`; the condition list would not be passed on anyway, since `where` is given as an empty list | environment = ["production"] | rows restricted to `environment IN` the given list | high, not executed | `ReplayQuery.QueryReplaysCollection` | `ReplayQuery.QueryReplaysCollectionWithEnvironment` |
| src/sentry/replays/query.py:88-108 | the instance entry point calls the dataset query without the required search-filter argument, so every call raises `TypeError` | project 5, replay "abc", any window | the instance query with no user filters | high, not executed | `ReplayQuery.QueryReplayInstanceAsWritten` | `ReplayQuery.QueryReplayInstance` |

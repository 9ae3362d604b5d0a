# datatables-query, modelled in Dafny

A model of the request-to-query translation of `datatables-query`. The library answers a
DataTables server-side request (`draw`, `start`, `length`, a global `search`, `order` and
`columns`) with a page of documents from a Mongoose model. Everything before the first store call
is pure, and that is what is modelled here:

- the column classifier (`getSearchableFields`). It decides from each column's type hint
  (`name`) and from whether the search text is numeric which columns take part in the global
  search;
- the filter builder (`buildFindParameters`). It yields null, the empty filter, a single-field
  filter, or an `$or` over the searchable fields with an optional `$and` of per-column filters;
- the sort builder (`buildSortParameters`) and the projection builder (`buildSelectParameters`);
- the parameter test `isNaNorUndefined`;
- the prefix of `run`: converting `draw`/`start`/`length`, merging the caller's extra filter
  keys, and the parameter check. The three store calls (count all, count matching, fetch page)
  are modelled against a store given as two functions, so that their order and the
  error-propagation rules can be stated.

JavaScript semantics the code relies on are written out rather than assumed:

- `Number(text)` and `isNaN(text)` follow the StringToNumber grammar of ECMA-262
  (section 7.1.4.1.1): surrounding white space, an optional sign, decimal digits with fraction
  and exponent, `Infinity`, and `0x`/`0o`/`0b` literals. The empty text is zero.
- `String.prototype.slice` resolves negative indices.
- `isNaNorUndefined`'s "falsy but not 0" test is modelled over a `Value` type of primitive
  JavaScript values.

Modules, leaf first:

- `Wrappers`: Option and Result.
- `JsStrings`: lower-casing and `slice`.
- `JsNumbers`: the `Number` conversion of strings.
- `JsValues`: primitive values, `Number(v)`, falsiness, array indexing by a number.
- `DataTables`: the request.
- `Filters`: the filter object.
- `Sequences`: the subsequence relation.
- `ParamCheck`: `isNaNorUndefined`.
- `Classifier`, `FindBuilder`, `SortBuilder`, `SelectBuilder`: the builders.
- `Runner`: the runner.

The classifier rewrites `column.searchable` in place. Here it is a function that returns the
updated columns. `FindBuilder.FindReentrant` shows that building the filter again from the
rewritten request gives the same filter.

Behaviour of `index.js` that the model keeps as it is:

- An empty search text returns `{}` at once, so per-column filters are dropped along with the
  global search (index.js:91-93).
- With exactly one searchable field, the per-column filters are dropped too (index.js:106-109).
- With no searchable field, the filter still carries an empty `$or` array (index.js:112-119; `FindBuilder.FindNoKeptColumn`).
- The classifier changes only `searchable`. It leaves `name` as sent and infers no type, dates
  included (index.js:17-35).
- `draw`, `start` and `length` are converted with `Number` and nothing else. A value that converts
  to NaN fails the parameter check (index.js:248-266).
- `run` builds the query and calls the store directly. There is no `populate` step
  (index.js:246-324).

## Model

| member | source | states |
|---|---|---|
| `JsStrings.ToLower` | index.js:20 | lower-casing keeps the length and maps each character on its own (ASCII letters to lower case) |
| `JsStrings.SliceDropsEnds` | index.js:135 | `slice(1, -1)` drops the first and the last character, leaves nothing of a text of two characters or fewer, and the dropped ends with the result rebuild the text |
| `JsNumbers.DecimalTextRoundTrip` | index.js:193 | `Number` of the decimal text of a natural number is that number, so a position sent as text such as `"2"` names column 2 |
| `JsNumbers.PaddingIgnored` | index.js:99 | white space around a text does not change what `Number`/`isNaN` make of it |
| `ParamCheck.IsNaNOrUndefined` | index.js:51-56 | true exactly when some argument is NaN, or falsy without being the number 0 |
| `ParamCheck.RejectedValues` | index.js:51-56 | the rejected arguments are exactly those that convert to NaN, plus `null`, `false` and `''` |
| `ParamCheck.NumberRejectedOnlyWhenNaN` | index.js:197 | on a value that is already a number, the test is exactly `isNaN` |
| `Classifier.Classify` | index.js:17-35 | the pass keeps the column count, changes no field but `searchable`, never switches a column on, and leaves it on exactly when its lower-cased `name` is `"number"` (numeric text) or `"string"` (any other text) |
| `Classifier.SearchableFields` | index.js:14-43 | `getSearchableFields` never returns more fields than there are columns |
| `Classifier.SearchableFieldsMembers` | index.js:14-43 | a field is returned exactly when some column that keeps its place (searchable, with the wanted type hint) has it as its `data` |
| `Classifier.SearchableFieldsAppend` | index.js:17-42 | columns are judged one by one: the fields of a concatenation are the fields of each part, in order |
| `Classifier.SearchableFieldsOne` | index.js:17-42 | a single column contributes its `data` exactly when it keeps its place |
| `Classifier.SearchableFieldsSubsequence` | index.js:38-42 | the searchable fields are a subsequence of the columns' `data`, in column order |
| `Classifier.ClassifyIdempotent` | index.js:17-35 | classifying the rewritten columns again against the same text changes nothing |
| `FindBuilder.GlobalMatch` | index.js:96-101 | the global condition is a number exactly when the text is numeric, that number being `Number(text)` and never NaN; otherwise it is a regular expression of the text itself |
| `FindBuilder.ColumnMatch` | index.js:133-137 | a per-column condition is built from the column's search value without its first and last characters; it is a number exactly when the column is typed `"number"` or that text is numeric, otherwise a regular expression of that text |
| `FindBuilder.ShortColumnFilterIsZero` | index.js:135-137 | a per-column search value of one or two characters leaves an empty text, which becomes the number 0 |
| `FindBuilder.ColumnClauses` | index.js:123-137 | the `$and` clauses are no more than the columns; they are empty exactly when no column has a search value; each is `{data: condition}` of a column with a non-empty search value |
| `FindBuilder.ColumnClausesAppend` | index.js:124-132 | the `$and` clauses follow column order: those of a concatenation are those of each part in turn |
| `FindBuilder.BuildFind` | index.js:79-93 | null exactly when params, columns or search is missing or `search.value` is falsy and not `''`; the empty filter for an empty search text, whatever the per-column values |
| `FindBuilder.FindSingleColumn` | index.js:104-109 | when exactly one column keeps its place, the filter is exactly `{data: condition}` for that column, with no `$or` and no `$and` |
| `FindBuilder.FindOneField` | index.js:104-109 | with exactly one searchable field, exactly one column keeps its place and the filter is `{data: condition}` for it alone; with `FindSeveralFields` this covers every non-empty search text |
| `FindBuilder.FindSeveralFields` | index.js:112-171 | with zero or several searchable fields: `$or` holds one clause per field, in order, each with the global condition; `$and` is present exactly when some column has a non-empty search value and then holds those columns' clauses; no other key |
| `FindBuilder.FindNoKeptColumn` | index.js:103-119 | with no column keeping its place, the filter still carries an `$or`, and it is empty |
| `FindBuilder.FindReentrant` | index.js:17-35 | building the filter from the request as rewritten by the classifier gives the same filter |
| `SortBuilder.BuildSort` | index.js:188-216 | null exactly when the order is missing or empty, the position is NaN, columns is not an array, the position is at least the column count, the column's `orderable` is `'false'`, or its `data` is empty; otherwise the field for `dir === 'asc'` and the field prefixed with `-` for any other `dir` |
| `SortBuilder.SortKeyReadsBack` | index.js:211-215 | reading the sort key back (a leading `-` meaning descending) gives the designated field and the requested direction, when the field does not itself begin with `-` |
| `SortBuilder.SortByDecimalPosition` | index.js:193-215 | an `order[0].column` sent as the decimal text of a position sorts on the column at that position, unless it is not orderable or has no field |
| `SelectBuilder.Project` | index.js:224-230 | the `reduce` adds every column's field to the accumulated keys, each mapped to 1, and keeps the other keys' values |
| `SelectBuilder.BuildSelect` | index.js:218-231 | null exactly when params is missing or columns is not an array; otherwise the keys are exactly the columns' `data` values, each mapped to 1 |
| `Runner.Merge` | index.js:258 | the merged filter has the keys of both; the caller's keys win, the derived keys fill in the rest, and a null derived filter contributes nothing |
| `Runner.PaginationCheck` | index.js:266 | the check on the converted `draw`, `start` and `length` fails exactly when one of them is NaN |
| `Runner.Preflight` | index.js:248-273 | as written: fails exactly when draw, start or length converts to NaN (reported first) or the sort or projection is null; a passing query carries the merged filter, the built sort key and projection, and the converted numbers |
| `Runner.PreflightIgnoresNullFilter` | index.js:251-271 | as written, a request the filter builder rejects passes the check, and its query filters on the caller's keys alone |
| `Runner.NullFilterExample` | index.js:251-271 | a concrete request without `search` is rejected by the filter builder yet passes the check with the empty filter |
| `Runner.PreflightChecked` | index.js:266-273 | the corrected check: fails exactly when draw, start or length is NaN or the filter, sort or projection is null; on success the query carries the merge of the derived filter with the caller's keys (the caller's win), the built sort key and projection, and the converted numbers |
| `Runner.PreflightCheckedAgrees` | index.js:271 | the corrected check differs from the one as written only for a null derived filter, which it refuses |
| `Runner.Execute` | index.js:276-323 | the store calls issued are a prefix of count-all, count-matching, fetch; each earlier call succeeded; the outcome is the failing call's error, or the envelope of draw, both counts and the page |
| `Runner.Run` | index.js:262-324 | as written: a parameter error, the one the check reports, is returned exactly when the check as written fails, and then no store call is issued; otherwise the store calls run in order on the checked query |
| `Runner.RunIgnoresNullFilter` | index.js:251-292 | as written, a request the filter builder rejects still reaches the store: it counts every document, then counts with the caller's keys alone |
| `Runner.RunChecked` | index.js:262-324 | with the corrected check: the same, except that a null derived filter is a parameter error and issues no store call |

## Findings

| source | as written | input that shows it | evidently intended | confidence | as-written member | corrected member |
|---|---|---|---|---|---|---|
| index.js:251-271 | the filter from `buildFindParameters` is spread into a fresh object (line 258) before the test `!findParameters` (line 271), so that test can never fail | a request with valid `draw`/`start`/`length`, `order` and `columns` but no `search` object (or a `search.value` that is falsy and not `''`): the builder returns null, yet the query runs with the filter `{}` and matches every document | a null filter fails the parameter check with "Invalid findParameters ...", as the test at line 271 and its error message say | high; not executed | `Runner.Preflight`, `Runner.NullFilterExample`, `Runner.Run`, `Runner.RunIgnoresNullFilter` | `Runner.PreflightChecked`, `Runner.RunChecked` |

`Runner.Run` models `run` as written; `Runner.RunChecked` is the same runner with the corrected check.

## Left out

- The Mongoose model and `async.series`. The store is two functions given to `Runner.Run` and `Runner.RunChecked` (count, fetch), and the Promise becomes a `Result`. Key order inside JavaScript objects is not modelled: filters and projections are maps.
- The key `"__proto__"`. Objects built by assignment are maps here, but in JavaScript `obj["__proto__"] = v` adds no key: a number is ignored, and a `RegExp` becomes the object's prototype. A computed key in an object literal (`{[field]: ...}`, the per-column clauses at index.js:137) and a spread (`Runner.Merge`, index.js:258) do create the key, so those are unaffected. The lines below give the members this affects.
- `SelectBuilder.Project`: for a column whose `data` is `"__proto__"`, `selectParams[field] = 1` at index.js:228 adds no key, so the source's projection lacks that field, while the model maps it to 1.
- `SelectBuilder.BuildSelect`: for a column whose `data` is `"__proto__"`, for the same reason, the source's key set is the columns' `data` without `"__proto__"`.
- `FindBuilder.FindSingleColumn`: for a column whose `data` is `"__proto__"`, the assignment at index.js:107 leaves the filter without keys of its own, so after the spread at index.js:258 the query filters on the caller's keys alone and matches every document; the model's filter has the key `"__proto__"`.
- `FindBuilder.FindOneField`: for a column whose `data` is `"__proto__"`, the same difference, for the same single-field filter.
- `FindBuilder.FindSeveralFields`: for a column whose `data` is `"__proto__"`, `orCondition[field] = ...` at index.js:114 leaves that `$or` entry as `{}`, which matches every document; the model's entry is `Clause("__proto__", m)`.
- Regular-expression semantics. `new RegExp(text, 'i')` is the tag `Regex(text)`. A text that is not a valid pattern makes the source throw (for example `+1`, which is also numeric); the model treats every text as a valid pattern.
- Double-precision rounding. A finite `Number` is an exact real. A literal beyond the double range, such as `1e400`, stays finite instead of becoming `Infinity`. A literal that rounds to an integer, such as `0.99999999999999999999`, stays fractional.
- `JsStrings.ToLower`: maps only ASCII letters. This makes no difference here, because lower-cased names are only compared with `"number"` and `"string"`, and no non-ASCII character lower-cases into one of their letters. U+0130 becomes `i` followed by the combining mark U+0307, which neither word contains, and U+212A (Kelvin sign) becomes `k`, a letter neither word has.
- The string forms of `searchable`. It is a boolean here. DataTables sends the strings `"true"` and `"false"`, and both are truthy, so for a column sent with `"false"` the source can set `searchable = true` at index.js:23 or index.js:29 and then `JSON.parse` at index.js:39 reads it as true. `Classifier.Classify`'s "never switches a column on" holds for boolean flags only.
- Objects and arrays as request values (`Number([5])`), and a truthy `search.value` that is not a string (number, boolean, object). `Value` covers primitives only, and `search.value` is a string or absent. In the source, such a value passes index.js:81 and is searched for (for `true`, the global condition is `Number(true)`, which is 1).
- A column without a string `data`. In the source, a missing `data` becomes the key `"undefined"`.
- `JsStrings.SliceDropsEnds`: a text is a sequence of Unicode scalar values, not of UTF-16 code units. `slice(1, -1)` at index.js:135 drops one code unit at each end, so when the first or last character of a per-column search value lies outside the Basic Multilingual Plane, the source keeps half of its surrogate pair and the model drops the whole character.
- `FindBuilder.ColumnMatch`: for the same reason, a per-column search value whose first or last character lies outside the Basic Multilingual Plane gets a different condition. For `"a\u{1F600}"` the source builds a regular expression of the lone surrogate `"\uD83D"`, while the model builds the number 0. For `"\u{1F600}x\u{1F600}"` the source's pattern is `"\uDE00x\uD83D"`, while the model's is `"x"`.
- `FindBuilder.ShortColumnFilterIsZero`: "one or two characters" counts scalar values. A value of one BMP character and one astral character is three code units in the source and yields a lone surrogate, not the number 0.
- Inputs on which the source throws instead of returning null. These are preconditions:
  - `FindBuilder.FindDefined`: with a non-empty search text, `columns` must be an array.
  - `SortBuilder.SortDefined`: a column position that reaches `columns[...]` must be a non-negative integer.
  - A column without `name` (with a non-empty search text, `column.name.toLowerCase()` at index.js:20 throws), a column without `search` (the per-column scan at index.js:124-125, which runs for a non-empty search text with zero or several searchable fields, reads `column.search.value`), and an `order[0]` that is `null` or `undefined` (index.js:193 reads `.column` of it) cannot be written in the types. An `order[0]` that is some other primitive, such as `5` or `"x"`, does not throw: its `.column` is `undefined`, which is NaN, so the sort is null; the model covers it as `OrderItem(Undefined, ...)`.
  - A column whose `searchable` is missing or `''`: with a non-empty search text, none of the tests at index.js:20-33 fires on a falsy flag, so `JSON.parse` at index.js:39 reads `undefined` (or `''`) and throws a SyntaxError, which escapes `run` at index.js:251 before any Promise exists. `searchable` is a `bool` here, so this input cannot be written.
- `console.log` output, and the commented-out date handling in `buildFindParameters`.

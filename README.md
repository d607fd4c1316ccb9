# Demographic CSV ingestion and chart aggregation — a verified model

This project models the two pieces of logic in the Django app that ingests
uploaded CSV files of people (id, date of birth, gender, region) and
summarises them for charts:

- **`upload_csv`** (myapp/utils/csv_utils.py): for each data row it parses the
  `DD/MM/YYYY` birth date, rejects future dates, rejects all-digit regions and
  rows missing `id` or `gender`, and counts the rest as successes. Accepted
  rows are collected and handed to the store in one bulk insert. The result is
  a report of error, success and total counts.
- **`chart_data`** (myapp/utils/csv_utils.py): turns the per-gender counts into
  two parallel lists. It pivots the per-(region, gender) counts into one series
  per gender, with one value per region and 0 where a pair is missing.
- **`parse_date`, `fetch_gender_data`, `fetch_region_data`** (core/utils.py):
  the `strptime('%d/%m/%Y')` date parser, and the list comprehensions that
  split a group-by query result into aligned label and count lists.

Modules, one per file:

| file | module | models |
|---|---|---|
| wrappers.dfy | `Wrappers` | `Option` (Python's `None` or a value) and `Result` |
| dates.dfy | `Dates` | `Date`, calendar validity, the `%d/%m/%Y` grammar, `ParseDate`, formatting and the round trip |
| projections.dfy | `Projections` | `fetch_gender_data` and `fetch_region_data` |
| string_order.dfy | `StringOrder` | Python's `str` ordering and `sorted(set(...))` |
| ingest.dfy | `Ingest` | the per-row checks, the upload loop and the record store |
| charts.dfy | `Charts` | the lookup table and the gender × region pivot |

How the model treats its inputs:

- The upload is an `Option<seq<Row>>`. `None` means reading or decoding the
  file failed. A `Row` is a map from header field name to cell text.
- The processing date is the parameter `today`, in place of
  `datetime.date.today()`.
- The database is the class `Ingest.PersonStore`. Its `available` flag says
  whether the next bulk insert succeeds. A bulk insert stores the whole batch
  or nothing.
- The two `chart_data` queries are inputs of type `Option<seq<...>>`. `None`
  means the query raised.

Behaviour of the code that the model keeps, which a reader might not expect:

- **Header-only file.** When a file has a header and no data rows, the loop
  never binds `rownum`, and line 87 raises. `UploadCsv` returns
  `Failure(RowNumUnbound)` for that input; it does not return an all-zero
  report. Only a read or decode failure gives the all-zero report. An empty
  file belongs there too, because no encoding can be detected for zero bytes.
- **Check order.** The date is checked before the region, so a row with a
  malformed date is a date error whatever its region is. The two tests in
  myapp/tests.py use ISO dates (`2025-01-01`, `1990-01-01`). Both rows are
  therefore rejected by the date-format check, not by the future-date or
  numeric-region rule their names suggest. `Ingest.UploadTestRows` states
  this.
- **Day and month width.** `strptime` accepts a one-digit day or month, and a
  day written as a space followed by a digit (`" 5/1/2020"`), not only two
  digits; the model follows `strptime`.
- **Query failures in `chart_data`.** When a query raises, the code logs the
  error and then fails with an unbound name at the `return`. The model reports
  an explicit `ChartError` instead.
- **Repeated (region, gender) pairs.** The lookup table keeps the last count
  for a repeated pair. The group-by never repeats a pair; under that condition
  (`Charts.PairsDistinct`), each cell is exactly that pair's count.

## Model

| member | source | states |
|---|---|---|
| `Dates.ParseDate` | core/utils.py:11 | a successful parse returns a valid calendar date (year 1 to 9999, month 1 to 12, day within the month, leap years counted) |
| `Dates.ParseDateComplete` | core/utils.py:11 | a string `D/M/YYYY` matching `%d/%m/%Y` parses to the date it names when that date exists, and to `None` otherwise (for example 31/02, year 0000) |
| `Dates.ParseDateSound` | core/utils.py:11 | every successful parse comes from a string that matches `%d/%m/%Y` with nothing after it, and it returns the date that string names |
| `Dates.RoundTrip` | core/utils.py:11 | formatting a valid date as zero-padded `DD/MM/YYYY` and parsing it gives back the same date |
| `Dates.ParseDateOrNone` | core/utils.py:7-14 | `parse_date` succeeds exactly when the value is present and `strptime` accepts it; the empty string never parses, so skipping it changes nothing; on success it returns the `strptime` date |
| `Dates.IsoDatesRejected` | myapp/tests.py:22-56 | the ISO dates the upload tests use (`2025-01-01`, `1990-01-01`) do not parse |
| `Dates.MalformedDatesRejected` | core/utils.py:11-13 | trailing text and month 13 give `None` |
| `Projections.FetchGenderData` | core/utils.py:19-22 | the two lists have one entry per query row, and pairing them back gives the query result: position i of each comes from row i |
| `Projections.FetchRegionData` | core/utils.py:26-29 | the two lists have equal length and no empty region; pairing them back gives exactly the rows with a truthy region, in query order |
| `Projections.RegionDataAligned` | core/utils.py:27-28 | the two filtered comprehensions keep the same rows, so their results have equal length and line up |
| `Projections.NamedEntriesMembers` | core/utils.py:27-28 | a row is kept if and only if it occurs in the query result with a region that is neither `None` nor empty |
| `Projections.NamedEntriesAppend` | core/utils.py:27-28 | the filter distributes over concatenation, so relative query order is preserved |
| `StringOrder.LessTotal` | myapp/utils/csv_utils.py:134-135 | Python's string order is total: two distinct strings are ordered one way or the other, so `sorted` has one answer |
| `StringOrder.SortedSet` | myapp/utils/csv_utils.py:134-135 | `sorted(set(xs))` is strictly ascending (so duplicate-free) and holds exactly the elements of `xs` |
| `StringOrder.SortedUnique` | myapp/utils/csv_utils.py:134-135 | two strictly ascending lists with the same elements are equal, so `all_regions` and `all_genders` are fully determined by the query result |
| `Ingest.ValidateRow` | myapp/utils/csv_utils.py:49-85 | an accepted row yields a Person whose date parsed from the row and is not after today, whose region is absent or a non-empty string that is not all digits, and whose id, gender and normalised region come from the row |
| `Ingest.ValidateRowRules` | myapp/utils/csv_utils.py:49-72 | the checks run in source order and the first failure decides: missing or unparsable date, then a date after today, then an all-digit region; a row is accepted exactly when every check passes and `id` and `gender` are present; a date equal to today passes the date checks |
| `Ingest.UploadCsv` | myapp/utils/csv_utils.py:11-95 | a read or decode failure reports 0/0/0 and leaves the store alone; a header-only file fails; otherwise the errors are the rejected rows, the successes are the accepted rows and the total is the row count; a non-empty pending list of exactly the accepted Persons, in order, goes to one bulk insert; the report is the same whether that insert fails or not |
| `Ingest.PersonStore.BulkCreate` | myapp/utils/csv_utils.py:89-93 | a bulk insert appends the whole batch when the store is available and otherwise changes no records |
| `Ingest.ReportBalanced` | myapp/utils/csv_utils.py:48-87 | every data row is counted exactly once, so success plus error equals total |
| `Ingest.AcceptedPersonsAppend` | myapp/utils/csv_utils.py:80-81 | the pending list of two runs of rows is the first run's list followed by the second's (input order is kept) |
| `Ingest.AcceptedPersonsMembers` | myapp/utils/csv_utils.py:74-81 | a Person is pending if and only if some row validates to it |
| `Ingest.AcceptedPersonsStorable` | myapp/utils/csv_utils.py:55-68 | nothing handed to the store has a birth date after today or an empty or all-digit region |
| `Ingest.UploadTestRows` | myapp/tests.py:22-56 | each test row is rejected by the date-format check, and a one-row upload of it counts one error and no success |
| `Charts.ChartData` | myapp/utils/csv_utils.py:98-170 | fails exactly when a query failed; otherwise the gender lists pair back into the gender query, `all_regions` is the ascending distinct regions, the series are labelled by the ascending distinct genders, and each series holds, per region, the count recorded for that pair or 0 |
| `Charts.CountForPresent` | myapp/utils/csv_utils.py:142-151 | for a group-by result, the lookup returns a present pair's own count |
| `Charts.CountForAbsent` | myapp/utils/csv_utils.py:153-158 | a pair absent from the query result looks up as 0 |
| `Charts.PivotComplete` | myapp/utils/csv_utils.py:153-163 | every pivot cell is the count of the row with that region and gender, or 0 when there is no such row |

## Left out

- Encoding detection and decoding (`chardet.detect`, `bytes.decode`) are a foreign statistical heuristic. Their outcome is the `None` / rows input.
- CSV tokenising by `csv.DictReader` is a foreign library. Rows arrive already split, every value a string. Short rows, whose missing fields DictReader fills with `None`, are not modelled. Their outcome depends on which field is `None` and on how far the row gets: a `None` date raises out of the loop at line 50; a parsed future date is still counted as an error at lines 55-58 before the region is read; a `None` region raises out of the loop at line 65; a `None` `id` or `gender` reaching lines 74-81 builds a Person with that field `None` and counts as a success. Blank lines, which DictReader skips, are not modelled either.
- The Django ORM, the `Person` models' field lengths and the group-by and `order_by('-count')` queries run in the database. Their results are inputs. Tie order among equal counts is whatever the store returns.
- `uploaded_at`, set by the ORM when the row is inserted (`auto_now_add`), is not part of `Ingest.Person`.
- The branch at myapp/utils/csv_utils.py:51-54 is dead, because a parsed date is always truthy. It is not modelled.
- `Ingest.ValidateRow`: `str.isdigit` is modelled on ASCII digits only. Python also accepts other Unicode digits such as `'²'`.
- `Dates.ParseDate`: the regex `\d` in `strptime` also matches non-ASCII decimal digits; the model accepts ASCII digits only.
- `Charts.ChartData`: genders are strings; a `None` gender is not modelled. In the source, the gender query keeps a `None` gender as a label. In the region query, `sorted` raises only when `None` appears next to a string gender; when `None` is the only gender, `sorted` gives `[None]` and the pivot has one series labelled `None`.
- `Charts.ChartData`: when a query raises, the source ends in a `NameError`. The model returns an explicit failure and does not reproduce the crash.
- `fetch_yearly_birth_data` (core/utils.py:31-42) is not modelled: its year extraction runs in the database.
- The views, URL routing, pagination, messages and the cache with its 600-second expiry (myapp/views.py, core/views.py, myapp/urls.py) are request plumbing over external services. They are not part of this model.
- Logging is not modelled.

# CHEQ data extraction, modelled in Dafny

`cheq.js` is a batch script. It takes a bearer token from the CHEQ
authentication endpoint and builds a one-day window three days back. Then,
for pages 1 to 5 in order, it requests a page of event records from the
analytics data endpoint and writes the page to `page_<n>.csv`. Before a page
is written, every record whose `gtmEvents` field is an array has that field
replaced, in place, by its elements joined with commas. A failed data request
is retried once. The first error anywhere ends the run; that error is caught
and logged, and the script returns normally.

The model covers the logic of the script. The network, the clock and the CSV
writer become oracles, that is, inputs that say what each call returns or
throws:

- `Outcomes`: the errors a step can throw, and `Outcome<T>` (returns a value or throws).
- `Strings`: `Array.prototype.join`, `String.prototype.split` on one character, and
  the decimal rendering of a number, with a partner for each: `split` undoes `join`,
  and `ParseNat` undoes `NatToString`.
- `Flatten`: records as maps from field name to value; the conversion of one record
  (`FlattenRecord`) and of a page (`FlattenAll`); the in-place pass over an array
  (`FlattenRecords`); idempotence and the fixed-point characterisation.
- `Retry`: `getCheqData` as a recursive function over the answers the endpoint gives
  to successive attempts; attempt bounds; which result is returned and which error is
  thrown on.
- `Csv`: the header, the file name `page_<n>.csv`, and `saveDataToCsv`. It converts the
  records in place before the writer runs.
- `Pipeline`: the field list, the date window and `saveCheqData`'s page loop, a
  method whose result lists every page handled and the caught error.

Where the code's behaviour may be unexpected, the model follows the code:

- A page that fails twice rethrows the HTTP library's own error. The code has no
  distinct fetch error carrying the page number (cheq.js:51-52).
- The run never exits with a failure status. The error is caught in the main
  function and only logged (cheq.js:117-119), so `SaveCheqData` returns it as `caught`.
- Credentials are not checked before use (cheq.js:10-11).

## Model

| member | source | states |
|---|---|---|
| `Strings.Split` | cheq.js:106 | `split` always yields at least one piece, so `[0]` is defined |
| `Strings.SplitWithoutSeparator` | cheq.js:106 | a string without the separator splits into itself alone |
| `Strings.SplitAtFirstSeparator` | cheq.js:106 | splitting peels off exactly the piece before the first separator |
| `Strings.SplitJoin` | cheq.js:87 | splitting the joined string at the separator gives back the elements in order (at least one element, none containing the separator) |
| `Strings.JoinIsNotInjective` | cheq.js:87 | the joined string cannot tell `["a,b"]` from `["a","b"]`, nor `[]` from `[""]` |
| `Strings.NatToString` | cheq.js:60 | the page number renders as a non-empty string of decimal digits |
| `Strings.ParseNatToString` | cheq.js:60 | the decimal rendering reads back to the same number |
| `Strings.NatToStringInjective` | cheq.js:60 | distinct numbers render differently |
| `Flatten.FlattenRecord` | cheq.js:85-89 | same key set; every field other than `gtmEvents` unchanged; an array `gtmEvents` becomes its elements joined by `,`; a record whose `gtmEvents` is not an array (string, other scalar, absent) is returned as is; afterwards `gtmEvents` is never an array |
| `Flatten.FlattenAll` | cheq.js:84-90 | the page keeps its number of records and their order: record i of the result is record i of the input converted |
| `Flatten.FlattenRecords` | cheq.js:84-90 | the in-place pass leaves the array holding exactly the converted page, and returns those records |
| `Flatten.FlattenAllIdempotent` | cheq.js:85-88 | a second conversion of a converted page changes nothing |
| `Flatten.FlattenAllFixedPoint` | cheq.js:85-88 | the conversion leaves a page unchanged if and only if no record has an array `gtmEvents` |
| `Flatten.EventsRecoverable` | cheq.js:87 | the joined events keep their original order: splitting at the commas gives them back when none contains a comma |
| `Flatten.SampleRecord` | cheq.js:84-90 | `["view","click"]` becomes `"view,click"` with other fields untouched; `"a,b,c"` stays; `["a","b","c"]` becomes `"a,b,c"` |
| `Retry.Budget` | cheq.js:47-49 | a call may make at least one attempt, one more per positive retry count |
| `Retry.GetCheqData` | cheq.js:32-55 | between 1 and `retries + 1` attempts (1 when `retries <= 0`); the result is the answer of the last attempt made; every earlier attempt threw; a thrown result means the whole budget was used |
| `Retry.FirstSuccessIsReturned` | cheq.js:45-49 | the data of the first successful attempt within the budget is returned, after exactly that many attempts |
| `Retry.AllFailuresRethrowLast` | cheq.js:47-52 | when every attempt throws, all are made and the error of the one made with no retry left is thrown on |
| `Retry.SucceedsIffSomeAttemptSucceeds` | cheq.js:32-55 | the call returns data if and only if some attempt within the budget succeeds |
| `Retry.OnlyMadeAttemptsMatter` | cheq.js:45 | answers beyond the attempts made do not affect the result: no request follows a success |
| `Retry.DefaultAtMostTwoAttempts` | cheq.js:32 | with the default `retries = 1` a page is requested at most twice |
| `Retry.DefaultRetryMasksOneFailure` | cheq.js:46-49 | with the default, a failure followed by a success returns the second answer's data after two attempts |
| `Retry.DefaultSecondFailureIsThrown` | cheq.js:47-52 | with the default, two failures throw the second error after two attempts, with no third |
| `Csv.FileNameNamesPage` | cheq.js:60 | the file name is `page_`, the page number in decimal, `.csv`, and the number reads back from it |
| `Csv.FileNamesDistinct` | cheq.js:60 | different pages go to different files |
| `Csv.CsvFor` | cheq.js:59-93 | saving succeeds exactly when the body holds an array of records and the writer succeeds; then the page's file, the fixed header and the converted records are written; a body without an array throws a type error before any write; a writer failure is thrown as it is |
| `Csv.SaveDataToCsv` | cheq.js:59-93 | copying the body's records into an array, converting them in place and writing gives exactly `CsvFor` |
| `Csv.SamplePage` | cheq.js:60-92 | a one-record page with events `["view","click"]` is written to `page_1.csv` as one row with `"view,click"` |
| `Pipeline.HeaderMatchesFields` | cheq.js:109 | the requested field list is exactly the header's column ids (cheq.js lines 65-79), in the same order: 15 names, none repeated |
| `Pipeline.WindowOfTimestamp` | cheq.js:106-107 | for a timestamp `day + "T" + time` the window is `day + " 00:00:00"` to `day + " 23:59:59"` |
| `Pipeline.WindowIsOneDay` | cheq.js:106-107 | start and end share the same day prefix and differ only in the suffixes ` 00:00:00` and ` 23:59:59` |
| `Pipeline.SampleWindow` | cheq.js:102-107 | the timestamp `2024-06-07T09:30:00.000Z` gives the window `2024-06-07 00:00:00` to `2024-06-07 23:59:59` |
| `Pipeline.RunPage` | cheq.js:111-114 | the request carries the token, the window, the field list and the page; there are one or two attempts; the page is saved only when the fetch returned; the page succeeds exactly when the fetch returned a records array and the writer succeeded |
| `Pipeline.SaveCheqData` | cheq.js:98-120 | a failed authentication handles no page and is caught; otherwise pages 1, 2, ... are handled in ascending order, each as `RunPage` with the same token and window; every page before the last handled one succeeded; the last page's error is the one caught; nothing is caught exactly when all five pages succeeded; the method returns normally in every case |
| `Pipeline.RetrySavesPage` | cheq.js:112-113 | a page whose first request fails and whose retry returns records is saved to its own file, after two requests, with the records converted |
| `Pipeline.TwoFailuresAbortPage` | cheq.js:112 | a page whose two requests both fail throws the second error and is not saved |

## Left out

- Authentication (cheq.js:8-28) is one oracle outcome, the `auth` parameter of `SaveCheqData`. The HTTP request, its URL, its body and `response.data.access_token` are not modelled.
- Credentials are loaded by `dotenv` from `process.env` (cheq.js:1,10-11). This is environment I/O and is not modelled.
- The data request, its URL, headers and JSON body (cheq.js:34-44) are network I/O. They appear only as `Request` values and as the oracle `responses`.
- Each page's oracle must answer two attempts. This is a requirement on the model's input (the endpoint always answers), not on the script's callers.
- csv-writer's serialisation (cheq.js:62-81,92) is a foreign library whose source is not shown: quoting, escaping, the header row, the missing-field rendering and file creation. The model stops at what is handed to the writer, and the writer's success or failure is an oracle.
- `path.join(__dirname, ...)` and the filesystem (cheq.js:60): only the file name is modelled.
- `Date` arithmetic, `setDate` and `toISOString` (cheq.js:102-105) are library behaviour with time-zone subtleties. The ISO timestamp is an input; only `split('T')[0]` and the suffixes are modelled.
- The console output (cheq.js:22,25,48,51,93,116,118) and async/await scheduling are not modelled. The steps run one after another, as the awaits make them.
- Array elements are modelled as strings. JavaScript's `join` also renders numbers, `null` and `undefined` (as empty strings), and those are not modelled.
- Elements of `data.data` that are not objects are not modelled. A `null` element makes the script throw when it reads `record.gtmEvents`; every modelled record is a map.
- Flatten.FlattenRecords: records are values. The JavaScript objects are shared between `data.data` and the array that `map` returns. The script never reads `data.data` again, so that aliasing is not modelled.

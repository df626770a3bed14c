# CFMMC crawler: a verified model

This project models `CFMMCCrawler` in `cfmmc_crawler.py`, a client for the
investor-service portal of the China Futures Market Monitoring Center. The
crawler logs in with an account number, a password and a CAPTCHA answer typed
by a person. It then downloads daily and monthly settlement statements as
Excel files into `output_dir/account_name/<period>/<query kind>/<date>.xls`.

The portal guards every query with an anti-forgery token. The session posts
its current token with each query, then replaces it with the token the
reply's form carries. A batch download therefore forms a token chain: each
fetch sends the token read from the reply to the fetch before it.

The model has six modules:

- `Common`: `Option`, `Result`, the exceptions the crawler raises (`Error`),
  and `Outcome` for methods that return nothing but may raise.
- `Dates`: `datetime.date` (`Date`, the `ValidDate` subset type, the checking
  constructor `MakeDate`), zero padding, and the two `strftime` formats.
- `Months`: `_generate_months_first_day`, which parses the `YYYYMM` prefix of
  both arguments and walks the months with the crawler's own step formula.
- `Paths`: POSIX `os.path.join`.
- `Protocol`: the constants (endpoints, form field names, query kinds and
  their codes), the pages the crawler reads, and the request log. It also
  defines the specification functions for one fetch (`Fetch`) and for a
  whole batch (`BatchRun`, `BatchByFirstMissing`), with the lemmas about them.
- `Crawler`: the class `CFMMCCrawler`, with the fields `isLoggedIn`, `token`
  and a ghost request `log`. Its methods are `Login`, `Logout`,
  `GetDailyData`, `GetMonthlyData`, `DownloadFile`, `BatchDailyDownload` and
  `BatchMonthlyDownload`. A further method, `DownloadMonths`, is the loop of
  the monthly batch, split out of it. Two helpers of the source live outside the
  class. `_check_args`, an instance method, is the function
  `Protocol.ArgsCheck`, which takes the login flag as a parameter. The static
  `_generate_months_first_day` is the method `Months.GenerateMonthsFirstDay`.
  `get_trading_days` has no counterpart (see "Left out").

The HTTP session, the HTML parser and the CAPTCHA prompt are replaced by
parameters. Each method receives the pages the portal answers with. A `Page`
carries its text and what the parser would find in it: the token input's
`value` and the CAPTCHA image's `src`, or `None` where the markup lacks them.
A batch receives `replies: nat -> Page`, the reply to its `k`-th parameter
post. Each method appends what it asks of the outside world (GET, POST,
`makedirs`, file write) to the ghost `log`.

The methods are proved against specification functions. `GetDailyData` and
`GetMonthlyData` leave the state that `Fetch` describes.
`BatchDailyDownload` and `DownloadMonths` run the nested loops over dates and
query kinds. `BatchMonthlyDownload` generates the months and then calls
`DownloadMonths`. The loop invariants tie the state to `RunFrom`, the suffix
of the batch still to come. Lemmas
then show what a batch does:
- logged in, it completes when every reply carries a token;
- logged in, it stops at the first reply without one, after that fetch's directory
  creation and post;
- a non-empty batch raises at once when the session is not logged in;
- fetch `k` posts the token read from reply `k - 1`, and writes to its own
  report path.

## Model

| member | source | states |
|---|---|---|
| Crawler.CFMMCCrawler.constructor | cfmmc_crawler.py:25-33 | A new session stores the five settings, is not logged in, has no token and has requested nothing. |
| Crawler.CFMMCCrawler.Login | cfmmc_crawler.py:35-65 | Gets the login page. A page without the token input or the CAPTCHA image raises `MarkupError` and changes nothing else. Otherwise it gets the CAPTCHA image and posts the token, account number, password and answer. A reply containing the failure phrase leaves flag and token unchanged. Any other reply sets the flag, then takes the reply's token, or raises with the flag already set and the old token kept. |
| Crawler.CFMMCCrawler.Logout | cfmmc_crawler.py:67-73 | Posts to the logout page and clears the flag; the token is kept. |
| Crawler.CFMMCCrawler.DownloadFile | cfmmc_crawler.py:132-136 | Gets the export page, then writes to `fullPath`. |
| Crawler.CFMMCCrawler.GetDailyData | cfmmc_crawler.py:82-105 | The outcome, new token and appended requests are those of `Fetch(Daily, …)`: argument check, `makedirs`, post with the current token, `YYYY-MM-DD` and the label itself as `byType`, token update, download. The login flag is unchanged. |
| Crawler.CFMMCCrawler.GetMonthlyData | cfmmc_crawler.py:107-130 | The same for `Fetch(Monthly, …)`: `YYYY-MM`, and the code the label maps to (`day`/`trade`) as `byType`. |
| Crawler.CFMMCCrawler.BatchDailyDownload | cfmmc_crawler.py:151-161 | For every date, in order, fetches both kinds in dictionary order. Outcome, final token and appended log are those of `BatchRun(Daily, …)` over `Plan(dates)`. |
| Crawler.CFMMCCrawler.BatchMonthlyDownload | cfmmc_crawler.py:163-173 | An unreadable month range raises before any request and changes nothing. Otherwise the months are valid first-of-month dates, and the result is `BatchRun(Monthly, …)` over them. |
| Crawler.CFMMCCrawler.DownloadMonths | cfmmc_crawler.py:171-173 | The loop of the monthly batch: result and state are `BatchRun(Monthly, …)` over `Plan(monthList)`. |
| Protocol.Lookup | cfmmc_crawler.py:125 | A dictionary lookup finds a value exactly for the keys, and the value is stored under that key. |
| Protocol.QueryTypesInOrder | cfmmc_crawler.py:23 | The dictionary's keys in insertion order are mark-to-market, then trade-by-trade, mapping to `day` and `trade`. |
| Protocol.OccursAtShift | cfmmc_crawler.py:60 | Dropping the first character moves every occurrence of the phrase one place left. |
| Protocol.ContainsIff | cfmmc_crawler.py:60 | Python's substring test holds exactly when the phrase occurs at some position. |
| Protocol.ArgsCheck | cfmmc_crawler.py:75-80 | Not logged in raises `RuntimeError` whatever the kind. Logged in, the check passes exactly for the two labels, and any other kind raises `ValueError`. |
| Protocol.ByTypeDiffers | cfmmc_crawler.py:97-101 | The daily post sends the label as `byType`, the monthly post the mapped code. |
| Protocol.ReportPathIsJoin | cfmmc_crawler.py:92-94 | The file path is the report directory joined with `<date>.xls`, as the two joins build it. |
| Protocol.ReportPathSplit | cfmmc_crawler.py:92-94 | Whatever the root and account, the path is the period directory, then `/<kind>/<date>.xls`. |
| Protocol.ReportPathPlain | cfmmc_crawler.py:92-94 | With a non-empty root not ending in `/` and a plain account name, the path is root, account, period, kind and `<date>.xls` joined by `/`. |
| Protocol.ReportPathDistinct | cfmmc_crawler.py:92-94 | Within one root, account and period, two fetches write the same file exactly when kind and date string agree. |
| Protocol.LabelsArePlain | cfmmc_crawler.py:92 | The period labels (`日报` here, `月报` at line 117) and the query kinds (the keys at line 23) are non-empty names with no `/` at either end. |
| Protocol.FetchRequestsListed | cfmmc_crawler.py:92-105 | A fetch's requests are: make the report directory, post the query form, get the export page, write the report path. |
| Protocol.FetchOutcomes | cfmmc_crawler.py:89-105 | A fetch requests nothing unless logged in with a known kind. It succeeds exactly when, in addition, the reply carries a token; only then does it take that token and write the file. A failed fetch keeps the old token and writes nothing. |
| Protocol.PlanAt | cfmmc_crawler.py:159-161 | A batch makes two fetches per date, and fetch `2i+j` is date `i` with kind `j`. |
| Protocol.RunCompletes | cfmmc_crawler.py:159-161 | A run whose fetches all succeed completes, ends with the last token and issues every fetch's requests in order. |
| Protocol.RunStops | cfmmc_crawler.py:159-161 | A run stops at its first fetch that raises. The earlier fetches' requests come first, then that fetch's outcome, token and requests. |
| Protocol.ConcatAt | cfmmc_crawler.py:159-161 | In a run of four-request fetches, request `j` of fetch `i` is at position `4i+j`. |
| Protocol.StepSucceeds | cfmmc_crawler.py:97-105 | A logged-in fetch whose reply carries a token succeeds and passes that token to the next fetch. |
| Protocol.SucceedWhileTokens | cfmmc_crawler.py:159-161 | While the replies carry tokens, the fetches of a logged-in batch succeed one after another. |
| Protocol.BatchRunCompletes | cfmmc_crawler.py:151-173 | If every reply carries a token, a logged-in batch completes, ends with the last reply's token and logs every fetch's four requests. |
| Protocol.BatchRunStops | cfmmc_crawler.py:151-173 | At the first reply `k` without a token, a logged-in batch raises. It keeps the token of reply `k-1`, and its log ends with fetch `k`'s `makedirs` and post. |
| Protocol.BatchRunNotLoggedIn | cfmmc_crawler.py:76-77 | A non-empty batch from a session that is not logged in raises `RuntimeError` and requests nothing. |
| Protocol.BatchRunByFirstMissing | cfmmc_crawler.py:151-173 | The step-by-step batch equals the batch described by where it stops, for every input. |
| Protocol.BatchEventsAt | cfmmc_crawler.py:159-161 | Request `j` of block `k` in a batch log is request `j` of fetch `k`, which sends the token of reply `k-1`. |
| Protocol.FetchSendsToken | cfmmc_crawler.py:97-103 | A fetch's post goes to the parameter page with three fields, the first being the token it sends; the export download follows it. |
| Protocol.FetchAt | cfmmc_crawler.py:97-105 | Fetch `k` of a batch posts the query with the token of reply `k-1`, gets the export and writes it to its report path. |
| Protocol.PostCarriesToken | cfmmc_crawler.py:97-103 | The post of fetch `k` of a batch carries the token of reply `k-1` in the token field, and the export download follows it. |
| Protocol.TokenChain | cfmmc_crawler.py:98-103 | In a run of successful fetches, fetch `k+1` posts the token read from reply `k`, after fetch `k`'s download. |
| Dates.MakeDate | cfmmc_crawler.py:177-182 | `dt.date(y, m, d)` succeeds exactly for a valid date, which it returns; otherwise it raises `ValueError`. |
| Dates.PadRoundTrip | cfmmc_crawler.py:91 | A zero-padded field has the given width, is all digits and reads back as the number. |
| Dates.FormatDayPieces | cfmmc_crawler.py:91 | `%Y-%m-%d` is the padded year, month and day joined by dashes. |
| Dates.FormatMonthPieces | cfmmc_crawler.py:116 | `%Y-%m` is the padded year and month joined by a dash. |
| Dates.FormatDayFields | cfmmc_crawler.py:91 | The daily string has ten characters with dashes at positions 4 and 7, and each field reads back. |
| Dates.FormatMonthFields | cfmmc_crawler.py:116 | The monthly string has seven characters with a dash at position 4, and year and month read back. |
| Dates.FormatDayInjective | cfmmc_crawler.py:91-93 | Two dates give the same daily string exactly when they are equal. |
| Dates.FormatMonthInjective | cfmmc_crawler.py:116-118 | Two dates give the same monthly string exactly when they fall in the same month. |
| Months.Slice | cfmmc_crawler.py:177-178 | Python slicing clamps both bounds to the length: the result has exactly the clamped length, and its `i`-th character is character `lo + i` of the string. |
| Months.ParseInt | cfmmc_crawler.py:177-178 | `int(s)` succeeds exactly on a non-empty digit string, and raises `ValueError` otherwise. |
| Months.ParseIntRoundTrip | cfmmc_crawler.py:177-178 | The value `int(s)` returns is below `10^|s|`, and zero-padding it to the width of `s` gives `s` back. |
| Dates.ParseDigitsPad | cfmmc_crawler.py:177-178 | Reading a digit string and zero-padding the value to the string's length gives the string back. |
| Months.RolloverIsNextMonth | cfmmc_crawler.py:182 | The step formula moves months 1–11 to the next month of the same year, and December to January of the next year. |
| Months.StepFromValid | cfmmc_crawler.py:182 | From a valid first of month, the step succeeds exactly before December 9999, and then gives the next month. |
| Months.DateLeByMonthIndex | cfmmc_crawler.py:180 | On first-of-month dates, `<=` is the order of month indices. |
| Months.GenerateMonthsFirstDay | cfmmc_crawler.py:175-183 | Returns or raises exactly what `MonthsBetween` specifies. |
| Months.CollectFirstDays | cfmmc_crawler.py:179-183 | The loop returns every first of month from start to end, or raises when the step passes December 9999. |
| Months.FirstDaysBetweenShape | cfmmc_crawler.py:179-183 | A start after the end gives `[]`. Otherwise, below December 9999, the list has one valid first of month per month, from the start month to the end month. |
| Months.MonthsBetweenShape | cfmmc_crawler.py:175-183 | The same property for the two date strings, once both parse. |
| Months.MonthsBetweenValid | cfmmc_crawler.py:175-183 | Every month the generator returns is a valid first-of-month date. |
| Months.FirstDaysBetweenConsecutive | cfmmc_crawler.py:180-182 | Consecutive entries are one calendar month apart, with December followed by January of the next year. |
| Months.MonthsBetweenConsecutive | cfmmc_crawler.py:175-183 | The same property for the two date strings. |
| Months.MonthsBetweenReadsSixChars | cfmmc_crawler.py:177-178 | Only the first six characters of each argument matter. |
| Months.FirstDayOfDigits | cfmmc_crawler.py:177 | A string starting with a four-digit year and a two-digit month names that month's first day, or raises as `dt.date` does. |
| Months.ExampleYearEnd | cfmmc_crawler.py:180-182 | November 2023 to February 2024 gives four months across the year end. |
| Months.LastMonthRaises | cfmmc_crawler.py:182 | An end month of December 9999 raises `ValueError`. |
| Months.BadMonthRaises | cfmmc_crawler.py:177 | A month field outside 1–12 raises `ValueError`. |
| Paths.JoinPlain | cfmmc_crawler.py:92 | Joining plain components onto a non-empty path not ending in `/` puts exactly one `/` between them. |
| Paths.JoinRestartsAtAbsolute | cfmmc_crawler.py:92 | An absolute component discards everything joined before it. |
| Paths.JoinAppend | cfmmc_crawler.py:92-94 | Joining once more onto a join is one join with an extra last component. |

## Behaviour as written

The model follows the code where a natural reading of the protocol might expect otherwise:

- The report file is named by the date alone, `<date>.xls`, under
  `output_dir/account_name/<period>/<kind>/`. It carries no account number.
- The daily query posts the Chinese label as `byType`. Only the monthly query
  maps it to `day`/`trade`.
- `logout` clears the login flag but keeps the token.
- A login reply with the CAPTCHA failure phrase leaves the flag as it was:
  a session that was logged in stays logged in.
- A login reply without the phrase sets the flag before the token is read.
  A reply without a token input therefore raises while leaving the session
  logged in. A new session can thus be logged in with no token.
- A missing token input raises whatever the parser raises (modelled as
  `MarkupError`).
- An end month of December 9999 raises `ValueError`. The loop builds the
  month after it before comparing.

## Left out

- HTTP transport: the session object, headers, cookies and the 5-second
  timeouts are not modelled. Replies are parameters, and transport errors are
  not modelled.
- HTML parsing: BeautifulSoup is replaced by the `formToken` and `captchaSrc`
  fields of `Page`. Every parser failure is one error, `MarkupError`.
- CAPTCHA I/O: the image bytes and the window are not modelled. The typed
  answer is a parameter of `Login`.
- The console messages `print` writes are not modelled.
- File system: `os.makedirs` and the file write are log events. File
  contents and file-system errors are not modelled.
- `get_trading_days` (cfmmc_crawler.py:138-149) calls the tushare web API.
  `BatchDailyDownload` therefore takes the list of trading dates rather than
  the two range strings.
- Crawler.CFMMCCrawler.BatchDailyDownload: takes the trading dates, not
  `start_date`/`end_date`, for the same reason.
- Months.ParseInt: accepts ASCII digits only. Python's `int` also accepts
  surrounding whitespace, a sign, underscores and other Unicode digits.
- Dates.FormatDayPieces: `%Y` is modelled as four zero-padded digits. Some
  C libraries print years before 1000 with fewer digits.
- Dates.FormatMonthPieces: the same four-digit `%Y` choice, for the `%Y-%m`
  format of cfmmc_crawler.py:116.
- Protocol.ByType: takes a `QueryKind`, because the argument check has
  already rejected other labels, so the `KeyError` at cfmmc_crawler.py:125
  cannot happen.
- Endpoints: the log records the portal page (`Endpoint`), not the URL
  string. `Protocol.Url` records the addresses of cfmmc_crawler.py:13-18 for
  reference only; neither the log nor any proof uses it.
- Windows paths: `os.path.join` is modelled as POSIX `posixpath.join`.
  `ntpath.join` (backslash separators, drive letters) is not modelled.
- The `__main__` block (configuration file, key check, the calls in order)
  is not part of this model.

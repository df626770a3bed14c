/** The portal's wire protocol as the crawler drives it: fixed endpoints and
    labels, the pages it reads, the requests it records, and the expected
    request log of a single fetch and of a whole batch. */
module Protocol {
  import opened Common
  import opened Dates
  import opened Paths

  // ----- endpoints and labels -----

  const BaseUrl := "https://investorservice.cfmmc.com"

  /** The portal pages the crawler requests; the request log records the
      page, and `Url` gives the address it stands for. */
  datatype Endpoint =
    | LoginPage
    | LogoutPage
    | CaptchaImage(src: string)   // the `src` of the login page's CAPTCHA image
    | ParameterPage
    | DailyExcelPage
    | MonthlyExcelPage

  function Url(e: Endpoint): (r: string) {
    BaseUrl +
      match e
      case LoginPage => "/login.do"
      case LogoutPage => "/logout.do"
      case CaptchaImage(src) => src
      case ParameterPage => "/customer/setParameter.do"
      case DailyExcelPage => "/customer/setupViewCustomerDetailFromCompanyWithExcel.do"
      case MonthlyExcelPage => "/customer/setupViewCustomerMonthDetailFromCompanyWithExcel.do"
  }

  /** Name of the hidden anti-forgery form field. */
  const TokenField := "org.apache.struts.taglib.html.TOKEN"
  /** The phrase a login reply carries when the CAPTCHA answer was wrong. */
  const CaptchaRejected := "验证码错误"

  const MarkToMarket := "逐日盯市"
  const TradeByTrade := "逐笔对冲"

  /** `query_type_dict`: query kind label to the portal's code, in insertion order. */
  const QueryTypeDict: seq<(string, string)> := [(MarkToMarket, "day"), (TradeByTrade, "trade")]

  /** `dict.keys()`, in insertion order. */
  function Keys(d: seq<(string, string)>): (ks: seq<string>)
    ensures |ks| == |d|
  {
    seq(|d|, i requires 0 <= i < |d| => d[i].0)
  }

  /** `d[k]`: the value stored under the first entry with key `k`, `None` where `d[k]` raises `KeyError`. */
  function Lookup(d: seq<(string, string)>, k: string): (r: Option<string>)
    ensures r.Some? <==> k in Keys(d)
    ensures r.Some? ==> (k, r.value) in d
  {
    assert d != [] ==> Keys(d) == [d[0].0] + Keys(d[1..]);
    if d == [] then None
    else if d[0].0 == k then Some(d[0].1)
    else Lookup(d[1..], k)
  }

  /** The query kinds, in the order the batch loops visit them. */
  const QueryTypes: seq<string> := [MarkToMarket, TradeByTrade]

  /** A query kind `_check_args` accepts. */
  type QueryKind = q: string | q in QueryTypes witness MarkToMarket

  /** The kinds are the dictionary's keys in insertion order, and map to the portal's codes. */
  lemma QueryTypesInOrder()
    ensures Keys(QueryTypeDict) == QueryTypes
    ensures Lookup(QueryTypeDict, MarkToMarket) == Some("day")
    ensures Lookup(QueryTypeDict, TradeByTrade) == Some("trade")
  {
  }

  // ----- pages, forms and the request log -----

  /** A page the portal returns: its text, and what an HTML parser finds in it
      (the `value` of the first form input, the `src` of the form's image);
      `None` where the markup lacks the element. */
  datatype Page = Page(text: string, formToken: Option<string>, captchaSrc: Option<string>)

  /** The token the crawler reads from a page (`form.input['value']`). */
  function ExtractToken(p: Page): (r: Option<string>) {
    p.formToken
  }

  /** Form fields in order; a `None` value is dropped by the HTTP client. */
  type Form = seq<(string, Option<string>)>

  /** One effect on the outside world, in the order the crawler performs them. */
  datatype Event =
    | Get(page: Endpoint)
    | Post(page: Endpoint, form: Form)
    | MakeDirs(path: string)
    | WriteFile(path: string)   // writes the body of the preceding Get

  function LoginForm(token: string, accountNo: string, password: string, answer: string): (r: Form) {
    [(TokenField, Some(token)), ("showSaveCookies", Some("")), ("userID", Some(accountNo)),
     ("password", Some(password)), ("vericode", Some(answer))]
  }

  function QueryForm(token: Option<string>, tradeDate: string, byType: string): (r: Form) {
    [(TokenField, token), ("tradeDate", Some(tradeDate)), ("byType", Some(byType))]
  }

  /** The requests of a login whose first page carried both the token and the CAPTCHA image. */
  ghost function LoginEvents(pageToken: string, captchaSrc: string, accountNo: string,
                             password: string, answer: string): (r: seq<Event>) {
    [Get(LoginPage), Get(CaptchaImage(captchaSrc)), Post(LoginPage, LoginForm(pageToken, accountNo, password, answer))]
  }

  // ----- text search -----

  /** Python's `sub in s` on strings. */
  function Contains(s: string, sub: string): (r: bool)
    decreases |s|
  {
    if sub <= s then true
    else if s == [] then false
    else Contains(s[1..], sub)
  }

  ghost predicate OccursAt(s: string, sub: string, i: int) {
    0 <= i && i + |sub| <= |s| && s[i..i + |sub|] == sub
  }

  /** An occurrence at position 0 is a prefix. */
  lemma PrefixAtZero(s: string, sub: string)
    ensures OccursAt(s, sub, 0) ==> sub <= s
  {
    if OccursAt(s, sub, 0) {
      assert s[..|sub|] == sub;
    }
  }

  /** Dropping the first character moves every occurrence one place left. */
  lemma OccursAtShift(s: string, sub: string, i: int)
    requires s != [] && 0 <= i
    ensures OccursAt(s[1..], sub, i) <==> OccursAt(s, sub, i + 1)
  {
    if i + |sub| <= |s[1..]| {
      assert s[1..][i..i + |sub|] == s[i + 1..i + 1 + |sub|];
    }
  }

  /** `Contains` holds exactly when `sub` occurs at some position of `s`. */
  lemma {:induction false} ContainsIff(s: string, sub: string)
    ensures Contains(s, sub) <==> exists i :: OccursAt(s, sub, i)
    decreases |s|
  {
    if sub <= s {
      assert OccursAt(s, sub, 0);
    } else if s == [] {
      assert forall i :: !OccursAt(s, sub, i);
    } else {
      ContainsIff(s[1..], sub);
      PrefixAtZero(s, sub);
      forall i | OccursAt(s, sub, i)
        ensures i >= 1 && OccursAt(s[1..], sub, i - 1)
      {
        OccursAtShift(s, sub, i - 1);
      }
      forall i | OccursAt(s[1..], sub, i)
        ensures OccursAt(s, sub, i + 1)
      {
        OccursAtShift(s, sub, i);
      }
      if Contains(s[1..], sub) {
        var i :| OccursAt(s[1..], sub, i);
        assert OccursAt(s, sub, i + 1);
      }
    }
  }

  // ----- argument check -----

  /** `_check_args`: a query while not logged in raises `RuntimeError`
      whatever the kind; when logged in, an unknown kind raises `ValueError`. */
  function ArgsCheck(isLoggedIn: bool, queryType: string): (r: Outcome)
    ensures !isLoggedIn ==> r == Raised(RuntimeError)
    ensures isLoggedIn ==> (r == Done <==> queryType == MarkToMarket || queryType == TradeByTrade)
    ensures isLoggedIn && r != Done ==> r == Raised(ValueError)
    ensures r == Done ==> queryType in QueryTypes
  {
    QueryTypesInOrder();
    if !isLoggedIn then Raised(RuntimeError)
    else if queryType !in Keys(QueryTypeDict) then Raised(ValueError)
    else Done
  }

  // ----- report kinds and paths -----

  datatype Period = Daily | Monthly

  /** The directory level naming the report period. */
  function PeriodLabel(p: Period): (r: string) {
    match p
    case Daily => "日报"
    case Monthly => "月报"
  }

  /** The `tradeDate` field and file stem: `YYYY-MM-DD` or `YYYY-MM`. */
  function FormatFor(p: Period, d: ValidDate): (r: string) {
    match p
    case Daily => FormatDay(d)
    case Monthly => FormatMonth(d)
  }

  function ExcelPage(p: Period): (r: Endpoint) {
    match p
    case Daily => DailyExcelPage
    case Monthly => MonthlyExcelPage
  }

  /** The `byType` field: the daily fetch sends the label itself, the monthly
      fetch the portal code the label maps to. */
  function ByType(p: Period, queryType: QueryKind): (r: string) {
    match p
    case Daily => queryType
    case Monthly => QueryTypesInOrder(); Lookup(QueryTypeDict, queryType).value
  }

  /** The two fetches send different `byType` values for the same kind. */
  lemma ByTypeDiffers()
    ensures ByType(Daily, MarkToMarket) == MarkToMarket && ByType(Monthly, MarkToMarket) == "day"
    ensures ByType(Daily, TradeByTrade) == TradeByTrade && ByType(Monthly, TradeByTrade) == "trade"
  {
    QueryTypesInOrder();
  }

  /** `output_dir/account_name/<period>/<query kind>`, one `os.path.join` step per level. */
  function ReportDir(outputDir: string, accountName: string, p: Period, queryType: string): (r: string) {
    Join(outputDir, [accountName, PeriodLabel(p), queryType])
  }

  /** The report directory joined with `<date>.xls`. */
  function ReportPath(outputDir: string, accountName: string, p: Period, queryType: string, d: ValidDate): (r: string) {
    Join(outputDir, [accountName, PeriodLabel(p), queryType, FormatFor(p, d) + ".xls"])
  }

  /** The report path is what the second `os.path.join` of a fetch builds
      from the report directory. */
  lemma ReportPathIsJoin(outputDir: string, accountName: string, p: Period, queryType: string, d: ValidDate)
    ensures ReportPath(outputDir, accountName, p, queryType, d) ==
      Join(ReportDir(outputDir, accountName, p, queryType), [FormatFor(p, d) + ".xls"])
  {
    var stem := FormatFor(p, d) + ".xls";
    JoinAppend(outputDir, [accountName, PeriodLabel(p), queryType], stem);
    assert [accountName, PeriodLabel(p), queryType] + [stem] == [accountName, PeriodLabel(p), queryType, stem];
  }

  /** The part of a report path above the query kind, which depends on the
      root, the account and the period only. */
  function PeriodDir(outputDir: string, accountName: string, p: Period): (r: string) {
    JoinOne(JoinOne(outputDir, accountName), PeriodLabel(p))
  }

  /** The period labels and query kinds are plain directory names. */
  lemma LabelsArePlain()
    ensures IsPlain(PeriodLabel(Daily)) && IsPlain(PeriodLabel(Monthly))
    ensures forall q :: q in QueryTypes ==> IsPlain(q) && |q| == 4
  {
  }

  /** Whatever the root and account name, a report path is the period
      directory, then `/<query kind>/<date>.xls`. */
  lemma ReportPathSplit(outputDir: string, accountName: string, p: Period, queryType: QueryKind, d: ValidDate)
    ensures ReportPath(outputDir, accountName, p, queryType, d) ==
      PeriodDir(outputDir, accountName, p) + "/" + queryType + "/" + FormatFor(p, d) + ".xls"
  {
    LabelsArePlain();
    var pd := PeriodDir(outputDir, accountName, p);
    var stem := FormatFor(p, d);
    JoinOneEndsWith(JoinOne(outputDir, accountName), PeriodLabel(p));
    JoinOneInserts(pd, queryType);
    var dir := pd + "/" + queryType;
    JoinUnfold3(outputDir, accountName, PeriodLabel(p), queryType);
    ReportPathIsJoin(outputDir, accountName, p, queryType, d);
    JoinUnfold1(dir, stem + ".xls");
    assert ReportDir(outputDir, accountName, p, queryType) == dir;
    StemStartsWithDigit(p, d);
    JoinOneEndsWith(pd, queryType);
    JoinOneInserts(dir, stem + ".xls");
  }

  lemma StemStartsWithDigit(p: Period, d: ValidDate)
    ensures |FormatFor(p, d)| > 0 && IsDigit(FormatFor(p, d)[0])
  {
    if p == Daily { FormatDayFields(d); } else { FormatMonthFields(d); }
  }

  /** With a plain root and account name the path is the five levels joined by `/`. */
  lemma ReportPathPlain(outputDir: string, accountName: string, p: Period, queryType: QueryKind, d: ValidDate)
    requires |outputDir| > 0 && outputDir[|outputDir| - 1] != '/' && IsPlain(accountName)
    ensures ReportPath(outputDir, accountName, p, queryType, d) ==
      outputDir + "/" + accountName + "/" + PeriodLabel(p) + "/" + queryType + "/" + FormatFor(p, d) + ".xls"
  {
    LabelsArePlain();
    ReportPathSplit(outputDir, accountName, p, queryType, d);
    JoinOneInserts(outputDir, accountName);
    var oa := outputDir + "/" + accountName;
    assert oa[|oa| - 1] == accountName[|accountName| - 1];
    JoinOneInserts(oa, PeriodLabel(p));
  }

  /** Two paths built from the same prefix and equally long kinds are equal
      exactly when the kinds and the date stems are. */
  lemma SuffixesEqual(pd: string, q1: string, f1: string, q2: string, f2: string)
    requires |q1| == |q2|
    ensures pd + "/" + q1 + "/" + f1 + ".xls" == pd + "/" + q2 + "/" + f2 + ".xls" <==> q1 == q2 && f1 == f2
  {
    var s1 := pd + "/" + q1 + "/" + f1 + ".xls";
    var s2 := pd + "/" + q2 + "/" + f2 + ".xls";
    if s1 == s2 {
      var a := |pd| + 1;
      assert s1[a..a + |q1|] == q1;
      assert s2[a..a + |q2|] == q2;
      assert |f1| == |f2|;
      var b := a + |q1| + 1;
      assert s1[b..b + |f1|] == f1;
      assert s2[b..b + |f2|] == f2;
    }
  }

  /** Within one root, account and period, two fetches write the same file
      exactly when they have the same query kind and the same date string:
      every (date, kind) pair of a daily batch gets its own file. */
  lemma ReportPathDistinct(outputDir: string, accountName: string, p: Period,
                           q1: QueryKind, d1: ValidDate, q2: QueryKind, d2: ValidDate)
    ensures ReportPath(outputDir, accountName, p, q1, d1) == ReportPath(outputDir, accountName, p, q2, d2)
      <==> q1 == q2 && FormatFor(p, d1) == FormatFor(p, d2)
  {
    LabelsArePlain();
    ReportPathSplit(outputDir, accountName, p, q1, d1);
    ReportPathSplit(outputDir, accountName, p, q2, d2);
    SuffixesEqual(PeriodDir(outputDir, accountName, p), q1, FormatFor(p, d1), q2, FormatFor(p, d2));
  }

  // ----- one fetch -----

  /** The first `n` requests of a fetch of `(d, queryType)` that sends the
      token `sent`: create the report directory, post the query parameters with
      the token, download the export, write it to the report path. A fetch
      whose reply lacks a token stops after the first two. */
  ghost function FetchRequests(p: Period, outputDir: string, accountName: string,
                               sent: Option<string>, d: ValidDate, queryType: QueryKind, n: nat): (ev: seq<Event>)
    ensures |ev| == n
  {
    if n == 0 then []
    else
      var last :=
        if n == 1 then MakeDirs(ReportDir(outputDir, accountName, p, queryType))
        else if n == 2 then Post(ParameterPage, QueryForm(sent, FormatFor(p, d), ByType(p, queryType)))
        else if n == 3 then Get(ExcelPage(p))
        else WriteFile(ReportPath(outputDir, accountName, p, queryType, d));
      FetchRequests(p, outputDir, accountName, sent, d, queryType, n - 1) + [last]
  }

  /** All four requests of a successful fetch. */
  ghost function FetchEvents(p: Period, outputDir: string, accountName: string,
                             sent: Option<string>, d: ValidDate, queryType: QueryKind): (ev: seq<Event>)
    ensures |ev| == 4
  {
    FetchRequests(p, outputDir, accountName, sent, d, queryType, 4)
  }

  /** The requests of a fetch, written out. */
  lemma FetchRequestsListed(p: Period, outputDir: string, accountName: string,
                            sent: Option<string>, d: ValidDate, queryType: QueryKind)
    ensures FetchRequests(p, outputDir, accountName, sent, d, queryType, 2) ==
      [MakeDirs(ReportDir(outputDir, accountName, p, queryType)),
       Post(ParameterPage, QueryForm(sent, FormatFor(p, d), ByType(p, queryType)))]
    ensures FetchEvents(p, outputDir, accountName, sent, d, queryType) ==
      FetchRequests(p, outputDir, accountName, sent, d, queryType, 2) +
      [Get(ExcelPage(p)), WriteFile(ReportPath(outputDir, accountName, p, queryType, d))]
  {
    var r1 := FetchRequests(p, outputDir, accountName, sent, d, queryType, 1);
    var r2 := FetchRequests(p, outputDir, accountName, sent, d, queryType, 2);
    var r3 := FetchRequests(p, outputDir, accountName, sent, d, queryType, 3);
    assert r1 == [MakeDirs(ReportDir(outputDir, accountName, p, queryType))];
    assert r3 == r2 + [Get(ExcelPage(p))];
  }

  /** One `get_daily_data` / `get_monthly_data` call on a session whose login
      flag is `isLoggedIn` and whose token is `token`, the parameter post being
      answered by `reply`: the outcome, the token afterwards, and the requests
      issued. The argument check comes first; a reply without a token raises
      after the post. */
  ghost function Fetch(p: Period, outputDir: string, accountName: string, isLoggedIn: bool,
                       token: Option<string>, d: ValidDate, queryType: string, reply: Page)
    : (r: (Outcome, Option<string>, seq<Event>))
  {
    var check := ArgsCheck(isLoggedIn, queryType);
    if check.Raised? then (check, token, [])
    else if ExtractToken(reply).None? then
      (Raised(MarkupError), token, FetchRequests(p, outputDir, accountName, token, d, queryType, 2))
    else (Done, ExtractToken(reply), FetchEvents(p, outputDir, accountName, token, d, queryType))
  }

  /** A fetch asks nothing of the outside world unless the session is logged
      in and the kind is known; it succeeds exactly when, in addition, the
      reply carries a token, and only then does it take that token, download
      the export and write it to the report path. */
  lemma FetchOutcomes(p: Period, outputDir: string, accountName: string, isLoggedIn: bool,
                      token: Option<string>, d: ValidDate, queryType: string, reply: Page)
    ensures var r := Fetch(p, outputDir, accountName, isLoggedIn, token, d, queryType, reply);
      (r.2 == [] <==> !isLoggedIn || queryType !in QueryTypes) &&
      (!isLoggedIn ==> r.0 == Raised(RuntimeError)) &&
      (isLoggedIn && queryType !in QueryTypes ==> r.0 == Raised(ValueError)) &&
      (r.0 == Done <==> isLoggedIn && queryType in QueryTypes && ExtractToken(reply).Some?) &&
      (r.0 == Done ==>
         r.1 == ExtractToken(reply) && |r.2| == 4 &&
         r.2[1] == Post(ParameterPage, QueryForm(token, FormatFor(p, d), ByType(p, queryType))) &&
         r.2[3] == WriteFile(ReportPath(outputDir, accountName, p, queryType, d))) &&
      (r.0 != Done ==> r.1 == token && forall i :: 0 <= i < |r.2| ==> !r.2[i].WriteFile?)
  {
    QueryTypesInOrder();
    if isLoggedIn && queryType in QueryTypes {
      FetchRequestsListed(p, outputDir, accountName, token, d, queryType);
    }
  }

  // ----- batches -----

  /** The (date, query kind) pairs of a batch: date-major, kinds in dictionary order. */
  function Plan(dates: seq<ValidDate>): (r: seq<(ValidDate, QueryKind)>) {
    if dates == [] then []
    else
      var d := dates[|dates| - 1];
      Plan(dates[..|dates| - 1]) + [(d, MarkToMarket), (d, TradeByTrade)]
  }

  /** The batch issues two fetches per date; fetch `2 * i + j` is date `i`
      with the `j`-th query kind. */
  lemma {:induction false} PlanAt(dates: seq<ValidDate>)
    ensures |Plan(dates)| == 2 * |dates|
    ensures forall i, j :: 0 <= i < |dates| && 0 <= j < 2 ==> Plan(dates)[2 * i + j] == (dates[i], QueryTypes[j])
  {
    QueryTypesInOrder();
    if dates != [] {
      var init := dates[..|dates| - 1];
      PlanAt(init);
      forall i, j | 0 <= i < |dates| && 0 <= j < 2
        ensures Plan(dates)[2 * i + j] == (dates[i], QueryTypes[j])
      {
        if i < |dates| - 1 {
          assert Plan(dates)[2 * i + j] == Plan(init)[2 * i + j];
          assert init[i] == dates[i];
        }
      }
    }
  }

  /** Fetch `2 * i + j` of a batch over `dates`, as `PlanAt` states it for all of them.
      This and `PlanLength` are the instances the batch loops need: calling them
      rather than `PlanAt` keeps `PlanAt`'s quantifier out of the loops' proofs. */
  lemma PlanEntry(dates: seq<ValidDate>, i: nat, j: nat)
    requires i < |dates| && j < 2
    ensures |Plan(dates)| == 2 * |dates| && Plan(dates)[2 * i + j] == (dates[i], QueryTypes[j])
  {
    PlanAt(dates);
  }

  /** The length fact of `PlanAt` alone, for the same reason as `PlanEntry`. */
  lemma PlanLength(dates: seq<ValidDate>)
    ensures |Plan(dates)| == 2 * |dates|
  {
    PlanAt(dates);
  }

  /** The token the `k`-th fetch of a batch sends: the session's token for
      the first fetch, afterwards the one read from the previous fetch's reply. */
  ghost function SentToken(token0: Option<string>, replies: nat -> Page, k: nat): (r: Option<string>) {
    if k == 0 then token0 else ExtractToken(replies(k - 1))
  }

  /** The replies to the first `n` posts all carry a token. */
  ghost predicate TokensUpTo(replies: nat -> Page, n: nat) {
    forall k :: 0 <= k < n ==> ExtractToken(replies(k)).Some?
  }

  /** The first of the first `n` replies without a token, or `n` if there is none. */
  ghost function FirstMissing(replies: nat -> Page, n: nat, from: nat := 0): (f: nat)
    requires from <= n && TokensUpTo(replies, from)
    ensures from <= f <= n && TokensUpTo(replies, f)
    ensures f < n ==> ExtractToken(replies(f)).None?
    decreases n - from
  {
    if from == n || ExtractToken(replies(from)).None? then from
    else FirstMissing(replies, n, from + 1)
  }

  /** One fetch of a run, given the token it sends and its position in the
      run: the outcome, the token afterwards and the requests it issues. */
  type Step = (Option<string>, nat) -> (Outcome, Option<string>, seq<Event>)

  /** Fetches `k` to `count - 1` of a run, the first of them sending `token`:
      each fetch sends the token the fetch before it took, and once a fetch
      raises, the fetches after it do not happen. */
  ghost function RunFrom(step: Step, count: nat, k: nat, token: Option<string>): (r: (Outcome, Option<string>, seq<Event>))
    decreases count - k
  {
    if k >= count then (Done, token, [])
    else
      var r := step(token, k);
      if r.0.Raised? then r
      else
        var rest := RunFrom(step, count, k + 1, r.1);
        (rest.0, rest.1, r.2 + rest.2)
  }

  /** The requests of fetches `k` to `n - 1`, `events(i)` being those of fetch `i`. */
  ghost function Concat(events: nat -> seq<Event>, k: nat, n: nat): (r: seq<Event>)
    decreases n - k
  {
    if k >= n then [] else events(k) + Concat(events, k + 1, n)
  }

  /** Fetches `k` to `n - 1` all succeed: fetch `j` sends `tokens(j)`, takes
      `tokens(j + 1)` and issues `events(j)`. */
  ghost predicate Succeed(step: Step, tokens: nat -> Option<string>, events: nat -> seq<Event>, k: nat, n: nat) {
    forall j :: k <= j < n ==> step(tokens(j), j) == (Done, tokens(j + 1), events(j))
  }

  lemma AppendAssoc(a: seq<Event>, b: seq<Event>, c: seq<Event>)
    ensures (a + b) + c == a + (b + c)
  {
  }

  /** A run whose fetches all succeed completes, takes the last token and issues every fetch's requests in order. */
  lemma {:induction false} RunCompletes(step: Step, tokens: nat -> Option<string>, events: nat -> seq<Event>, k: nat, n: nat)
    requires k <= n && Succeed(step, tokens, events, k, n)
    ensures RunFrom(step, n, k, tokens(k)) == (Done, tokens(n), Concat(events, k, n))
    decreases n - k
  {
    if k < n {
      RunCompletes(step, tokens, events, k + 1, n);
    }
  }

  /** A run stops at its first fetch that raises: the fetches before it
      complete, and the run ends with that fetch's outcome, its token and its requests. */
  lemma {:induction false} RunStops(step: Step, tokens: nat -> Option<string>, events: nat -> seq<Event>,
                                    k: nat, f: nat, n: nat)
    requires k <= f < n && Succeed(step, tokens, events, k, f) && step(tokens(f), f).0.Raised?
    ensures var r := step(tokens(f), f);
      RunFrom(step, n, k, tokens(k)) == (r.0, r.1, Concat(events, k, f) + r.2)
    decreases f - k
  {
    var r := step(tokens(f), f);
    if k < f {
      RunStops(step, tokens, events, k + 1, f, n);
      AppendAssoc(events(k), Concat(events, k + 1, f), r.2);
    } else {
      assert [] + r.2 == r.2;
    }
  }

  lemma {:induction false} ConcatLength(events: nat -> seq<Event>, k: nat, n: nat)
    requires k <= n && forall m :: k <= m < n ==> |events(m)| == 4
    ensures |Concat(events, k, n)| == 4 * (n - k)
    decreases n - k
  {
    if k < n {
      ConcatLength(events, k + 1, n);
    }
  }

  /** Fetches of four requests each: request `j` of fetch `i` sits at
      `4 * (i - k) + j` in the requests of fetches `k` to `n - 1`. */
  lemma {:induction false} ConcatAt(events: nat -> seq<Event>, k: nat, n: nat, i: nat, j: nat)
    requires k <= i < n && j < 4 && forall m :: k <= m < n ==> |events(m)| == 4
    ensures |Concat(events, k, n)| == 4 * (n - k) && Concat(events, k, n)[4 * (i - k) + j] == events(i)[j]
    decreases n - k
  {
    ConcatLength(events, k, n);
    if k < i {
      ConcatAt(events, k + 1, n, i, j);
    }
  }

  /** Fetch `k` of a batch over `plan`: the `k`-th (date, query kind) pair,
      answered by `replies(k)`. */
  ghost function BatchStep(p: Period, outputDir: string, accountName: string, isLoggedIn: bool,
                           plan: seq<(ValidDate, QueryKind)>, replies: nat -> Page): (r: Step)
  {
    (token: Option<string>, k: nat) =>
      if k < |plan| then Fetch(p, outputDir, accountName, isLoggedIn, token, plan[k].0, plan[k].1, replies(k))
      else (Done, token, [])
  }

  /** What a whole batch over `plan` does, from a session whose login flag is
      `isLoggedIn` and whose token is `token0`. */
  ghost function BatchRun(p: Period, outputDir: string, accountName: string, isLoggedIn: bool,
                          token0: Option<string>, plan: seq<(ValidDate, QueryKind)>, replies: nat -> Page)
    : (r: (Outcome, Option<string>, seq<Event>))
  {
    RunFrom(BatchStep(p, outputDir, accountName, isLoggedIn, plan, replies), |plan|, 0, token0)
  }

  /** The tokens the fetches of a batch send while they succeed. */
  ghost function BatchTokens(token0: Option<string>, replies: nat -> Page): (r: nat -> Option<string>) {
    (k: nat) => SentToken(token0, replies, k)
  }

  /** The requests of each fetch of a batch that succeeds. */
  ghost function BatchBlocks(p: Period, outputDir: string, accountName: string, token0: Option<string>,
                             plan: seq<(ValidDate, QueryKind)>, replies: nat -> Page): (r: nat -> seq<Event>)
  {
    (k: nat) => if k < |plan| then FetchEvents(p, outputDir, accountName, SentToken(token0, replies, k), plan[k].0, plan[k].1) else []
  }

  /** The requests of the first `n` fetches of a batch that all succeed:
      fetch `k` sends the token of reply `k - 1` (the session's token for the first). */
  ghost function BatchEvents(p: Period, outputDir: string, accountName: string, token0: Option<string>,
                             plan: seq<(ValidDate, QueryKind)>, replies: nat -> Page, n: nat): (ev: seq<Event>)
    requires n <= |plan|
    ensures |ev| == 4 * n
  {
    ConcatLength(BatchBlocks(p, outputDir, accountName, token0, plan, replies), 0, n);
    Concat(BatchBlocks(p, outputDir, accountName, token0, plan, replies), 0, n)
  }

  /** The same batch described by where it stops rather than step by step:
      an empty plan does nothing; a session that is not logged in raises
      `RuntimeError` at the first fetch; otherwise the fetches complete up to
      the first reply without a token, whose fetch posts and then raises,
      leaving the token from the reply before it. */
  ghost function BatchByFirstMissing(p: Period, outputDir: string, accountName: string, isLoggedIn: bool,
                                     token0: Option<string>, plan: seq<(ValidDate, QueryKind)>, replies: nat -> Page)
    : (r: (Outcome, Option<string>, seq<Event>))
  {
    if plan == [] then (Done, token0, [])
    else if !isLoggedIn then (Raised(RuntimeError), token0, [])
    else
      var f := FirstMissing(replies, |plan|);
      var sent := SentToken(token0, replies, f);
      var done := BatchEvents(p, outputDir, accountName, token0, plan, replies, f);
      if f < |plan| then
        (Raised(MarkupError), sent, done + FetchRequests(p, outputDir, accountName, sent, plan[f].0, plan[f].1, 2))
      else (Done, sent, done)
  }

  /** A fetch of a logged-in batch whose reply carries a token succeeds and passes that token on. */
  lemma StepSucceeds(p: Period, outputDir: string, accountName: string, token0: Option<string>,
                     plan: seq<(ValidDate, QueryKind)>, replies: nat -> Page, k: nat)
    requires k < |plan| && ExtractToken(replies(k)).Some?
    ensures BatchStep(p, outputDir, accountName, true, plan, replies)(SentToken(token0, replies, k), k) ==
      (Done, SentToken(token0, replies, k + 1), BatchBlocks(p, outputDir, accountName, token0, plan, replies)(k))
  {
    QueryTypesInOrder();
  }

  /** While the replies carry tokens, the fetches of a logged-in batch succeed one after another. */
  lemma SucceedWhileTokens(p: Period, outputDir: string, accountName: string, token0: Option<string>,
                           plan: seq<(ValidDate, QueryKind)>, replies: nat -> Page, n: nat)
    requires n <= |plan| && TokensUpTo(replies, n)
    ensures Succeed(BatchStep(p, outputDir, accountName, true, plan, replies), BatchTokens(token0, replies),
                    BatchBlocks(p, outputDir, accountName, token0, plan, replies), 0, n)
  {
    forall j | 0 <= j < n
      ensures BatchStep(p, outputDir, accountName, true, plan, replies)(BatchTokens(token0, replies)(j), j) ==
        (Done, BatchTokens(token0, replies)(j + 1), BatchBlocks(p, outputDir, accountName, token0, plan, replies)(j))
    {
      StepSucceeds(p, outputDir, accountName, token0, plan, replies, j);
    }
  }

  /** A batch whose every reply carries a token completes every fetch. */
  lemma BatchRunCompletes(p: Period, outputDir: string, accountName: string, isLoggedIn: bool,
                          token0: Option<string>, plan: seq<(ValidDate, QueryKind)>, replies: nat -> Page)
    requires (plan != [] ==> isLoggedIn) && TokensUpTo(replies, |plan|)
    ensures BatchRun(p, outputDir, accountName, isLoggedIn, token0, plan, replies) ==
      (Done, SentToken(token0, replies, |plan|), BatchEvents(p, outputDir, accountName, token0, plan, replies, |plan|))
  {
    if plan != [] {
      SucceedWhileTokens(p, outputDir, accountName, token0, plan, replies, |plan|);
      RunCompletes(BatchStep(p, outputDir, accountName, true, plan, replies), BatchTokens(token0, replies),
                   BatchBlocks(p, outputDir, accountName, token0, plan, replies), 0, |plan|);
    }
  }

  /** A batch stops at the first reply without a token, after that fetch's first two requests. */
  lemma BatchRunStops(p: Period, outputDir: string, accountName: string,
                      token0: Option<string>, plan: seq<(ValidDate, QueryKind)>, replies: nat -> Page, k: nat)
    requires k < |plan| && TokensUpTo(replies, k) && ExtractToken(replies(k)).None?
    ensures BatchRun(p, outputDir, accountName, true, token0, plan, replies) ==
      (Raised(MarkupError), SentToken(token0, replies, k),
       BatchEvents(p, outputDir, accountName, token0, plan, replies, k) +
       FetchRequests(p, outputDir, accountName, SentToken(token0, replies, k), plan[k].0, plan[k].1, 2))
  {
    SucceedWhileTokens(p, outputDir, accountName, token0, plan, replies, k);
    QueryTypesInOrder();
    RunStops(BatchStep(p, outputDir, accountName, true, plan, replies), BatchTokens(token0, replies),
             BatchBlocks(p, outputDir, accountName, token0, plan, replies), 0, k, |plan|);
  }

  /** A batch from a session that is not logged in raises at its first fetch, having asked nothing. */
  lemma BatchRunNotLoggedIn(p: Period, outputDir: string, accountName: string,
                            token0: Option<string>, plan: seq<(ValidDate, QueryKind)>, replies: nat -> Page)
    requires plan != []
    ensures BatchRun(p, outputDir, accountName, false, token0, plan, replies) == (Raised(RuntimeError), token0, [])
  {
    var first := Fetch(p, outputDir, accountName, false, token0, plan[0].0, plan[0].1, replies(0));
    assert first == (Raised(RuntimeError), token0, []);
    assert BatchStep(p, outputDir, accountName, false, plan, replies)(token0, 0) == first;
  }

  /** The step-by-step batch and the batch described by where it stops agree on every input. */
  lemma BatchRunByFirstMissing(p: Period, outputDir: string, accountName: string, isLoggedIn: bool,
                               token0: Option<string>, plan: seq<(ValidDate, QueryKind)>, replies: nat -> Page)
    ensures BatchRun(p, outputDir, accountName, isLoggedIn, token0, plan, replies) ==
      BatchByFirstMissing(p, outputDir, accountName, isLoggedIn, token0, plan, replies)
  {
    if plan != [] && isLoggedIn {
      var f := FirstMissing(replies, |plan|);
      if f < |plan| {
        BatchRunStops(p, outputDir, accountName, token0, plan, replies, f);
      } else {
        BatchRunCompletes(p, outputDir, accountName, isLoggedIn, token0, plan, replies);
      }
    } else if plan != [] {
      BatchRunNotLoggedIn(p, outputDir, accountName, token0, plan, replies);
    }
  }

  /** Every block of a batch is the four requests of one fetch. */
  lemma BatchBlocksSize(p: Period, outputDir: string, accountName: string, token0: Option<string>,
                        plan: seq<(ValidDate, QueryKind)>, replies: nat -> Page)
    ensures forall m: nat :: m < |plan| ==> |BatchBlocks(p, outputDir, accountName, token0, plan, replies)(m)| == 4
  {
    forall m: nat | m < |plan|
      ensures |BatchBlocks(p, outputDir, accountName, token0, plan, replies)(m)| == 4
    {
      var ev := FetchEvents(p, outputDir, accountName, SentToken(token0, replies, m), plan[m].0, plan[m].1);
      assert BatchBlocks(p, outputDir, accountName, token0, plan, replies)(m) == ev;
    }
  }

  /** The log of `n` successful fetches is `n` blocks of four requests, block
      `k` being fetch `k` of the plan sending the token of reply `k - 1`:
      request `j` of block `k` is request `j` of that fetch. */
  lemma BatchEventsAt(p: Period, outputDir: string, accountName: string, token0: Option<string>,
                      plan: seq<(ValidDate, QueryKind)>, replies: nat -> Page, n: nat, k: nat, j: nat)
    requires k < n <= |plan| && j < 4
    ensures BatchEvents(p, outputDir, accountName, token0, plan, replies, n)[4 * k + j] ==
      FetchEvents(p, outputDir, accountName, SentToken(token0, replies, k), plan[k].0, plan[k].1)[j]
  {
    BatchBlocksSize(p, outputDir, accountName, token0, plan, replies);
    ConcatAt(BatchBlocks(p, outputDir, accountName, token0, plan, replies), 0, n, k, j);
  }

  /** Fetch `k` of a batch posts the query with the token `SentToken(k)`, then
      downloads the export and writes it to its report path. */
  lemma FetchAt(p: Period, outputDir: string, accountName: string, token0: Option<string>,
                plan: seq<(ValidDate, QueryKind)>, replies: nat -> Page, n: nat, k: nat)
    requires k < n <= |plan|
    ensures var ev := BatchEvents(p, outputDir, accountName, token0, plan, replies, n);
      |ev| == 4 * n &&
      ev[4 * k + 1] == Post(ParameterPage, QueryForm(SentToken(token0, replies, k), FormatFor(p, plan[k].0), ByType(p, plan[k].1))) &&
      ev[4 * k + 2] == Get(ExcelPage(p)) &&
      ev[4 * k + 3] == WriteFile(ReportPath(outputDir, accountName, p, plan[k].1, plan[k].0))
  {
    var ev := BatchEvents(p, outputDir, accountName, token0, plan, replies, n);
    BatchEventsAt(p, outputDir, accountName, token0, plan, replies, n, k, 1);
    BatchEventsAt(p, outputDir, accountName, token0, plan, replies, n, k, 2);
    BatchEventsAt(p, outputDir, accountName, token0, plan, replies, n, k, 3);
    FetchRequestsListed(p, outputDir, accountName, SentToken(token0, replies, k), plan[k].0, plan[k].1);
  }

  /** The post of a fetch carries the token the fetch sends, and the export download follows it. */
  lemma FetchSendsToken(p: Period, outputDir: string, accountName: string,
                        sent: Option<string>, d: ValidDate, queryType: QueryKind)
    ensures var ev := FetchEvents(p, outputDir, accountName, sent, d, queryType);
      ev[1].Post? && ev[1].page == ParameterPage && |ev[1].form| == 3 && ev[1].form[0] == (TokenField, sent) &&
      ev[2] == Get(ExcelPage(p))
  {
    FetchRequestsListed(p, outputDir, accountName, sent, d, queryType);
  }

  /** In a batch, the post of fetch `k` carries the token `SentToken(k)`,
      and the export download follows it. */
  lemma PostCarriesToken(p: Period, outputDir: string, accountName: string, token0: Option<string>,
                         plan: seq<(ValidDate, QueryKind)>, replies: nat -> Page, n: nat, k: nat)
    requires k < n <= |plan|
    ensures var ev := BatchEvents(p, outputDir, accountName, token0, plan, replies, n);
      ev[4 * k + 1].Post? && ev[4 * k + 1].page == ParameterPage && |ev[4 * k + 1].form| == 3 &&
      ev[4 * k + 1].form[0] == (TokenField, SentToken(token0, replies, k)) &&
      ev[4 * k + 2] == Get(ExcelPage(p))
  {
    BatchEventsAt(p, outputDir, accountName, token0, plan, replies, n, k, 1);
    BatchEventsAt(p, outputDir, accountName, token0, plan, replies, n, k, 2);
    FetchSendsToken(p, outputDir, accountName, SentToken(token0, replies, k), plan[k].0, plan[k].1);
  }

  /** Token chaining: in a run of successful fetches, the fetch after fetch
      `k` posts the token read from the reply to fetch `k`'s post, and that
      post comes after fetch `k`'s download. */
  lemma TokenChain(p: Period, outputDir: string, accountName: string, token0: Option<string>,
                   plan: seq<(ValidDate, QueryKind)>, replies: nat -> Page, n: nat, k: nat)
    requires k + 1 < n <= |plan|
    ensures |BatchEvents(p, outputDir, accountName, token0, plan, replies, n)| == 4 * n
    ensures BatchEvents(p, outputDir, accountName, token0, plan, replies, n)[4 * k + 2] == Get(ExcelPage(p))
    ensures var post := BatchEvents(p, outputDir, accountName, token0, plan, replies, n)[4 * (k + 1) + 1];
      post.Post? && post.page == ParameterPage && |post.form| == 3 &&
      post.form[0] == (TokenField, ExtractToken(replies(k)))
  {
    PostCarriesToken(p, outputDir, accountName, token0, plan, replies, n, k);
    PostCarriesToken(p, outputDir, accountName, token0, plan, replies, n, k + 1);
    assert SentToken(token0, replies, k + 1) == ExtractToken(replies(k));
  }
}

/** `CFMMCCrawler`: one account's session with the portal. The HTTP session,
    the HTML parser, the CAPTCHA window and the file system are outside the
    model; each method takes the pages the portal answers with as arguments
    and records what it asks of the outside world in a ghost log. */
module Crawler {
  import opened Common
  import opened Dates
  import opened Months
  import opened Paths
  import opened Protocol

  class CFMMCCrawler {
    const accountName: string
    const accountNo: string
    const password: string
    const outputDir: string
    const tushareToken: string

    /** Set by a login whose reply lacks the CAPTCHA failure phrase; cleared by logout. */
    var isLoggedIn: bool
    /** The anti-forgery token the next query posts; `None` before the first login. */
    var token: Option<string>
    /** Every request, directory creation and file write so far, in order. */
    ghost var log: seq<Event>

    constructor (accountName: string, accountNo: string, password: string, outputDir: string, tushareToken: string)
      ensures this.accountName == accountName && this.accountNo == accountNo && this.password == password
      ensures this.outputDir == outputDir && this.tushareToken == tushareToken
      ensures !isLoggedIn && token == None && log == []
    {
      this.accountName, this.accountNo, this.password := accountName, accountNo, password;
      this.outputDir := outputDir;
      this.tushareToken := tushareToken;
      isLoggedIn := false;
      token := None;
      log := [];
    }

    /** Fetches the login page, shows its CAPTCHA (answered by `captchaAnswer`)
        and posts the credentials with the page's token; `reply` is the
        portal's answer to that post. A reply carrying the failure phrase
        changes nothing; any other reply sets the login flag and then takes
        the reply's token, raising if the reply has none. */
    method Login(loginPage: Page, captchaAnswer: string, reply: Page) returns (outcome: Outcome)
      modifies this
      ensures ExtractToken(loginPage).None? || loginPage.captchaSrc.None? ==>
        outcome == Raised(MarkupError) && isLoggedIn == old(isLoggedIn) && token == old(token) &&
        log == old(log) + [Get(LoginPage)]
      ensures ExtractToken(loginPage).Some? && loginPage.captchaSrc.Some? ==>
        log == old(log) + LoginEvents(ExtractToken(loginPage).value, loginPage.captchaSrc.value,
                                      accountNo, password, captchaAnswer)
      ensures ExtractToken(loginPage).Some? && loginPage.captchaSrc.Some? && Contains(reply.text, CaptchaRejected) ==>
        outcome == Done && isLoggedIn == old(isLoggedIn) && token == old(token)
      ensures ExtractToken(loginPage).Some? && loginPage.captchaSrc.Some? && !Contains(reply.text, CaptchaRejected) ==>
        isLoggedIn &&
        (ExtractToken(reply).Some? ==> outcome == Done && token == ExtractToken(reply)) &&
        (ExtractToken(reply).None? ==> outcome == Raised(MarkupError) && token == old(token))
    {
      log := log + [Get(LoginPage)];
      var pageToken := ExtractToken(loginPage);
      if pageToken.None? {
        return Raised(MarkupError);
      }
      if loginPage.captchaSrc.None? {
        return Raised(MarkupError);
      }
      log := log + [Get(CaptchaImage(loginPage.captchaSrc.value))];
      var postData := LoginForm(pageToken.value, accountNo, password, captchaAnswer);
      log := log + [Post(LoginPage, postData)];
      if Contains(reply.text, CaptchaRejected) {
        return Done;
      }
      isLoggedIn := true;
      var newToken := ExtractToken(reply);
      if newToken.None? {
        return Raised(MarkupError);
      }
      token := newToken;
      return Done;
    }

    /** Posts to the logout endpoint and clears the flag; the token stays. */
    method Logout()
      modifies this
      ensures !isLoggedIn && token == old(token)
      ensures log == old(log) + [Post(LogoutPage, [])]
    {
      log := log + [Post(LogoutPage, [])];
      isLoggedIn := false;
    }

    /** `_download_file`: fetch the export and write its body to `fullPath`. */
    method DownloadFile(webAddress: Endpoint, fullPath: string)
      modifies this`log
      ensures log == old(log) + [Get(webAddress), WriteFile(fullPath)]
    {
      log := log + [Get(webAddress), WriteFile(fullPath)];
    }

    /** Downloads the daily report of `queryType` for `date`; `reply` is the
        portal's answer to the parameter post. */
    method GetDailyData(date: ValidDate, queryType: string, reply: Page) returns (outcome: Outcome)
      modifies this
      ensures isLoggedIn == old(isLoggedIn)
      ensures var r := Fetch(Daily, outputDir, accountName, old(isLoggedIn), old(token), date, queryType, reply);
        outcome == r.0 && token == r.1 && log == old(log) + r.2
    {
      outcome := ArgsCheck(isLoggedIn, queryType);
      if outcome.Raised? {
        return;
      }
      ValidInFormatRange(date);
      ReportPathIsJoin(outputDir, accountName, Daily, queryType, date);
      FetchRequestsListed(Daily, outputDir, accountName, token, date, queryType);
      var tradeDate := FormatDay(date);
      var path := Join(outputDir, [accountName, "日报", queryType]);
      var fileName := tradeDate + ".xls";
      var fullPath := Join(path, [fileName]);
      log := log + [MakeDirs(path)];
      var postData := QueryForm(token, tradeDate, queryType);
      log := log + [Post(ParameterPage, postData)];
      var newToken := ExtractToken(reply);
      if newToken.None? {
        return Raised(MarkupError);
      }
      token := newToken;
      DownloadFile(DailyExcelPage, fullPath);
    }

    /** Downloads the monthly report of `queryType` for the month of `month`;
        `reply` is the portal's answer to the parameter post. */
    method GetMonthlyData(month: ValidDate, queryType: string, reply: Page) returns (outcome: Outcome)
      modifies this
      ensures isLoggedIn == old(isLoggedIn)
      ensures var r := Fetch(Monthly, outputDir, accountName, old(isLoggedIn), old(token), month, queryType, reply);
        outcome == r.0 && token == r.1 && log == old(log) + r.2
    {
      outcome := ArgsCheck(isLoggedIn, queryType);
      if outcome.Raised? {
        return;
      }
      ValidInFormatRange(month);
      ReportPathIsJoin(outputDir, accountName, Monthly, queryType, month);
      FetchRequestsListed(Monthly, outputDir, accountName, token, month, queryType);
      var tradeDate := FormatMonth(month);
      var path := Join(outputDir, [accountName, "月报", queryType]);
      var fileName := tradeDate + ".xls";
      var fullPath := Join(path, [fileName]);
      log := log + [MakeDirs(path)];
      QueryTypesInOrder();
      var postData := QueryForm(token, tradeDate, Lookup(QueryTypeDict, queryType).value);
      log := log + [Post(ParameterPage, postData)];
      var newToken := ExtractToken(reply);
      if newToken.None? {
        return Raised(MarkupError);
      }
      token := newToken;
      DownloadFile(MonthlyExcelPage, fullPath);
    }

    /** Downloads both daily reports for every date, in date order and, for
        each date, in dictionary order; `replies(k)` answers the k-th
        parameter post. The first fetch that raises ends the batch. */
    method BatchDailyDownload(dates: seq<ValidDate>, replies: nat -> Page) returns (outcome: Outcome)
      modifies this
      ensures isLoggedIn == old(isLoggedIn)
      ensures var run := BatchRun(Daily, outputDir, accountName, old(isLoggedIn), old(token), Plan(dates), replies);
        outcome == run.0 && token == run.1 && log == old(log) + run.2
    {
      ghost var plan := Plan(dates);
      ghost var log0 := log;
      ghost var fetch := BatchStep(Daily, outputDir, accountName, isLoggedIn, plan, replies);
      ghost var run0 := RunFrom(fetch, |plan|, 0, token);
      PlanLength(dates);
      QueryTypesInOrder();
      var k: nat := 0;
      var queryTypes := Keys(QueryTypeDict);
      for i := 0 to |dates|
        invariant k == 2 * i && isLoggedIn == old(isLoggedIn)
        invariant var run := RunFrom(fetch, |plan|, k, token);
          run.0 == run0.0 && run.1 == run0.1 && log0 + run0.2 == log + run.2
      {
        for j := 0 to |queryTypes|
          invariant k == 2 * i + j && isLoggedIn == old(isLoggedIn)
          invariant var run := RunFrom(fetch, |plan|, k, token);
            run.0 == run0.0 && run.1 == run0.1 && log0 + run0.2 == log + run.2
        {
          PlanEntry(dates, i, j);
          ghost var prev, sent := log, token;
          ghost var step := Fetch(Daily, outputDir, accountName, isLoggedIn, sent, dates[i], queryTypes[j], replies(k));
          assert fetch(sent, k) == step;
          outcome := GetDailyData(dates[i], queryTypes[j], replies(k));
          if outcome.Raised? {
            return;
          }
          AppendAssoc(prev, step.2, RunFrom(fetch, |plan|, k + 1, token).2);
          k := k + 1;
        }
      }
      return Done;
    }

    /** Downloads both monthly reports for every month from the month of
        `startDate` to the month of `endDate`; an unreadable range raises
        before anything is requested. */
    method BatchMonthlyDownload(startDate: string, endDate: string, replies: nat -> Page) returns (outcome: Outcome)
      modifies this
      ensures isLoggedIn == old(isLoggedIn)
      ensures MonthsBetween(startDate, endDate).Err? ==>
        outcome == Raised(ValueError) && token == old(token) && log == old(log)
      ensures MonthsBetween(startDate, endDate).Ok? ==>
        var months := MonthsBetween(startDate, endDate).value;
        (forall i :: 0 <= i < |months| ==> IsValid(months[i]) && months[i].day == 1) &&
        var run := BatchRun(Monthly, outputDir, accountName, old(isLoggedIn), old(token), Plan(months), replies);
        outcome == run.0 && token == run.1 && log == old(log) + run.2
    {
      var months := GenerateMonthsFirstDay(startDate, endDate);
      if months.Err? {
        return Raised(months.error);
      }
      MonthsBetweenValid(startDate, endDate);
      outcome := DownloadMonths(months.value, replies);
    }

    /** The loop of `BatchMonthlyDownload`: both monthly reports for each
        month of `monthList`, in order; `replies(k)` answers the k-th
        parameter post. The first fetch that raises ends the batch. */
    method DownloadMonths(monthList: seq<ValidDate>, replies: nat -> Page) returns (outcome: Outcome)
      modifies this
      ensures isLoggedIn == old(isLoggedIn)
      ensures var run := BatchRun(Monthly, outputDir, accountName, old(isLoggedIn), old(token), Plan(monthList), replies);
        outcome == run.0 && token == run.1 && log == old(log) + run.2
    {
      ghost var plan := Plan(monthList);
      ghost var log0 := log;
      ghost var fetch := BatchStep(Monthly, outputDir, accountName, isLoggedIn, plan, replies);
      ghost var run0 := RunFrom(fetch, |plan|, 0, token);
      PlanLength(monthList);
      QueryTypesInOrder();
      var k: nat := 0;
      var queryTypes := Keys(QueryTypeDict);
      for i := 0 to |monthList|
        invariant k == 2 * i && isLoggedIn == old(isLoggedIn)
        invariant var run := RunFrom(fetch, |plan|, k, token);
          run.0 == run0.0 && run.1 == run0.1 && log0 + run0.2 == log + run.2
      {
        for j := 0 to |queryTypes|
          invariant k == 2 * i + j && isLoggedIn == old(isLoggedIn)
          invariant var run := RunFrom(fetch, |plan|, k, token);
            run.0 == run0.0 && run.1 == run0.1 && log0 + run0.2 == log + run.2
        {
          PlanEntry(monthList, i, j);
          ghost var prev, sent := log, token;
          ghost var step := Fetch(Monthly, outputDir, accountName, isLoggedIn, sent, monthList[i], queryTypes[j], replies(k));
          assert fetch(sent, k) == step;
          outcome := GetMonthlyData(monthList[i], queryTypes[j], replies(k));
          if outcome.Raised? {
            return;
          }
          AppendAssoc(prev, step.2, RunFrom(fetch, |plan|, k + 1, token).2);
          k := k + 1;
        }
      }
      return Done;
    }
  }
}

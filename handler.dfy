/** The POST /analyze handler: launch a browser, load the page, read its signals, optionally
    try the checkout control, close the browser, classify, and answer with a report.
    Every call into the browser is an outcome given by an `Effects` record. */
module Handler {
  import opened Outcomes
  import opened Text
  import opened Signals
  import opened Safety
  import opened Report

  /** The JSON body of the request. `userQuery` is `None` when it is missing or not a string. */
  datatype Request = Request(url: string, userQuery: Option<string>)

  /** What each call into the browser does on one request. */
  datatype Effects = Effects(
    launch: Outcome,             // puppeteer.launch
    newPage: Outcome,            // browser.newPage
    navigation: Outcome,         // page.goto, waiting for network idle within 30 seconds
    firstPage: Result<Document>, // page.evaluate on the loaded page
    checkout: CheckoutOutcome,   // the checkout lookup, click, wait and second evaluation
    close: Outcome,              // browser.close at the end of the try block
    closeInCatch: Outcome,       // browser.close in the catch block
    queryError: string           // message of the TypeError raised by toLowerCase on a non-string query
  )

  /** The JSON the handler sends back. */
  datatype Response =
    | Succeeded(report: string, safetyLevel: SafetyLevel)
    | Failed(error: string, report: string)

  const FailurePrefix := "Analysis failed: "
  const FailureReport := "❌ Could not analyze this website"

  /** What happens to the browser session and the response, in order. */
  datatype Event = Launched | CloseAttempt(succeeded: bool) | Responded(success: bool)

  /** The handle `puppeteer.launch` resolves to. */
  class Browser {
    /** The browser process is running. */
    var open: bool
    /** How many times `close` was called on this handle. */
    ghost var closeAttempts: nat

    constructor Launch()
      ensures open && closeAttempts == 0
    {
      open := true;
      closeAttempts := 0;
    }

    /** `browser.close()`, whose outcome is `result`. A close that throws leaves the process
        as it was. */
    method Close(result: Outcome) returns (thrown: Option<string>)
      modifies this
      ensures closeAttempts == old(closeAttempts) + 1
      ensures open == (old(open) && result.Fail?)
      ensures thrown == if result.Fail? then Some(result.message) else None
    {
      closeAttempts := closeAttempts + 1;
      if result.Fail? {
        thrown := Some(result.message);
      } else {
        open := false;
        thrown := None;
      }
    }
  }

  /** The try block runs up to the close at its end. */
  predicate ReachesClose(req: Request, fx: Effects) {
    fx.launch.Pass? && fx.newPage.Pass? && fx.navigation.Pass? && fx.firstPage.Ok? && req.userQuery.Some?
  }

  /** The message of the exception that ends the try block, if one does. The checkout step
      catches its own exceptions, so it is not among them. */
  function Thrown(req: Request, fx: Effects): (r: Option<string>)
    ensures r.None? <==> ReachesClose(req, fx) && fx.close.Pass?
  {
    if fx.launch.Fail? then Some(fx.launch.message)
    else if fx.newPage.Fail? then Some(fx.newPage.message)
    else if fx.navigation.Fail? then Some(fx.navigation.message)
    else if fx.firstPage.Err? then Some(fx.firstPage.message)
    else if req.userQuery.None? then Some(fx.queryError)
    else if fx.close.Fail? then Some(fx.close.message)
    else None
  }

  /** The response the handler sends, or `None` when it sends none: the close in the catch
      block throws, and the exception escapes the handler. */
  function Handle(req: Request, fx: Effects): (r: Option<Response>)
    ensures r.None? <==> fx.launch.Pass? && Thrown(req, fx).Some? && fx.closeInCatch.Fail?
    ensures r.Some? ==> (r.value.Succeeded? <==> Thrown(req, fx).None?)
    ensures r.Some? && r.value.Failed? ==> r.value.report == FailureReport
  {
    match Thrown(req, fx)
    case None =>
      var analysis := PageSignalsOf(fx.firstPage.value);
      var step := CheckoutStep(req.userQuery.value, fx.checkout);
      Some(Succeeded(Render(ReportLines(req.url, analysis, step)), Classify(analysis)))
    case Some(message) =>
      if fx.launch.Pass? && fx.closeInCatch.Fail? then None
      else Some(Failed(FailurePrefix + message, FailureReport))
  }

  /** The lifecycle events of one request. */
  function Trace(req: Request, fx: Effects): (r: seq<Event>)
    ensures 1 <= |r| <= 4
    ensures r[0] == Launched <==> fx.launch.Pass?
  {
    var thrown := Thrown(req, fx);
    if fx.launch.Fail? then [Responded(false)]
    else
      [Launched] +
      (if ReachesClose(req, fx) then [CloseAttempt(fx.close.Pass?)] else []) +
      (if thrown.Some? then [CloseAttempt(fx.closeInCatch.Pass?)] else []) +
      (if thrown.Some? && fx.closeInCatch.Fail? then [] else [Responded(thrown.None?)])
  }

  /** How many close attempts `t` records. */
  function CloseCount(t: seq<Event>): nat {
    if t == [] then 0
    else CloseCount(t[..|t| - 1]) + (if t[|t| - 1].CloseAttempt? then 1 else 0)
  }

  lemma CloseCountSnoc(t: seq<Event>, e: Event)
    ensures CloseCount(t + [e]) == CloseCount(t) + (if e.CloseAttempt? then 1 else 0)
  {
    assert (t + [e])[..|t|] == t;
  }

  /** The final safety assessment, as a pair of variables set to SAFE and then overwritten by
      the first rule that applies. */
  method AssessSafety(analysis: PageSignals) returns (safetyLevel: SafetyLevel, safetyEmoji: string)
    ensures safetyLevel == Classify(analysis)
    ensures safetyEmoji == safetyLevel.Emoji()
  {
    safetyLevel := Safe;
    safetyEmoji := "✅";
    if analysis.hasSuspiciousFields || !analysis.hasHttps {
      safetyLevel := Dangerous;
      safetyEmoji := "🚨";
    } else if analysis.hasPaymentFields {
      safetyLevel := Caution;
      safetyEmoji := "⚠️";
    }
  }

  /** Lines 54-69: title, domain, HTTPS status, then the warnings the flags call for. */
  method DescribePage(report: seq<Line>, analysis: PageSignals) returns (extended: seq<Line>)
    ensures extended == report + [PageTitle(analysis.title), Domain(analysis.domain), HttpsStatus(analysis.hasHttps)] + WarningLines(analysis)
  {
    extended := report + [PageTitle(analysis.title)];
    extended := extended + [Domain(analysis.domain)];
    extended := extended + [HttpsStatus(analysis.hasHttps)];
    if analysis.hasPaymentFields {
      extended := extended + [CardWarning];
    }
    if analysis.hasSuspiciousFields {
      extended := extended + [SsnDanger];
    }
    if !analysis.hasHttps {
      extended := extended + [HttpWarning];
    }
  }

  /** Lines 72-94, the checkout step: entered when the lower-cased query mentions "checkout"
      or "payment"; an exception inside it becomes one error line and goes no further. */
  method TryCheckout(report: seq<Line>, query: string, outcome: CheckoutOutcome) returns (extended: seq<Line>)
    ensures extended == report + CheckoutLines(CheckoutStep(query, outcome))
  {
    extended := report;
    var lowered := ToLower(query);
    if Contains(lowered, "checkout") || Contains(lowered, "payment") {
      match outcome
      case LookupThrew =>
        extended := extended + [CheckoutError];
      case NotFound =>
      case InteractionThrew =>
        extended := extended + [CheckoutFound];
        extended := extended + [CheckoutError];
      case Inspected(page) =>
        extended := extended + [CheckoutFound];
        var checkoutAnalysis := CheckoutSignalsOf(page);
        extended := extended + [CheckoutPage(checkoutAnalysis.title)];
        if checkoutAnalysis.hasPaymentForm {
          extended := extended + [PaymentForm];
        }
    }
  }

  /** The part of the try block after the launch. `thrown` is the exception that leaves it,
      if any; otherwise `response` is what is sent. */
  method Investigate(req: Request, fx: Effects, browser: Browser) returns (thrown: Option<string>, response: Response)
    requires fx.launch.Pass? && browser.open && browser.closeAttempts == 0
    modifies browser
    ensures thrown == Thrown(req, fx)
    ensures thrown.None? ==> Some(response) == Handle(req, fx)
    ensures browser.closeAttempts == if ReachesClose(req, fx) then 1 else 0
    ensures browser.open <==> !(ReachesClose(req, fx) && fx.close.Pass?)
  {
    thrown := None;
    response := Failed("", "");
    if fx.newPage.Fail? {
      return Some(fx.newPage.message), response;
    }
    var report := [Banner];
    report := report + [Navigating(req.url)];
    if fx.navigation.Fail? {
      return Some(fx.navigation.message), response;
    }
    if fx.firstPage.Err? {
      return Some(fx.firstPage.message), response;
    }
    var analysis := PageSignalsOf(fx.firstPage.value);
    report := DescribePage(report, analysis);
    assert report == HeaderLines(req.url, analysis) + WarningLines(analysis);

    if req.userQuery.None? {
      return Some(fx.queryError), response;
    }
    ghost var step := CheckoutStep(req.userQuery.value, fx.checkout);
    report := TryCheckout(report, req.userQuery.value, fx.checkout);
    assert report == HeaderLines(req.url, analysis) + WarningLines(analysis) + CheckoutLines(step);

    thrown := browser.Close(fx.close);
    if thrown.Some? {
      return;
    }

    var safetyLevel, safetyEmoji := AssessSafety(analysis);
    report := report + [Assessment(safetyLevel)];
    assert report == ReportLines(req.url, analysis, step);
    response := Succeeded(Render(report), safetyLevel);
  }

  /** The catch block once a browser was launched: close it again, then answer with the
      failure; when that close throws, the exception leaves the handler unanswered. */
  method Recover(fx: Effects, message: string, browser: Browser) returns (response: Option<Response>)
    modifies browser
    ensures response == if fx.closeInCatch.Fail? then None else Some(Failed(FailurePrefix + message, FailureReport))
    ensures browser.closeAttempts == old(browser.closeAttempts) + 1
    ensures browser.open == (old(browser.open) && fx.closeInCatch.Fail?)
  {
    var closeError := browser.Close(fx.closeInCatch);
    if closeError.Some? {
      return None;
    }
    response := Some(Failed(FailurePrefix + message, FailureReport));
  }

  /** The handler. The catch block closes the browser when one was launched; when that close
      throws too, the exception leaves the handler and the handler sends no response. */
  method Analyze(req: Request, fx: Effects) returns (response: Option<Response>, browser: Browser?, ghost trace: seq<Event>)
    ensures response == Handle(req, fx)
    ensures trace == Trace(req, fx)
    ensures browser != null <==> fx.launch.Pass?
    ensures browser != null ==> fresh(browser) && browser.closeAttempts == CloseCount(trace)
    ensures response.Some? && browser != null ==> !browser.open
  {
    browser := null;
    if fx.launch.Fail? {
      response := Some(Failed(FailurePrefix + fx.launch.message, FailureReport));
      trace := [Responded(false)];
      return;
    }
    browser := new Browser.Launch();
    trace := [Launched];
    var thrown, succeeded := Investigate(req, fx, browser);
    if ReachesClose(req, fx) {
      CloseCountSnoc(trace, CloseAttempt(fx.close.Pass?));
      trace := trace + [CloseAttempt(fx.close.Pass?)];
    }
    if thrown.None? {
      response := Some(succeeded);
      CloseCountSnoc(trace, Responded(true));
      trace := trace + [Responded(true)];
    } else {
      CloseCountSnoc(trace, CloseAttempt(fx.closeInCatch.Pass?));
      trace := trace + [CloseAttempt(fx.closeInCatch.Pass?)];
      response := Recover(fx, thrown.value, browser);
      if response.Some? {
        CloseCountSnoc(trace, Responded(false));
        trace := trace + [Responded(false)];
      }
    }
  }

  /** The request succeeds exactly when every call outside the checkout step completes and
      the query is a string; what the checkout step does plays no part. */
  lemma SucceedsIff(req: Request, fx: Effects)
    ensures (Handle(req, fx).Some? && Handle(req, fx).value.Succeeded?) <==>
      fx.launch.Pass? && fx.newPage.Pass? && fx.navigation.Pass? && fx.firstPage.Ok? &&
      req.userQuery.Some? && fx.close.Pass?
  {
  }

  /** Whatever the checkout step does, the request succeeds or fails alike, with the same
      verdict on success and the same failure response otherwise. */
  lemma CheckoutNeverDecides(req: Request, fx: Effects, other: CheckoutOutcome)
    ensures var mine, theirs := Handle(req, fx), Handle(req, fx.(checkout := other));
      mine.Some? == theirs.Some? &&
      (mine.Some? ==> mine.value.Succeeded? == theirs.value.Succeeded?) &&
      (mine.Some? && mine.value.Succeeded? ==> mine.value.safetyLevel == theirs.value.safetyLevel) &&
      (mine.Some? && mine.value.Failed? ==> mine == theirs)
  {
    var fx' := fx.(checkout := other);
    assert Thrown(req, fx') == Thrown(req, fx);
    if Thrown(req, fx).None? {
      var analysis := PageSignalsOf(fx.firstPage.value);
      assert Handle(req, fx).value.safetyLevel == Classify(analysis);
      assert Handle(req, fx').value.safetyLevel == Classify(analysis);
    }
  }

  /** A successful response carries the verdict on the first page's signals, and its report
      ends with the assessment line that names that verdict. */
  lemma SuccessCarriesVerdict(req: Request, fx: Effects)
    requires Handle(req, fx).Some? && Handle(req, fx).value.Succeeded?
    ensures fx.firstPage.Ok?
    ensures Handle(req, fx).value.safetyLevel == Classify(PageSignalsOf(fx.firstPage.value))
    ensures LevelOfReport(Handle(req, fx).value.report) == Some(Handle(req, fx).value.safetyLevel)
  {
    assert Thrown(req, fx).None?;
    var analysis := PageSignalsOf(fx.firstPage.value);
    var lines := ReportLines(req.url, analysis, CheckoutStep(req.userQuery.value, fx.checkout));
    assert Handle(req, fx) == Some(Succeeded(Render(lines), Classify(analysis)));
    ReportNamesLevel(req.url, analysis, CheckoutStep(req.userQuery.value, fx.checkout));
  }

  /** A failure response always has the fixed report text and an error naming the exception. */
  lemma FailureShape(req: Request, fx: Effects)
    requires Handle(req, fx).Some? && Handle(req, fx).value.Failed?
    ensures Handle(req, fx).value.report == FailureReport
    ensures Thrown(req, fx).Some? && Handle(req, fx).value.error == FailurePrefix + Thrown(req, fx).value
  {
  }

  /** No response is sent only when a browser was launched, the try block threw, and the
      close in the catch block threw as well. */
  lemma NoResponseIff(req: Request, fx: Effects)
    ensures Handle(req, fx).None? <==> fx.launch.Pass? && Thrown(req, fx).Some? && fx.closeInCatch.Fail?
  {
  }

  /** A checkout step that finds no control leaves the response exactly as a query that never
      asked for checkout would. */
  lemma NotFoundAppendsNothing(req: Request, fx: Effects)
    requires fx.checkout == NotFound && req.userQuery.Some?
    ensures Handle(req, fx) == Handle(req.(userQuery := Some("")), fx)
  {
    assert !WantsCheckout("");
  }

  /** "I want to checkout now" with no checkout control on the page: the step is entered, the
      request still succeeds, and the report has no checkout line. */
  lemma CheckoutQueryWithoutControl(req: Request, fx: Effects, query: string)
    requires query == "I want to CheckOut now" && req.userQuery == Some(query)
    requires fx.launch.Pass? && fx.newPage.Pass? && fx.navigation.Pass? && fx.firstPage.Ok? && fx.close.Pass?
    requires fx.checkout == NotFound
    ensures var analysis := PageSignalsOf(fx.firstPage.value);
      WantsCheckout(req.userQuery.value) &&
      Handle(req, fx) == Some(Succeeded(Render(ReportLines(req.url, analysis, Some(NotFound))), Classify(analysis))) &&
      forall line :: line in ReportLines(req.url, analysis, Some(NotFound)) ==> !line.IsCheckoutLine()
  {
    CheckoutQueryTriggers(query);
    assert CheckoutStep(req.userQuery.value, fx.checkout) == Some(NotFound);
    assert Thrown(req, fx).None?;
    NoCheckoutLinesWithoutControl(req.url, PageSignalsOf(fx.firstPage.value), Some(NotFound));
  }

  /** The same query on a page where looking the control up throws, which is what the
      selector as written does: the request still succeeds, and the error line comes just
      before the assessment. */
  lemma CheckoutQueryLookupThrows(req: Request, fx: Effects, query: string)
    requires query == "I want to CheckOut now" && req.userQuery == Some(query)
    requires fx.launch.Pass? && fx.newPage.Pass? && fx.navigation.Pass? && fx.firstPage.Ok? && fx.close.Pass?
    requires fx.checkout == LookupThrew
    ensures var analysis := PageSignalsOf(fx.firstPage.value);
      var lines := ReportLines(req.url, analysis, Some(LookupThrew));
      Handle(req, fx) == Some(Succeeded(Render(lines), Classify(analysis))) &&
      lines[|lines| - 2] == CheckoutError
  {
    CheckoutQueryTriggers(query);
    assert CheckoutStep(req.userQuery.value, fx.checkout) == Some(LookupThrew);
    assert Thrown(req, fx).None?;
  }

  /** The session discipline of one request: the launch comes first, the response comes last
      and at most once, and a launched browser has been closed successfully before any response. */
  ghost predicate Disciplined(t: seq<Event>) {
    (forall k :: 0 <= k < |t| && t[k] == Launched ==> k == 0) &&
    (forall k :: 0 <= k < |t| && t[k].CloseAttempt? ==> t[0] == Launched) &&
    (forall k :: 0 <= k < |t| && t[k].Responded? ==> k == |t| - 1) &&
    (forall k :: 0 <= k < |t| && t[k].Responded? && t[0] == Launched ==>
       exists j :: 0 <= j < k && t[j] == CloseAttempt(true))
  }

  /** Every request keeps the session discipline. */
  lemma HandlerDisciplined(req: Request, fx: Effects)
    ensures Disciplined(Trace(req, fx))
  {
    var t := Trace(req, fx);
    if fx.launch.Pass? {
      forall k | 0 <= k < |t| && t[k].Responded?
        ensures exists j :: 0 <= j < k && t[j] == CloseAttempt(true)
      {
        if Thrown(req, fx).None? {
          assert t[1] == CloseAttempt(true);
        } else {
          assert t[k - 1] == CloseAttempt(true);
        }
      }
    }
  }

  /** The trace ends in a response exactly when the handler sends one, and says whether it
      is a success. */
  lemma TraceMatchesResponse(req: Request, fx: Effects)
    ensures var t := Trace(req, fx);
      (t[|t| - 1].Responded? <==> Handle(req, fx).Some?) &&
      (t[|t| - 1].Responded? ==> t[|t| - 1].success == Handle(req, fx).value.Succeeded?)
  {
  }

  /** A launched browser gets one or two close attempts; two exactly when the close at the
      end of the try block throws and the catch block closes again. Without a launch there
      is none. So the session is closed at least once, not exactly once. */
  lemma CloseAttempts(req: Request, fx: Effects)
    ensures fx.launch.Fail? ==> CloseCount(Trace(req, fx)) == 0
    ensures fx.launch.Pass? ==> 1 <= CloseCount(Trace(req, fx)) <= 2
    ensures CloseCount(Trace(req, fx)) == 2 <==> ReachesClose(req, fx) && fx.close.Fail?
  {
    var t := Trace(req, fx);
    if fx.launch.Pass? {
      var a := if ReachesClose(req, fx) then [CloseAttempt(fx.close.Pass?)] else [];
      var b := if Thrown(req, fx).Some? then [CloseAttempt(fx.closeInCatch.Pass?)] else [];
      var c := if Thrown(req, fx).Some? && fx.closeInCatch.Fail? then [] else [Responded(Thrown(req, fx).None?)];
      var t1, t2 := [Launched] + a, [Launched] + a + b;
      assert t == t2 + c;
      CloseCountSnoc([], Launched);
      assert CloseCount(t1) == |a| by {
        if |a| == 1 { CloseCountSnoc([Launched], a[0]); }
      }
      assert CloseCount(t2) == |a| + |b| by {
        if |b| == 1 { CloseCountSnoc(t1, b[0]); }
      }
      if |c| == 1 { CloseCountSnoc(t2, c[0]); } else { assert t == t2; }
    } else {
      CloseCountSnoc([], Responded(false));
    }
  }
}

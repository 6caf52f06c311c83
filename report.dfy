/** The text report of a successful analysis: the fixed-template lines the handler appends
    one after another, and the optional checkout step that may add lines in the middle. */
module Report {
  import opened Outcomes
  import opened Text
  import opened Signals
  import opened Safety

  /** One appended piece of the report, by template. */
  datatype Line =
    | Banner
    | Navigating(url: string)
    | PageTitle(title: string)
    | Domain(domain: string)
    | HttpsStatus(secure: bool)
    | CardWarning
    | SsnDanger
    | HttpWarning
    | CheckoutFound
    | CheckoutPage(title: string)
    | PaymentForm
    | CheckoutError
    | Assessment(level: SafetyLevel)
  {
    /** The text the template produces: a non-empty piece that ends its own line. */
    function Text(): (r: string)
      ensures |r| > 0 && r[|r| - 1] == '\n'
    {
      match this
      case Banner => "🔍 Browser agent starting analysis...\n\n"
      case Navigating(url) => "📍 Navigating to: " + url + "\n"
      case PageTitle(title) => "📄 Page Title: \"" + title + "\"\n"
      case Domain(domain) => "🌐 Domain: " + domain + "\n"
      case HttpsStatus(secure) => "🔒 HTTPS: " + (if secure then "✅ Secure" else "❌ Not Secure") + "\n"
      case CardWarning => "🚨 WARNING: Credit card fields detected\n"
      case SsnDanger => "🚨 DANGER: Asking for SSN/Social Security number\n"
      case HttpWarning => "🚨 WARNING: Site is not using HTTPS encryption\n"
      case CheckoutFound => "🛒 Found checkout button, investigating...\n"
      case CheckoutPage(title) => "📍 Checkout page: " + title + "\n"
      case PaymentForm => "💳 Payment form found on checkout\n"
      case CheckoutError => "❌ Couldn't access checkout page\n"
      case Assessment(level) => AssessmentLine(level)
    }

    predicate IsWarning() {
      CardWarning? || SsnDanger? || HttpWarning?
    }

    predicate IsCheckoutLine() {
      CheckoutFound? || CheckoutPage? || PaymentForm? || CheckoutError?
    }
  }

  /** How the checkout step ends, as decided by the browser:
      - LookupThrew: looking the control up throws (the selector is refused), nothing was appended yet;
      - NotFound: the lookup finds no element;
      - InteractionThrew: the control was found, then the click, the wait or the second
        evaluation throws;
      - Inspected: the control was clicked and `page` is the document reached. */
  datatype CheckoutOutcome = LookupThrew | NotFound | InteractionThrew | Inspected(page: Document)

  /** The checkout step runs when the lower-cased query mentions "checkout" or "payment". */
  predicate WantsCheckout(query: string): (r: bool)
    ensures r ==> |"payment"| <= |query|
    ensures "checkout" <= ToLower(query) || "payment" <= ToLower(query) ==> r
  {
    var lowered := ToLower(query);
    Contains(lowered, "checkout") || Contains(lowered, "payment")
  }

  /** The checkout step of a request: `None` when it is not entered. */
  function CheckoutStep(query: string, outcome: CheckoutOutcome): (r: Option<CheckoutOutcome>)
    ensures r.Some? <==> WantsCheckout(query)
    ensures r.Some? ==> r.value == outcome
  {
    if WantsCheckout(query) then Some(outcome) else None
  }

  /** `word` occurs in `query` at `i` once both are compared in lower case. */
  ghost predicate MentionsAt(query: string, word: string, i: int) {
    0 <= i && i + |word| <= |query| && ToLower(query[i..i + |word|]) == word
  }

  /** The trigger is a case-insensitive mention of either word anywhere in the query. */
  lemma WantsCheckoutIff(query: string)
    ensures WantsCheckout(query) <==>
      (exists i :: MentionsAt(query, "checkout", i)) || (exists i :: MentionsAt(query, "payment", i))
  {
    var lowered := ToLower(query);
    ContainsIff(lowered, "checkout");
    ContainsIff(lowered, "payment");
    forall word, i | 0 <= i && i + |word| <= |query|
      ensures OccursAt(lowered, word, i) <==> MentionsAt(query, word, i)
    {
      ToLowerSlice(query, i, i + |word|);
    }
  }

  /** A query that mentions checking out, in any case, triggers the checkout step. */
  lemma CheckoutQueryTriggers(query: string)
    requires query == "I want to CheckOut now"
    ensures WantsCheckout(query)
  {
    var lowered := ToLower(query);
    assert lowered[10..18] == "checkout";
    ContainsIff(lowered, "checkout");
    assert OccursAt(lowered, "checkout", 10);
  }

  /** The lines the first page contributes, after the banner and the navigation line. */
  function HeaderLines(url: string, s: PageSignals): seq<Line> {
    [Banner, Navigating(url), PageTitle(s.title), Domain(s.domain), HttpsStatus(s.hasHttps)]
  }

  /** The security warnings, each present only when its flag calls for it. */
  function WarningLines(s: PageSignals): (r: seq<Line>)
    ensures |r| <= 3
    ensures forall k :: 0 <= k < |r| ==> r[k].IsWarning()
  {
    (if s.hasPaymentFields then [CardWarning] else []) +
    (if s.hasSuspiciousFields then [SsnDanger] else []) +
    (if !s.hasHttps then [HttpWarning] else [])
  }

  /** The lines the checkout step appends. */
  function CheckoutLines(step: Option<CheckoutOutcome>): (r: seq<Line>)
    ensures |r| <= 3
    ensures forall k :: 0 <= k < |r| ==> r[k].IsCheckoutLine()
    ensures step.None? ==> r == []
  {
    match step
    case None => []
    case Some(LookupThrew) => [CheckoutError]
    case Some(NotFound) => []
    case Some(InteractionThrew) => [CheckoutFound, CheckoutError]
    case Some(Inspected(page)) =>
      var checkout := CheckoutSignalsOf(page);
      [CheckoutFound, CheckoutPage(checkout.title)] +
      (if checkout.hasPaymentForm then [PaymentForm] else [])
  }

  /** Every line of a successful report, in the order they are appended. */
  function ReportLines(url: string, s: PageSignals, step: Option<CheckoutOutcome>): (r: seq<Line>)
    ensures 6 <= |r| <= 12
    ensures r[0] == Banner && r[1] == Navigating(url)
    ensures r[|r| - 1] == Assessment(Classify(s))
  {
    HeaderLines(url, s) + WarningLines(s) + CheckoutLines(step) + [Assessment(Classify(s))]
  }

  /** The report text: the lines' texts one after another. */
  function Render(lines: seq<Line>): string {
    if lines == [] then "" else Render(lines[..|lines| - 1]) + lines[|lines| - 1].Text()
  }

  function WarningRank(line: Line): nat {
    match line
    case CardWarning => 0
    case SsnDanger => 1
    case _ => 2
  }

  /** The three warnings appear exactly when their flags call for them. */
  lemma WarningLinesIff(url: string, s: PageSignals, step: Option<CheckoutOutcome>)
    ensures CardWarning in ReportLines(url, s, step) <==> s.hasPaymentFields
    ensures SsnDanger in ReportLines(url, s, step) <==> s.hasSuspiciousFields
    ensures HttpWarning in ReportLines(url, s, step) <==> !s.hasHttps
  {
    var c := CheckoutLines(step);
    assert forall line :: line in c ==> line.IsCheckoutLine();
  }

  /** Every warning comes after the five header lines and before the checkout lines. */
  lemma WarningsAfterHeader(url: string, s: PageSignals, step: Option<CheckoutOutcome>, i: int)
    requires 0 <= i < |ReportLines(url, s, step)| && ReportLines(url, s, step)[i].IsWarning()
    ensures 5 <= i < 5 + |WarningLines(s)|
  {
  }

  /** Two warnings appear after the five header lines in the order card, SSN, HTTPS, so
      each at most once. */
  lemma WarningsInOrder(url: string, s: PageSignals, step: Option<CheckoutOutcome>, i: int, j: int)
    requires 0 <= i < j < |ReportLines(url, s, step)|
    requires ReportLines(url, s, step)[i].IsWarning() && ReportLines(url, s, step)[j].IsWarning()
    ensures 5 <= i
    ensures WarningRank(ReportLines(url, s, step)[i]) < WarningRank(ReportLines(url, s, step)[j])
  {
    var lines := ReportLines(url, s, step);
    var w := WarningLines(s);
    var c := CheckoutLines(step);
    assert forall line :: line in c ==> line.IsCheckoutLine();
    assert forall k :: 0 <= k < |lines| && lines[k].IsWarning() ==> 5 <= k < 5 + |w|;
  }

  /** Nothing from the checkout section appears when the step is not entered or finds nothing. */
  lemma NoCheckoutLinesWithoutControl(url: string, s: PageSignals, step: Option<CheckoutOutcome>)
    requires step == None || step == Some(NotFound)
    ensures forall line :: line in ReportLines(url, s, step) ==> !line.IsCheckoutLine()
  {
  }

  /** A checkout step that throws appends the error line, once; otherwise it never appears. */
  lemma CheckoutErrorOnce(url: string, s: PageSignals, step: Option<CheckoutOutcome>)
    ensures CheckoutError in ReportLines(url, s, step) <==>
      step == Some(LookupThrew) || step == Some(InteractionThrew)
    ensures forall i, j ::
              0 <= i < j < |ReportLines(url, s, step)| && ReportLines(url, s, step)[i] == CheckoutError ==>
              ReportLines(url, s, step)[j] != CheckoutError
  {
    var lines := ReportLines(url, s, step);
    var before := HeaderLines(url, s) + WarningLines(s);
    var c := CheckoutLines(step);
    assert lines == before + c + [Assessment(Classify(s))];
    assert forall line :: line in c ==> line.IsCheckoutLine();
    assert forall k :: 0 <= k < |lines| && lines[k] == CheckoutError ==> |before| <= k < |before| + |c| && c[k - |before|] == CheckoutError;
    assert forall k, m :: 0 <= k < m < |c| && c[k] == CheckoutError ==> c[m] != CheckoutError;
  }

  /** After a successful checkout inspection, the payment-form line appears exactly when the
      checkout page has an input named like a card field. */
  lemma PaymentFormIff(url: string, s: PageSignals, page: Document)
    ensures PaymentForm in ReportLines(url, s, Some(Inspected(page))) <==> page.hasCardInput
  {
  }

  /** The assessment is the last line, and it is appended nowhere else. */
  lemma AssessmentIsLast(url: string, s: PageSignals, step: Option<CheckoutOutcome>)
    ensures var lines := ReportLines(url, s, step);
      lines[|lines| - 1] == Assessment(Classify(s)) &&
      forall k :: 0 <= k < |lines| - 1 ==> !lines[k].Assessment?
  {
    var lines := ReportLines(url, s, step);
    var body := HeaderLines(url, s) + WarningLines(s) + CheckoutLines(step);
    assert lines == body + [Assessment(Classify(s))];
    assert forall line :: line in CheckoutLines(step) ==> line.IsCheckoutLine();
    forall k | 0 <= k < |lines| - 1 ensures !lines[k].Assessment? {
      assert lines[k] == body[k];
      assert body[k] in body;
    }
  }

  /** Rendering one more line appends that line's text. */
  lemma RenderSnoc(lines: seq<Line>, line: Line)
    ensures Render(lines + [line]) == Render(lines) + line.Text()
  {
    assert (lines + [line])[..|lines|] == lines;
  }

  /** A report whose last line is the assessment for `level` is read back as `level`. */
  lemma RenderedLevel(lines: seq<Line>, level: SafetyLevel)
    requires |lines| > 0 && lines[|lines| - 1] == Assessment(level)
    ensures LevelOfReport(Render(lines)) == Some(level)
  {
    var body := lines[..|lines| - 1];
    assert lines == body + [Assessment(level)];
    RenderSnoc(body, Assessment(level));
    AssessmentLineReadsBack(Render(body), level);
  }

  /** A reader of the report text recovers the verdict from its last line. */
  lemma ReportNamesLevel(url: string, s: PageSignals, step: Option<CheckoutOutcome>)
    ensures LevelOfReport(Render(ReportLines(url, s, step))) == Some(Classify(s))
  {
    RenderedLevel(ReportLines(url, s, step), Classify(s));
  }
}

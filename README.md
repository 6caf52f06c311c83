# browser-agent: the `/analyze` handler in Dafny

browser-agent is a small HTTP service. Its `POST /analyze` handler launches a headless
browser and loads the requested page. It reads a fixed set of signals from the page: title,
domain, HTTPS, and whether there are payment-like or SSN-like input fields. If the caller's
query mentions checkout or payment, it also tries to click a checkout control. It then closes
the browser, classifies the page as SAFE, CAUTION or DANGEROUS, and answers with a text report.

This project models that handler's decisions and its reporting:

- `Safety`: the first-match-wins classification, the emoji paired with each level, and the
  assessment line that ends every successful report.
- `Report`: the report as the sequence of template lines the handler appends. This covers the
  warning lines, the checkout trigger (a lower-cased `includes` test) and the four ways the
  checkout step can end.
- `Text`: `toLowerCase` and `includes`, the two string built-ins the trigger uses.
- `Signals`: the records the two `page.evaluate` calls build. The DOM selector answers are
  given as booleans.
- `Handler`: the handler itself.
  - `Analyze` runs the steps in order. Each `Browser.Close` updates the browser handle.
  - The reference function `Handle` gives the response, or `None` when no response is sent.
  - `Trace` gives the browser lifecycle events of one request.
  - Every browser call is an outcome in an `Effects` record: it completes, or it throws with a
    message.

What the code does, as modelled:

- The checkout step has four outcomes, not three, and the model leaves the outcome open:
  - looking up the control throws;
  - the lookup finds nothing;
  - the lookup finds the control and the page behind it is inspected;
  - the lookup finds the control and then the click, the wait or the second evaluation throws.
    In this case the "Found checkout button" line has already been appended, so the error line
    follows it.

  With the selector as written, only the first outcome occurs, because `:contains(...)` is not
  valid CSS. `Handler.CheckoutQueryLookupThrows` covers that case.
- A successful inspection appends two or three lines.
- A missing or non-string `userQuery` makes `toLowerCase` throw at server.js:72. That line is
  outside the inner try, so the request fails.
- The browser is not closed exactly once on every path. If the close at server.js:96 throws,
  the catch block closes it a second time. If that second close throws, the exception leaves the
  handler and the handler sends no response. `CloseAttempts` and `NoResponseIff` state these
  facts.

## Model

| member | source | states |
|---|---|---|
| `Text.ToLower` | server.js:72 | lower-casing keeps the length and lower-cases each character in place |
| `Text.Contains` | server.js:72 | `includes` is false when the needle is longer than the string, and true when the string starts with the needle |
| `Text.ContainsIff` | server.js:72 | `includes` answers true exactly when the needle occurs at some position of the string |
| `Signals.Excerpt` | server.js:47 | `slice(0, 1500)` keeps a prefix of the text, of length min(length, 1500) |
| `Signals.PageSignalsOf` | server.js:39-51 | the first page's record: the text excerpt is a prefix of at most 1500 characters, `hasHttps` holds exactly when the protocol is `https:`, and the payment and SSN flags are the selector answers |
| `Signals.CheckoutSignalsOf` | server.js:80-84 | the checkout page's record: its address and title are the page's `location.href` and `document.title`, and `hasPaymentForm` holds exactly when the page has a card-named input |
| `Safety.Classify` | server.js:99-108 | DANGEROUS exactly when there are SSN-like fields or no HTTPS; CAUTION exactly when neither holds and there are payment fields; SAFE exactly when none of the three holds |
| `Safety.ClassifyMonotone` | server.js:102-107 | more warning signs (SSN fields, lost HTTPS, payment fields) never lower the level |
| `Safety.ClassifyReadsOnlyFlags` | server.js:102-107 | the level depends only on the three flags and on no other signal |
| `Safety.AssessmentLineReadsBack` | server.js:99-110 | whatever precedes it, a report ending in the assessment line for a level is read back as that level, so the emoji and the name always match the level |
| `Report.Line.Text` | server.js:29-110 | each template's text, as the handler appends it; every piece is non-empty and ends with a newline |
| `Report.WantsCheckout` | server.js:72 | a query shorter than "payment" never triggers the step; a query whose lower-cased form starts with "checkout" or "payment" always does |
| `Report.CheckoutStep` | server.js:72-94 | the step is entered exactly when the query triggers it, and then ends with the outcome the browser gives |
| `Report.WantsCheckoutIff` | server.js:72 | the checkout step is entered exactly when "checkout" or "payment" occurs somewhere in the query, ignoring case |
| `Report.CheckoutQueryTriggers` | server.js:72 | the mixed-case query "I want to CheckOut now" enters the checkout step |
| `Report.WarningLines` | server.js:59-69 | at most three lines, each of them a warning |
| `Report.CheckoutLines` | server.js:73-93 | at most three lines, all from the checkout section; none when the step is not entered |
| `Report.ReportLines` | server.js:29-110 | a successful report has 6 to 12 lines; it opens with the banner and the navigation line for the requested url, and closes with the assessment of the first page's signals |
| `Report.WarningLinesIff` | server.js:59-69 | the card warning is present iff there are payment fields, the SSN line iff there are SSN-like fields, the HTTPS warning iff there is no HTTPS |
| `Report.WarningsAfterHeader` | server.js:54-69 | every warning, even a single one, comes after the five banner, navigation, title, domain and HTTPS lines and before any checkout line |
| `Report.WarningsInOrder` | server.js:59-69 | of two warnings, both come after the five header lines, in the order card, SSN, HTTPS, so each appears at most once |
| `Report.NoCheckoutLinesWithoutControl` | server.js:72-75 | a step that is not entered, or finds no control, adds no checkout line anywhere in the report |
| `Report.CheckoutErrorOnce` | server.js:73-93 | the "Couldn't access checkout page" line appears iff the step threw, and never twice |
| `Report.PaymentFormIff` | server.js:80-89 | after a successful inspection, the payment-form line appears iff the checkout page has a card-named input |
| `Report.AssessmentIsLast` | server.js:110 | the assessment line is the last line of the report and appears nowhere before it |
| `Report.RenderSnoc` | server.js:29-110 | appending a line to the buffer appends that line's text to the report text |
| `Report.RenderedLevel` | server.js:110 | a report text whose last line is the assessment for a level reads back as that level |
| `Report.ReportNamesLevel` | server.js:99-110 | the text of every successful report reads back as the classification of the first page |
| `Handler.Thrown` | server.js:17-96 | the try block ends without an exception exactly when every step up to and including the close at server.js:96 completes |
| `Handler.Handle` | server.js:13-127 | the reference response: none exactly when a browser was launched, the try block threw and the close in the catch block threw; a success exactly when the try block did not throw; every failure carries the fixed report text |
| `Handler.Trace` | server.js:16-125 | one to four lifecycle events; the first is the launch exactly when the launch succeeded |
| `Handler.Browser.Launch` | server.js:19 | a launched browser is open and has not been closed yet |
| `Handler.Browser.Close` | server.js:96 | a close is counted; the browser is closed after it unless the call threw; a throw is reported with its message |
| `Handler.AssessSafety` | server.js:99-108 | the level and emoji variables start at SAFE and are overwritten by the first rule that applies; they end as the classification and its matching emoji |
| `Handler.DescribePage` | server.js:54-69 | appends the title, domain and HTTPS lines, then exactly the warnings the flags call for |
| `Handler.TryCheckout` | server.js:72-94 | appends exactly the lines of the checkout step, and nothing when the query does not trigger it |
| `Handler.Investigate` | server.js:28-116 | the try block after launch throws exactly the first failure among page, navigation, evaluation, query and close; otherwise it produces the response `Handle` gives; the browser was closed once iff the close was reached |
| `Handler.Recover` | server.js:118-125 | the catch block closes the browser once more; it answers with "Analysis failed: " and the message unless that close throws, and then it sends nothing |
| `Handler.Analyze` | server.js:13-127 | the handler sends the response `Handle` gives and records the `Trace` events; a browser exists iff the launch succeeded; it has been closed whenever a response is sent |
| `Handler.SucceedsIff` | server.js:17-117 | the request succeeds exactly when launch, new page, navigation, evaluation, the query's `toLowerCase` and the close all complete |
| `Handler.CheckoutNeverDecides` | server.js:72-108 | what the checkout step does never changes whether the request succeeds, the level, or the failure response |
| `Handler.SuccessCarriesVerdict` | server.js:99-116 | a success carries the classification of the first page's signals, and its report text ends with the line naming that level |
| `Handler.FailureShape` | server.js:118-125 | a failure always has the report "❌ Could not analyze this website" and the error "Analysis failed: " followed by the exception's message |
| `Handler.NoResponseIff` | server.js:118-125 | no response is sent exactly when a browser was launched, the try block threw, and the close in the catch block threw too |
| `Handler.NotFoundAppendsNothing` | server.js:74-75 | when no checkout control is found, the response is the same as for a query that never asked for checkout |
| `Handler.CheckoutQueryWithoutControl` | server.js:72-90 | "I want to CheckOut now" with no control on the page enters the step; the request succeeds and the report has no checkout line |
| `Handler.CheckoutQueryLookupThrows` | server.js:72-93 | the same query on a page whose control lookup throws, as the selector as written does: the request succeeds and the error line comes just before the assessment |
| `Handler.HandlerDisciplined` | server.js:16-125 | the launch comes first; every close follows a launch; the response is the last event and is sent at most once; after a launch, a successful close comes before any response |
| `Handler.TraceMatchesResponse` | server.js:96-125 | the events end in a response exactly when the handler sends one, and record whether it is a success |
| `Handler.CloseAttempts` | server.js:96-119 | without a launch there is no close; after a launch there are one or two close attempts; there are two exactly when the close at the end of the try block throws |

## Left out

- Express setup, routing, the `GET /` health check, JSON body parsing, `res.json`, HTTP status codes, and the port and `listen` call (server.js:1-10, 130-133). This is HTTP plumbing and process I/O.
- The destructuring of `req.body` at server.js:14 runs outside the try block. The model starts from a parsed body: `url` is a string, and `userQuery` is either a string or absent.
- Puppeteer's launch arguments, the `networkidle0` wait, the 30-second navigation timeout, the 3-second `waitForTimeout` and `click()`. These are foreign browser calls and timing. Each becomes an outcome that completes or throws.
- The DOM queries inside `page.evaluate` (server.js:43-45, 83) and the CSS semantics of the checkout selector (server.js:74). Their answers are the booleans of a `Document` and the four-valued `CheckoutOutcome`.
- `Text.ToLower` lower-cases only the characters whose lower-case form is an ASCII letter: A-Z and the Kelvin sign. Every other character is kept. This cannot change whether "checkout" or "payment" occurs, because no other character lower-cases to an ASCII letter. U+0130 lower-cases to two characters in JavaScript; it is kept as one, and neither word contains an "i".
- `Signals.Excerpt` counts characters. JavaScript's `slice` counts UTF-16 code units, so an excerpt cut in the middle of a surrogate pair is not modelled.
- `hasPasswordField`, `formCount`, `textContent` and `finalUrl` are extracted but never used by the handler. The model carries them and proves nothing further about them.
- The report buffer is held as the sequence of template lines appended to it, and turned into text when the response is built. `Report.RenderSnoc` shows that appending a line appends its text.
- `Handler.Browser.Close`: after a close that throws, the browser process is assumed to be in the state it was in before. What Puppeteer actually leaves behind is not modelled.
- What the web framework does when the handler's promise is rejected is not modelled. That happens when the close in the catch block throws. Express 5 sends its default error response, Express 4 leaves an unhandled rejection, and the repository does not pin a version.
- Concurrent requests share nothing, so each request is modelled on its own.

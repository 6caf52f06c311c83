/** The records the handler reads out of the loaded page with `page.evaluate`.
    The selector queries themselves run inside the browser; here their answers are the
    boolean fields of a `Document`. */
module Signals {

  /** What the page's `document` and `location` report when they are read. */
  datatype Document = Document(
    title: string,           // document.title
    href: string,            // location.href
    protocol: string,        // location.protocol
    hostname: string,        // location.hostname
    bodyText: string,        // document.body.innerText
    formCount: nat,          // document.forms.length
    hasPasswordInput: bool,  // some input[type="password"]
    hasPaymentInput: bool,   // some input whose name contains "card", "credit" or "cvv"
    hasSuspiciousInput: bool,// some input whose name contains "ssn" or "social", or placeholder "social"
    hasCardInput: bool       // some input whose name contains "card"
  )

  /** The record built from the first page (`analysis`). */
  datatype PageSignals = PageSignals(
    title: string,
    finalUrl: string,
    hasPasswordField: bool,
    hasPaymentFields: bool,
    hasSuspiciousFields: bool,
    formCount: nat,
    textContent: string,
    hasHttps: bool,
    domain: string
  )

  /** The record built from the page reached by clicking the checkout control. */
  datatype CheckoutSignals = CheckoutSignals(url: string, title: string, hasPaymentForm: bool)

  /** The longest body-text excerpt kept in a `PageSignals`. */
  const ExcerptLimit: nat := 1500

  /** `text.slice(0, 1500)`. */
  function Excerpt(text: string): (r: string)
    ensures |r| == if |text| < ExcerptLimit then |text| else ExcerptLimit
    ensures r <= text
  {
    if |text| <= ExcerptLimit then text else text[..ExcerptLimit]
  }

  /** The first `page.evaluate`: the signal record of a loaded page. */
  function PageSignalsOf(d: Document): (s: PageSignals)
    ensures |s.textContent| <= ExcerptLimit && s.textContent <= d.bodyText
    ensures s.hasHttps <==> d.protocol == "https:"
    ensures s.hasPaymentFields == d.hasPaymentInput && s.hasSuspiciousFields == d.hasSuspiciousInput
  {
    PageSignals(
      title := d.title,
      finalUrl := d.href,
      hasPasswordField := d.hasPasswordInput,
      hasPaymentFields := d.hasPaymentInput,
      hasSuspiciousFields := d.hasSuspiciousInput,
      formCount := d.formCount,
      textContent := Excerpt(d.bodyText),
      hasHttps := d.protocol == "https:",
      domain := d.hostname)
  }

  /** The second `page.evaluate`, on the page reached after the click. */
  function CheckoutSignalsOf(d: Document): (c: CheckoutSignals)
    ensures c.url == d.href && c.title == d.title
    ensures c.hasPaymentForm <==> d.hasCardInput
  {
    CheckoutSignals(url := d.href, title := d.title, hasPaymentForm := d.hasCardInput)
  }
}

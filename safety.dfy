/** The final safety assessment: a three-level verdict decided from the first page's signals,
    and the report line that announces it. */
module Safety {
  import opened Outcomes
  import opened Signals

  datatype SafetyLevel = Safe | Caution | Dangerous {

    /** The level as it appears in the report and in the response's `safetyLevel` field. */
    function Name(): string {
      match this
      case Safe => "SAFE"
      case Caution => "CAUTION"
      case Dangerous => "DANGEROUS"
    }

    /** The emoji paired with the level. */
    function Emoji(): string {
      match this
      case Safe => "✅"
      case Caution => "⚠️"
      case Dangerous => "🚨"
    }

    /** Position in the order SAFE < CAUTION < DANGEROUS. */
    function Rank(): nat {
      match this
      case Safe => 0
      case Caution => 1
      case Dangerous => 2
    }
  }

  /** The classification, first match wins: an SSN-like field or a page without HTTPS is
      DANGEROUS; otherwise payment fields make it CAUTION; otherwise it is SAFE. */
  function Classify(s: PageSignals): (level: SafetyLevel)
    ensures level == Dangerous <==> s.hasSuspiciousFields || !s.hasHttps
    ensures level == Caution <==> !s.hasSuspiciousFields && s.hasHttps && s.hasPaymentFields
    ensures level == Safe <==> !s.hasSuspiciousFields && s.hasHttps && !s.hasPaymentFields
  {
    if s.hasSuspiciousFields || !s.hasHttps then Dangerous
    else if s.hasPaymentFields then Caution
    else Safe
  }

  /** Signals `b` are at least as alarming as signals `a`: every warning flag set in `a` is set in `b`. */
  predicate AtLeastAsRisky(a: PageSignals, b: PageSignals) {
    (a.hasSuspiciousFields ==> b.hasSuspiciousFields) &&
    (!a.hasHttps ==> !b.hasHttps) &&
    (a.hasPaymentFields ==> b.hasPaymentFields)
  }

  /** More warning signs never lower the verdict. */
  lemma ClassifyMonotone(a: PageSignals, b: PageSignals)
    requires AtLeastAsRisky(a, b)
    ensures Classify(a).Rank() <= Classify(b).Rank()
  {
  }

  /** The verdict is decided by the three flags alone: title, address, domain, text,
      password fields and form count play no part. */
  lemma ClassifyReadsOnlyFlags(a: PageSignals, b: PageSignals)
    requires a.hasSuspiciousFields == b.hasSuspiciousFields
    requires a.hasHttps == b.hasHttps
    requires a.hasPaymentFields == b.hasPaymentFields
    ensures Classify(a) == Classify(b)
  {
  }

  /** The last line of every successful report. */
  function AssessmentLine(level: SafetyLevel): string {
    "\n" + level.Emoji() + " SAFETY ASSESSMENT: " + level.Name() + "\n"
  }

  predicate EndsWith(s: string, suffix: string) {
    |suffix| <= |s| && s[|s| - |suffix|..] == suffix
  }

  /** What a reader of a report learns from its last line: the level whose assessment line ends it. */
  function LevelOfReport(report: string): Option<SafetyLevel> {
    if EndsWith(report, AssessmentLine(Dangerous)) then Some(Dangerous)
    else if EndsWith(report, AssessmentLine(Caution)) then Some(Caution)
    else if EndsWith(report, AssessmentLine(Safe)) then Some(Safe)
    else None
  }

  /** The assessment line is unambiguous: whatever precedes it, a report ending in the line
      for `level` is read back as `level`, so emoji and name always agree with the verdict. */
  lemma AssessmentLineReadsBack(prefix: string, level: SafetyLevel)
    ensures LevelOfReport(prefix + AssessmentLine(level)) == Some(level)
  {
    var r := prefix + AssessmentLine(level);
    var d, c, s := AssessmentLine(Dangerous), AssessmentLine(Caution), AssessmentLine(Safe);
    // The second-to-last characters tell the three lines apart: 'S', 'N' and 'E'.
    assert d[|d| - 2] == 'S' && c[|c| - 2] == 'N' && s[|s| - 2] == 'E';
    assert r[|r| - 2] == AssessmentLine(level)[|AssessmentLine(level)| - 2];
    assert r[|r| - |AssessmentLine(level)|..] == AssessmentLine(level);
  }
}

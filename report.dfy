/**
 * `summarize_with_ai` (analyzer.py): the guards, the classification, the
 * prompt, the call to the local language model and the report it returns.
 * The model is a parameter: `None` when it failed to load, otherwise a
 * function from the prompt to the generated text or to a failure detail.
 */
module Report {
  import opened Wrappers
  import opened PyText
  import opened Stats
  import opened Failures
  import opened Classifier
  import opened Prompt

  /** What one call of the language model gives: its text, or the detail of what it raised. */
  datatype Generation = Generated(text: string) | GenerationFailed(detail: string)

  const ModelMissing := "Erro: O modelo de linguagem local não foi carregado."
  const NoStats := "Nenhuma estatística de teste foi encontrada no log."
  const InvalidStats := "Erro: Estatísticas de teste inválidas."
  const GenerationErrorPrefix := "Ocorreu um erro ao gerar o resumo com o modelo local: "

  /** The three counts the analysis reads. */
  datatype Tally = Tally(passed: int, failed: int, total: int)

  /** `int(stats.get(key, 0))`; None where `int` raises. */
  function LookupInt(stats: map<string, string>, key: string): (r: Option<int>)
    ensures key !in stats ==> r == Some(0)
  {
    if key in stats then ParseInt(stats[key]) else Some(0)
  }

  /** The three conversions of the `try` block; None when any of them raises. */
  function ParseTally(stats: map<string, string>): (r: Option<Tally>)
    ensures r.Some? <==> LookupInt(stats, "passed").Some? && LookupInt(stats, "failed").Some?
                         && LookupInt(stats, "total").Some?
  {
    match (LookupInt(stats, "passed"), LookupInt(stats, "failed"), LookupInt(stats, "total"))
    case (Some(p), Some(f), Some(t)) => Some(Tally(p, f, t))
    case _ => None
  }

  const HeaderLead := "**Resumo da Execução**\n- Testes Executados: "
  const PassedLead := "\n- Aprovados: "
  const FailedLead := "\n- Reprovados: "

  /** `summary_header`: the counts as computed here, never as the model states them. */
  function Header(tally: Tally, accuracyText: string): string {
    HeaderLead + IntToString(tally.total)
    + PassedLead + IntToString(tally.passed) + " (" + accuracyText + "%)"
    + FailedLead + IntToString(tally.failed) + "\n\n---\n\n"
  }

  /** The verdict of a run with these counts and failure records, stated in integer terms. */
  function VerdictOf(tally: Tally, failures: seq<FailedTest>): (v: Verdict)
    ensures v == Estavel <==> tally.failed == 0 && tally.total > 0
    ensures v == Critico <==> !(tally.failed == 0 && tally.total > 0)
                              && (AnyCritical(failures) || tally.total <= 0 || tally.passed * 100 < 60 * tally.total)
  {
    ClassifyByCounts(tally.passed, tally.failed, tally.total, AnyCritical(failures));
    Classify(tally.failed, tally.total, AnyCritical(failures), Accuracy(tally.passed, tally.total))
  }

  /** The prompt handed to the language model: framed by the turn markers, it carries the
      data block and the quoted labels of the verdict. */
  function PromptFor(tally: Tally, failures: seq<FailedTest>, formatAccuracy: real -> string,
                     templates: Templates): (r: string)
    ensures var v := VerdictOf(tally, failures);
            && StartsWith(r, TurnStart)
            && Contains(r, DataBlock(tally.total, tally.passed, tally.failed,
                                     formatAccuracy(Accuracy(tally.passed, tally.total)), failures))
            && Contains(r, Quoted(VerdictLabel(v))) && Contains(r, Quoted(ActionLabel(v)))
  {
    var accuracyText := formatAccuracy(Accuracy(tally.passed, tally.total));
    var data := DataBlock(tally.total, tally.passed, tally.failed, accuracyText, failures);
    PromptCarriesDecision(VerdictOf(tally, failures), data, templates);
    FullPrompt(UserPrompt(VerdictOf(tally, failures), data, templates))
  }

  /** `summarize_with_ai`. The guards come first, in order: no model, no statistics,
      counts that are not integers; then the model is called once with the prompt, and the
      report is the header followed by the stripped text, or the error with its detail.
      `formatAccuracy` stands for the `:.1f` formatting of the accuracy. */
  method SummarizeWithAi(llm: Option<string -> Generation>, stats: map<string, string>,
                         failures: seq<FailedTest>, formatAccuracy: real -> string,
                         templates: Templates) returns (report: string)
    ensures llm.None? ==> report == ModelMissing
    ensures llm.Some? && stats == map[] ==> report == NoStats
    ensures llm.Some? && stats != map[] && ParseTally(stats).None? ==> report == InvalidStats
    ensures llm.Some? && stats != map[] && ParseTally(stats).Some? ==>
              var tally := ParseTally(stats).value;
              match llm.value(PromptFor(tally, failures, formatAccuracy, templates))
              case Generated(text) =>
                report == Header(tally, formatAccuracy(Accuracy(tally.passed, tally.total))) + Strip(text)
              case GenerationFailed(detail) => report == GenerationErrorPrefix + detail
  {
    if llm.None? {
      return ModelMissing;
    }
    if stats == map[] {
      return NoStats;
    }
    var passed := LookupInt(stats, "passed");
    var failed := LookupInt(stats, "failed");
    var total := LookupInt(stats, "total");
    if passed.None? || failed.None? || total.None? {
      return InvalidStats;
    }
    var tally := Tally(passed.value, failed.value, total.value);
    assert ParseTally(stats) == Some(tally);
    report := AnalyzeCounts(llm.value, tally, failures, formatAccuracy, templates);
  }

  /** The part of `summarize_with_ai` after the guards: classify, build the prompt, call the
      model once, and put the computed header in front of its stripped text. */
  method AnalyzeCounts(llm: string -> Generation, tally: Tally, failures: seq<FailedTest>,
                       formatAccuracy: real -> string, templates: Templates) returns (report: string)
    ensures match llm(PromptFor(tally, failures, formatAccuracy, templates))
            case Generated(text) =>
              report == Header(tally, formatAccuracy(Accuracy(tally.passed, tally.total))) + Strip(text)
            case GenerationFailed(detail) => report == GenerationErrorPrefix + detail
  {
    var fullPrompt := ComposePrompt(tally, failures, formatAccuracy, templates);
    match llm(fullPrompt)
    case Generated(text) =>
      report := Header(tally, formatAccuracy(Accuracy(tally.passed, tally.total))) + Strip(text);
    case GenerationFailed(detail) =>
      report := GenerationErrorPrefix + detail;
  }

  /** The verdict, the data block and the prompt of the chosen template, built as the
      source builds them: the critical scan, the if/elif chain and the `+=` loop. */
  method ComposePrompt(tally: Tally, failures: seq<FailedTest>, formatAccuracy: real -> string,
                       templates: Templates) returns (fullPrompt: string)
    ensures fullPrompt == PromptFor(tally, failures, formatAccuracy, templates)
  {
    var accuracy := Accuracy(tally.passed, tally.total);
    var critical := HasCriticalFailure(failures);
    var verdict := Classify(tally.failed, tally.total, critical, accuracy);
    assert verdict == VerdictOf(tally, failures);
    var promptData := BuildPromptData(tally.total, tally.passed, tally.failed, formatAccuracy(accuracy), failures);
    fullPrompt := FullPrompt(UserPrompt(verdict, promptData, templates));
  }

  /** Statistics extracted from a record of integer counts that `str()` can print pass the
      integer check, and the analysis sees `total == passed + failed + skipped`. */
  lemma ExtractedCountsParse(blob: Blob, p: int, f: int, s: int)
    requires blob.Parsed? && TotalStats(blob.doc).Some?
    requires var record := TotalStats(blob.doc).value;
             Get(record, "pass") == JInt(p) && Get(record, "fail") == JInt(f) && Get(record, "skip") == JInt(s)
    requires FitsStrLimit(p) && FitsStrLimit(f) && FitsStrLimit(s) && FitsStrLimit(p + f + s)
    ensures StatsMap(blob) != map[]
    ensures ParseTally(StatsMap(blob)) == Some(Tally(p, f, p + f + s))
  {
    TotalIsSum(blob, p, f, s);
    DecimalTextsParse(StatsMap(blob), p, f, s);
  }

  lemma DecimalTextsParse(stats: map<string, string>, p: int, f: int, s: int)
    requires stats == StatsTexts(IntToString(p), IntToString(f), IntToString(s), IntToString(p + f + s))
    requires FitsStrLimit(p) && FitsStrLimit(f) && FitsStrLimit(p + f + s)
    ensures stats != map[]
    ensures ParseTally(stats) == Some(Tally(p, f, p + f + s))
  {
    StatsTextsLookup(IntToString(p), IntToString(f), IntToString(s), IntToString(p + f + s));
    TallyFromTexts(stats, p, f, p + f + s);
  }

  lemma TallyFromTexts(stats: map<string, string>, passed: int, failed: int, total: int)
    requires "passed" in stats && stats["passed"] == IntToString(passed)
    requires "failed" in stats && stats["failed"] == IntToString(failed)
    requires "total" in stats && stats["total"] == IntToString(total)
    requires FitsStrLimit(passed) && FitsStrLimit(failed) && FitsStrLimit(total)
    ensures ParseTally(stats) == Some(Tally(passed, failed, total))
  {
    IntToStringRoundTrip(passed);
    IntToStringRoundTrip(failed);
    IntToStringRoundTrip(total);
  }

  /** A count written with more digits than `int()` reads reaches the invalid-statistics
      guard. */
  lemma OverlongCountIsInvalid(stats: map<string, string>, key: string, n: int)
    requires key == "passed" || key == "failed" || key == "total"
    requires key in stats && stats[key] == IntToString(n) && !FitsStrLimit(n)
    ensures ParseTally(stats) == None
  {
    TooManyDigitsIsNotInteger(n);
    assert LookupInt(stats, key) == None;
  }

  /** Every count the analysis reads has few enough digits for the f-strings of the data
      block and the header to print it. */
  lemma ParsedCountsPrint(stats: map<string, string>)
    requires ParseTally(stats).Some?
    ensures var tally := ParseTally(stats).value;
            FitsStrLimit(tally.passed) && FitsStrLimit(tally.failed) && FitsStrLimit(tally.total)
  {
    var tally := ParseTally(stats).value;
    LookupFits(stats, "passed");
    LookupFits(stats, "failed");
    LookupFits(stats, "total");
  }

  lemma LookupFits(stats: map<string, string>, key: string)
    requires LookupInt(stats, key).Some?
    ensures FitsStrLimit(LookupInt(stats, key).value)
  {
    if key in stats {
      ParsedIntegerFits(stats[key]);
    }
  }

  /** A boolean count is written "True" or "False", which `int` rejects: statistics with a
      boolean `pass` beside numeric `fail` and `skip` counts that `str()` can print reach the
      invalid-statistics guard. */
  lemma BooleanCountIsInvalid(blob: Blob)
    requires blob.Parsed? && TotalStats(blob.doc).Some?
    requires Get(TotalStats(blob.doc).value, "pass").JBool?
    requires var record := TotalStats(blob.doc).value;
             var f, s := AsNumber(Get(record, "fail")), AsNumber(Get(record, "skip"));
             && f.Some? && s.Some? && FitsStrLimit(f.value) && FitsStrLimit(s.value)
             && FitsStrLimit(AsNumber(Get(record, "pass")).value + f.value + s.value)
    ensures StatsMap(blob) != map[] && ParseTally(StatsMap(blob)) == None
  {
    var record := TotalStats(blob.doc).value;
    var passed, failed, skipped := Get(record, "pass"), Get(record, "fail"), Get(record, "skip");
    assert ExtractCounts(blob) == SumCounts(passed, failed, skipped);
    var partial := PyAdd(passed, failed);
    assert partial.Some? && AsNumber(partial.value).Some?;
    var total := PyAdd(partial.value, skipped).value;
    assert total == JInt(AsNumber(passed).value + AsNumber(failed).value + AsNumber(skipped).value);
    var c := ExtractCounts(blob).value;
    assert c == Counts(passed, failed, skipped, total);
    assert !TooLongToPrint(failed) && !TooLongToPrint(skipped) && !TooLongToPrint(total);
    PrintedCounts(blob);
    var stats := StatsMap(blob);
    BoolTextsAreNotIntegers();
    assert LookupInt(stats, "passed") == None;
  }

  /** A successful report opens with the number of tests the analyzer counted, and carries
      the passed and failed counts it computed, whatever text the model generated. */
  lemma ReportLeadsWithCounts(tally: Tally, accuracyText: string, text: string)
    ensures var report := Header(tally, accuracyText) + Strip(text);
            && StartsWith(report, HeaderLead + IntToString(tally.total))
            && Contains(report, PassedLead + IntToString(tally.passed))
            && Contains(report, FailedLead + IntToString(tally.failed))
  {
    HeaderPieces(HeaderLead, IntToString(tally.total), PassedLead, IntToString(tally.passed),
                 " (", accuracyText, "%)", FailedLead, IntToString(tally.failed), "\n\n---\n\n", Strip(text));
  }

  lemma HeaderPieces(lead: string, total: string, passedLead: string, passed: string, open: string,
                     accuracy: string, close: string, failedLead: string, failed: string, rule: string,
                     body: string)
    ensures var report := lead + total + passedLead + passed + open + accuracy + close + failedLead + failed + rule + body;
            && StartsWith(report, lead + total)
            && Contains(report, passedLead + passed)
            && Contains(report, failedLead + failed)
  {
    var report := lead + total + passedLead + passed + open + accuracy + close + failedLead + failed + rule + body;
    var tail := open + accuracy + close + failedLead + failed + rule + body;
    assert report == (lead + total) + (passedLead + passed) + tail;
    assert report[..|lead + total|] == lead + total;
    ContainsInfix(lead + total, passedLead + passed, tail);
    var head := lead + total + passedLead + passed + open + accuracy + close;
    assert report == head + (failedLead + failed) + (rule + body);
    ContainsInfix(head, failedLead + failed, rule + body);
  }

  /** Statistics written as decimal texts read back as the same counts. */
  lemma DecimalStatsParse(passed: int, failed: int, skipped: int, total: int)
    requires FitsStrLimit(passed) && FitsStrLimit(failed) && FitsStrLimit(total)
    ensures ParseTally(StatsTexts(IntToString(passed), IntToString(failed), IntToString(skipped), IntToString(total)))
            == Some(Tally(passed, failed, total))
  {
    var stats := StatsTexts(IntToString(passed), IntToString(failed), IntToString(skipped), IntToString(total));
    StatsTextsLookup(IntToString(passed), IntToString(failed), IntToString(skipped), IntToString(total));
    TallyFromTexts(stats, passed, failed, total);
  }

  /** Scenario: ten tests, all passed, no failure records: the build is stable at 100%. */
  lemma AllPassedIsStable()
    ensures Accuracy(10, 10) == 100.0
    ensures VerdictOf(Tally(10, 0, 10), []) == Estavel
  {
  }

  /** Scenario: a failure record with "Conta Google" anywhere in its name makes the build
      critical whatever the counts, unless they alone make it stable (no failures, some tests). */
  lemma GoogleAccountFailureIsCritical(passed: int, failed: int, total: int,
                                       prefix: string, suffix: string, error: string)
    requires !(failed == 0 && total > 0)
    ensures VerdictOf(Tally(passed, failed, total), [FailedTest(prefix + "Conta Google" + suffix, error)]) == Critico
  {
    var failure := FailedTest(prefix + CriticalNames[0] + suffix, error);
    CriticalNameInside(prefix, 0, suffix);
    assert [failure][0] == failure;
  }

  /** Scenario: eight of ten passed and the two failures have ordinary names: unstable. */
  lemma OrdinaryFailuresAreUnstable(failures: seq<FailedTest>)
    requires !AnyCritical(failures)
    ensures VerdictOf(Tally(8, 2, 10), failures) == Instavel
  {
    ClassifyByCounts(8, 2, 10, false);
  }

  /** Scenario: a page whose statistics cannot be extracted (no assignment, text that is not
      JSON, no record at `[0][0]`, counts that cannot be added) ends at the no-statistics guard. */
  method MissingStatisticsShortCircuit(llm: string -> Generation, blob: Blob, failures: seq<FailedTest>,
                                       formatAccuracy: real -> string, templates: Templates)
    returns (report: string)
    requires ExtractCounts(blob).None?
    ensures report == NoStats
  {
    var stats := ParseLogStats(blob);
    report := SummarizeWithAi(Some(llm), stats, failures, formatAccuracy, templates);
  }
}

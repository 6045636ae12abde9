/**
 * The decision part of `summarize_with_ai` (analyzer.py): accuracy, the
 * critical-test check against four fixed names, and the three-way verdict.
 */
module Classifier {
  import opened PyText
  import opened Failures

  /** The tests whose failure alone makes the build unacceptable. */
  const CriticalNames: seq<string> :=
    ["Conta Google", "Atualizar Sistema", "Validar Versão de Software", "Realizar Uma Ligação"]

  /** `any(critical_name in name for critical_name in critical_test_names)`. */
  predicate IsCriticalName(name: string) {
    exists k :: 0 <= k < |CriticalNames| && Contains(name, CriticalNames[k])
  }

  /** Some failure record has a critical name. */
  predicate AnyCritical(failures: seq<FailedTest>) {
    exists i :: 0 <= i < |failures| && IsCriticalName(failures[i].name)
  }

  /** The flag `critical_tests_failed`: a scan of the records that stops at the first critical one. */
  method HasCriticalFailure(failures: seq<FailedTest>) returns (critical: bool)
    ensures critical <==> |failures| > 0 && AnyCritical(failures)
  {
    critical := false;
    if |failures| > 0 {
      var i := 0;
      while i < |failures|
        invariant 0 <= i <= |failures|
        invariant forall j :: 0 <= j < i ==> !IsCriticalName(failures[j].name)
      {
        if IsCriticalName(failures[i].name) {
          critical := true;
          break;
        }
        i := i + 1;
      }
    }
  }

  /** The flag depends only on which records are present, not on their order or repetition. */
  lemma AnyCriticalDependsOnlyOnRecords(a: seq<FailedTest>, b: seq<FailedTest>)
    requires forall t :: t in a <==> t in b
    ensures AnyCritical(a) == AnyCritical(b)
  {
    if AnyCritical(a) {
      var i :| 0 <= i < |a| && IsCriticalName(a[i].name);
      assert a[i] in b;
      var j :| 0 <= j < |b| && b[j] == a[i];
    }
    if AnyCritical(b) {
      var i :| 0 <= i < |b| && IsCriticalName(b[i].name);
      assert b[i] in a;
      var j :| 0 <= j < |a| && a[j] == b[i];
    }
  }

  /** A name is critical when one of the four names occurs anywhere in it. */
  lemma CriticalNameInside(prefix: string, k: nat, suffix: string)
    requires k < |CriticalNames|
    ensures IsCriticalName(prefix + CriticalNames[k] + suffix)
  {
    ContainsInfix(prefix, CriticalNames[k], suffix);
  }

  /** `(passed / total) * 100 if total > 0 else 0`, as an exact rational. */
  function Accuracy(passed: int, total: int): (a: real)
    ensures total > 0 && 0 <= passed <= total ==> 0.0 <= a <= 100.0
  {
    if total > 0 then (passed as real / total as real) * 100.0 else 0.0
  }

  /** The accuracy threshold in integers: below 60% exactly when `passed * 100 < 60 * total`,
      and always when there are no tests. */
  lemma AccuracyBelowThreshold(passed: int, total: int)
    ensures Accuracy(passed, total) < 60.0 <==> total <= 0 || passed * 100 < 60 * total
  {
    if total > 0 {
      var p, t := passed as real, total as real;
      ScaledQuotient(p, t);
      PercentBelow((p / t) * 100.0, p, t);
      CastProducts(passed, total);
    }
  }

  /** Multiplying the percentage back by the total gives a hundred times the passed count. */
  lemma ScaledQuotient(p: real, t: real)
    requires t > 0.0
    ensures ((p / t) * 100.0) * t == p * 100.0
  {
    var q := p / t;
    assert q * t == p;
    assert (q * 100.0) * t == (q * t) * 100.0;
  }

  /** A percentage `a` of `t` tests covering `p` passes is below 60 exactly when `100 p < 60 t`. */
  lemma PercentBelow(a: real, p: real, t: real)
    requires t > 0.0 && a * t == p * 100.0
    ensures a < 60.0 <==> p * 100.0 < 60.0 * t
  {
    ScaleByPositive(a, 60.0, t);
  }

  lemma ScaleByPositive(x: real, y: real, t: real)
    requires t > 0.0
    ensures x < y <==> x * t < y * t
  {
  }

  /** The integer comparison and its rational counterpart agree. */
  lemma CastProducts(passed: int, total: int)
    ensures passed as real * 100.0 < 60.0 * total as real <==> passed * 100 < 60 * total
  {
    assert (passed * 100) as real == passed as real * 100.0;
    assert (60 * total) as real == 60.0 * total as real;
  }

  datatype Verdict = Estavel | Instavel | Critico

  /** The if/elif chain: stable, then critical, then unstable. */
  function Classify(failed: int, total: int, critical: bool, accuracy: real): (v: Verdict)
    ensures v == Estavel <==> failed == 0 && total > 0
    ensures v == Critico <==> !(failed == 0 && total > 0) && (critical || accuracy < 60.0)
    ensures v == Instavel <==> !(failed == 0 && total > 0) && !critical && accuracy >= 60.0
  {
    if failed == 0 && total > 0 then Estavel
    else if critical || accuracy < 60.0 then Critico
    else Instavel
  }

  /** The verdict from the counts alone, with the accuracy comparison done in integers. */
  lemma ClassifyByCounts(passed: int, failed: int, total: int, critical: bool)
    ensures Classify(failed, total, critical, Accuracy(passed, total)) ==
            if failed == 0 && total > 0 then Estavel
            else if critical || total <= 0 || passed * 100 < 60 * total then Critico
            else Instavel
  {
    AccuracyBelowThreshold(passed, total);
  }

  /** No tests at all is never stable and always critical (the accuracy is 0). */
  lemma NoTestsIsCritico(passed: int, failed: int, total: int, critical: bool)
    requires total <= 0
    ensures Classify(failed, total, critical, Accuracy(passed, total)) == Critico
  {
  }

  /** A run without failures is stable whatever the names say: a critical match cannot
      override it. */
  lemma NoFailuresIsEstavel(passed: int, total: int, critical: bool, accuracy: real)
    requires total > 0
    ensures Classify(0, total, critical, accuracy) == Estavel
  {
  }

  /** At exactly 60% with failures and no critical name the build is unstable; one
      passing test fewer in a thousand makes it critical. */
  lemma ThresholdBoundary()
    ensures Classify(4, 10, false, Accuracy(6, 10)) == Instavel
    ensures Classify(401, 1000, false, Accuracy(599, 1000)) == Critico
  {
    ClassifyByCounts(6, 4, 10, false);
    ClassifyByCounts(599, 401, 1000, false);
  }
}

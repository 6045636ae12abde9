/**
 * The failure extractor, `parse_log_failed_details` (analyzer.py): for every
 * FAIL label in the `test-details` table it reads the name and message cells
 * of the enclosing row, drops rows whose name reads like a status label, and
 * removes duplicate (name, error) pairs.
 */
module Failures {
  import opened Wrappers
  import opened PyText

  /** The stripped texts of the name and message cells of a table row, where the row has them. */
  datatype Row = Row(nameCell: Option<string>, msgCell: Option<string>)

  /** One `<span class="label fail">FAIL</span>` and the `<tr>` that encloses it, if any. */
  datatype FailSpan = FailSpan(row: Option<Row>)

  /** A failure record; its identity is the (name, error) pair. */
  datatype FailedTest = FailedTest(name: string, error: string)

  /** The name starts, once upper-cased, with PASS, FAIL or SKIP. */
  predicate IsStatusLabel(name: string) {
    var upper := Upper(name);
    StartsWith(upper, "PASS") || StartsWith(upper, "FAIL") || StartsWith(upper, "SKIP")
  }

  /** A name whose first four characters upper-case to PASS, FAIL or SKIP reads as a status
      label, whatever their case and whatever follows them. */
  lemma StatusLabelIgnoresCase(name: string, status: string)
    requires status == "PASS" || status == "FAIL" || status == "SKIP"
    requires |status| <= |name|
    requires forall i :: 0 <= i < |status| ==> UpperChar(name[i]) == [status[i]]
    ensures IsStatusLabel(name)
  {
    UpperStartsWith(name, status);
  }

  /** An st ligature after "pas", in any case, upper-cases to "ST" and completes PASS:
      "pasﬆ Login" reads as a status label. */
  lemma LigatureCompletesPass(name: string)
    requires |name| >= 4 && UpperChar(name[0]) == "P" && UpperChar(name[1]) == "A" && UpperChar(name[2]) == "S"
    requires name[3] == '\U{FB05}' || name[3] == '\U{FB06}'
    ensures IsStatusLabel(name)
  {
    var tail := Upper(name[4..]);
    assert Upper(name[3..]) == "ST" + tail by {
      assert name[3..][1..] == name[4..];
    }
    assert Upper(name[2..]) == "S" + ("ST" + tail) by {
      assert name[2..][1..] == name[3..];
    }
    assert Upper(name[1..]) == "A" + ("S" + ("ST" + tail)) by {
      assert name[1..][1..] == name[2..];
    }
    assert Upper(name) == "P" + ("A" + ("S" + ("ST" + tail)));
    assert Upper(name)[..4] == "PASS";
  }

  /** The record one span contributes: both cells present and the name not a status label. */
  function RecordOf(span: FailSpan): (r: Option<FailedTest>)
    ensures r.Some? ==> !IsStatusLabel(r.value.name)
    ensures r.Some? <==> span.row.Some? && span.row.value.nameCell.Some?
                         && span.row.value.msgCell.Some?
                         && !IsStatusLabel(span.row.value.nameCell.value)
    ensures r.Some? ==> r.value == FailedTest(span.row.value.nameCell.value, span.row.value.msgCell.value)
  {
    match span.row
    case None => None
    case Some(Row(nameCell, msgCell)) =>
      if nameCell.Some? && msgCell.Some? && !IsStatusLabel(nameCell.value)
      then Some(FailedTest(nameCell.value, msgCell.value))
      else None
  }

  /** The records collected from the spans, in document order, before duplicates go. */
  function Collected(spans: seq<FailSpan>): (r: seq<FailedTest>)
    ensures |r| <= |spans|
  {
    if spans == [] then []
    else
      var rest := Collected(spans[..|spans| - 1]);
      match RecordOf(spans[|spans| - 1])
      case None => rest
      case Some(t) => rest + [t]
  }

  /** Every collected record comes from some span: the lemma names it. */
  lemma {:induction false} CollectedFrom(spans: seq<FailSpan>, t: FailedTest) returns (i: nat)
    requires t in Collected(spans)
    ensures i < |spans| && RecordOf(spans[i]) == Some(t)
  {
    var init := spans[..|spans| - 1];
    if t in Collected(init) {
      i := CollectedFrom(init, t);
      assert spans[i] == init[i];
    } else {
      i := |spans| - 1;
    }
  }

  /** The record of every span is collected. */
  lemma {:induction false} CollectedHas(spans: seq<FailSpan>, i: nat)
    requires i < |spans| && RecordOf(spans[i]).Some?
    ensures RecordOf(spans[i]).value in Collected(spans)
  {
    var init := spans[..|spans| - 1];
    if i < |init| {
      assert spans[i] == init[i];
      CollectedHas(init, i);
    }
  }

  /** A record is collected exactly when some span yields it. */
  lemma CollectedIff(spans: seq<FailSpan>, t: FailedTest)
    ensures t in Collected(spans) <==> exists i :: 0 <= i < |spans| && RecordOf(spans[i]) == Some(t)
  {
    if t in Collected(spans) {
      var i := CollectedFrom(spans, t);
    }
    if exists i :: 0 <= i < |spans| && RecordOf(spans[i]) == Some(t) {
      var i :| 0 <= i < |spans| && RecordOf(spans[i]) == Some(t);
      CollectedHas(spans, i);
    }
  }

  /** No record in the list reads like a status label. */
  lemma CollectedHasNoStatusLabels(spans: seq<FailSpan>)
    ensures forall t :: t in Collected(spans) ==> !IsStatusLabel(t.name)
  {
    forall t | t in Collected(spans) ensures !IsStatusLabel(t.name) {
      CollectedIff(spans, t);
    }
  }

  /** The loop over the FAIL spans, appending one record per usable row. */
  method CollectFailures(spans: seq<FailSpan>) returns (failedTests: seq<FailedTest>)
    ensures failedTests == Collected(spans)
  {
    failedTests := [];
    for i := 0 to |spans|
      invariant failedTests == Collected(spans[..i])
    {
      assert spans[..i + 1][..i] == spans[..i];
      var span := spans[i];
      if span.row.Some? {
        var row := span.row.value;
        if row.nameCell.Some? && row.msgCell.Some? {
          var testName := row.nameCell.value;
          var errorMessage := row.msgCell.value;
          if !IsStatusLabel(testName) {
            failedTests := failedTests + [FailedTest(testName, errorMessage)];
          }
        }
      }
    }
    assert spans[..|spans|] == spans;
  }

  predicate NoDuplicates(s: seq<FailedTest>) {
    forall i, j :: 0 <= i < j < |s| ==> s[i] != s[j]
  }

  /** The list built from the set of pairs; the model keeps each pair's first occurrence
      where Python follows the set's iteration order. */
  function Dedup(s: seq<FailedTest>): (r: seq<FailedTest>)
    ensures |r| <= |s|
  {
    if s == [] then []
    else
      var rest := Dedup(s[..|s| - 1]);
      if s[|s| - 1] in rest then rest else rest + [s[|s| - 1]]
  }

  /** Deduplication keeps exactly the pairs of its input, each once. */
  lemma {:induction false} DedupCorrect(s: seq<FailedTest>)
    ensures NoDuplicates(Dedup(s))
    ensures forall t :: t in Dedup(s) <==> t in s
  {
    if s != [] {
      var init := s[..|s| - 1];
      DedupCorrect(init);
      assert s == init + [s[|s| - 1]];
    }
  }

  lemma {:induction false} NoDuplicatesMultiplicity(s: seq<FailedTest>, t: FailedTest)
    requires NoDuplicates(s)
    ensures multiset(s)[t] == if t in s then 1 else 0
  {
    if s != [] {
      var init := s[..|s| - 1];
      assert s == init + [s[|s| - 1]];
      NoDuplicatesMultiplicity(init, t);
    }
  }

  /** Any two duplicate-free lists of the same pairs are permutations of each other:
      the order Python's set happens to give changes nothing but the order. */
  lemma DedupUniqueUpToOrder(a: seq<FailedTest>, b: seq<FailedTest>)
    requires NoDuplicates(a) && NoDuplicates(b)
    requires forall t :: t in a <==> t in b
    ensures multiset(a) == multiset(b)
  {
    forall t ensures multiset(a)[t] == multiset(b)[t] {
      NoDuplicatesMultiplicity(a, t);
      NoDuplicatesMultiplicity(b, t);
    }
  }

  /** `parse_log_failed_details`: no table gives the empty list; otherwise the collected
      records without duplicates. */
  method ParseLogFailedDetails(table: Option<seq<FailSpan>>) returns (tests: seq<FailedTest>)
    ensures table.None? ==> tests == []
    ensures table.Some? ==> tests == Dedup(Collected(table.value))
    ensures NoDuplicates(tests)
    ensures forall t :: t in tests ==> !IsStatusLabel(t.name)
    ensures forall t :: t in tests <==>
              table.Some? && exists i :: 0 <= i < |table.value| && RecordOf(table.value[i]) == Some(t)
  {
    if table.None? {
      return [];
    }
    var failedTests := CollectFailures(table.value);
    tests := Dedup(failedTests);
    DedupCorrect(failedTests);
    CollectedHasNoStatusLabels(table.value);
    forall t ensures t in tests <==> exists i :: 0 <= i < |table.value| && RecordOf(table.value[i]) == Some(t) {
      CollectedIff(table.value, t);
    }
  }
}

/**
 * The statistics extractor, `parse_log_stats` (analyzer.py): it reads the
 * aggregate record at position [0][0] of the JSON array assigned to
 * `window.output["stats"]`, defaults missing `pass`, `fail` and `skip` keys
 * to 0, derives `total`, and returns the four counts as text; anything that
 * goes wrong gives the empty map.
 */
module Stats {
  import opened Wrappers
  import opened PyText

  /** A value as `json.loads` returns it (JSON numbers with a fraction or an exponent are left out). */
  datatype Json =
    | JNull
    | JBool(b: bool)
    | JInt(i: int)
    | JStr(s: string)
    | JArray(items: seq<Json>)
    | JObject(fields: map<string, Json>)

  /** What the regular-expression search and `json.loads` hand over. */
  datatype Blob =
    | NotFound            // no `window.output["stats"] = …;` assignment in the page
    | Unparseable         // the assigned text is not JSON
    | Parsed(doc: Json)

  /** `v[0]` in Python; None where Python raises (IndexError, KeyError, TypeError). */
  function First(v: Json): (r: Option<Json>)
    ensures r.Some? ==> v.JArray? || v.JStr?
  {
    match v
    case JArray(items) => if |items| > 0 then Some(items[0]) else None
    case JStr(s) => if |s| > 0 then Some(JStr([s[0]])) else None
    case _ => None  // JSON object keys are strings, so `d[0]` is a KeyError
  }

  /** `stats_data[0][0]`, which must be a dict for `.get` to be called on it. */
  function TotalStats(doc: Json): (r: Option<map<string, Json>>)
    ensures r.Some? ==> doc.JArray? && |doc.items| > 0 && First(doc.items[0]) == Some(JObject(r.value))
  {
    match First(doc)
    case None => None
    case Some(row) =>
      match First(row)
      case Some(JObject(fields)) => Some(fields)
      case _ => None
  }

  /** `total_stats.get(key, 0)`. */
  function Get(record: map<string, Json>, key: string): (v: Json)
    ensures key !in record ==> v == JInt(0)
    ensures key in record ==> v == record[key]
  {
    if key in record then record[key] else JInt(0)
  }

  /** The integer value of a Python int or bool (bool is a subclass of int). */
  function AsNumber(v: Json): Option<int> {
    match v
    case JInt(i) => Some(i)
    case JBool(b) => Some(if b then 1 else 0)
    case _ => None
  }

  predicate IsScalar(v: Json) {
    v.JNull? || v.JBool? || v.JInt? || v.JStr?
  }

  /** `a + b`: numbers add, strings concatenate, anything else raises TypeError (None).
      Two lists would concatenate in Python; that case is not modelled. */
  function PyAdd(a: Json, b: Json): (r: Option<Json>)
    ensures r.Some? <==> (AsNumber(a).Some? && AsNumber(b).Some?) || (a.JStr? && b.JStr?)
    ensures r.Some? ==> IsScalar(a) && IsScalar(b) && (r.value.JInt? || r.value.JStr?)
    ensures AsNumber(a).Some? && AsNumber(b).Some? ==> r == Some(JInt(AsNumber(a).value + AsNumber(b).value))
    ensures a.JStr? && b.JStr? ==> r == Some(JStr(a.s + b.s))
  {
    if AsNumber(a).Some? && AsNumber(b).Some? then Some(JInt(AsNumber(a).value + AsNumber(b).value))
    else if a.JStr? && b.JStr? then Some(JStr(a.s + b.s))
    else None
  }

  /** `str()` raises ValueError on the value: an integer with more digits than the limit. */
  predicate TooLongToPrint(v: Json) {
    v.JInt? && !FitsStrLimit(v.i)
  }

  /** `str(v)` for the values that reach it; None where it raises. */
  function Str(v: Json): (r: Option<string>)
    requires IsScalar(v)
    ensures r.None? <==> TooLongToPrint(v)
  {
    match v
    case JNull => Some("None")
    case JBool(b) => Some(if b then "True" else "False")
    case JInt(i) => if FitsStrLimit(i) then Some(IntToString(i)) else None
    case JStr(s) => Some(s)
  }

  /** The four counts as Python values, once every step has succeeded. */
  datatype Counts = Counts(passed: Json, failed: Json, skipped: Json, total: Json)

  /** The three counts and `passed + failed + skipped`; None when Python cannot add them. */
  function SumCounts(passed: Json, failed: Json, skipped: Json): (r: Option<Counts>)
    ensures r.Some? ==> IsScalar(r.value.passed) && IsScalar(r.value.failed)
                         && IsScalar(r.value.skipped) && IsScalar(r.value.total)
  {
    match PyAdd(passed, failed)
    case None => None
    case Some(partial) =>
      match PyAdd(partial, skipped)
      case None => None
      case Some(total) => Some(Counts(passed, failed, skipped, total))
  }

  /** The record's counts and their sum; None when a step of the extraction raises. */
  function ExtractCounts(blob: Blob): (r: Option<Counts>)
    ensures r.Some? ==> IsScalar(r.value.passed) && IsScalar(r.value.failed)
                         && IsScalar(r.value.skipped) && IsScalar(r.value.total)
  {
    if !blob.Parsed? then None
    else
      match TotalStats(blob.doc)
      case None => None
      case Some(record) => SumCounts(Get(record, "pass"), Get(record, "fail"), Get(record, "skip"))
  }

  /** The four-key dictionary of texts. */
  function StatsTexts(passed: string, failed: string, skipped: string, total: string): map<string, string> {
    map["passed" := passed, "failed" := failed, "skipped" := skipped, "total" := total]
  }

  /** The four keys are distinct, so each one reads back its own text. */
  lemma StatsTextsLookup(passed: string, failed: string, skipped: string, total: string)
    ensures var m := StatsTexts(passed, failed, skipped, total);
            && "passed" in m && m["passed"] == passed
            && "failed" in m && m["failed"] == failed
            && "skipped" in m && m["skipped"] == skipped
            && "total" in m && m["total"] == total
  {
    assert "passed"[0] == 'p' && "failed"[0] == 'f' && "skipped"[0] == 's' && "total"[0] == 't';
  }

  /** The dictionary `parse_log_stats` returns: empty when a step of the extraction or one
      of the four `str()` calls raises. */
  function StatsMap(blob: Blob): map<string, string> {
    match ExtractCounts(blob)
    case None => map[]
    case Some(c) =>
      match (Str(c.passed), Str(c.failed), Str(c.skipped), Str(c.total))
      case (Some(passed), Some(failed), Some(skipped), Some(total)) => StatsTexts(passed, failed, skipped, total)
      case _ => map[]
  }

  /** Once the counts are extracted and `str()` prints each of them, the result holds their
      texts under the four keys. */
  lemma PrintedCounts(blob: Blob)
    requires ExtractCounts(blob).Some?
    requires var c := ExtractCounts(blob).value;
             && !TooLongToPrint(c.passed) && !TooLongToPrint(c.failed)
             && !TooLongToPrint(c.skipped) && !TooLongToPrint(c.total)
    ensures var c := ExtractCounts(blob).value;
            var stats := StatsMap(blob);
            && stats == StatsTexts(Str(c.passed).value, Str(c.failed).value, Str(c.skipped).value, Str(c.total).value)
            && "passed" in stats && stats["passed"] == Str(c.passed).value
  {
    var c := ExtractCounts(blob).value;
    StatsTextsLookup(Str(c.passed).value, Str(c.failed).value, Str(c.skipped).value, Str(c.total).value);
  }

  /** `parse_log_stats`: fills the result key by key once the record and the sum are in hand. */
  method ParseLogStats(blob: Blob) returns (stats: map<string, string>)
    ensures stats == StatsMap(blob)
    ensures stats == map[] || stats.Keys == {"passed", "failed", "skipped", "total"}
    ensures !blob.Parsed? ==> stats == map[]
  {
    stats := map[];
    if !blob.Parsed? {
      return map[];
    }
    var record := TotalStats(blob.doc);
    if record.None? {
      return map[];
    }
    var passed := Get(record.value, "pass");
    var failed := Get(record.value, "fail");
    var skipped := Get(record.value, "skip");
    var partial := PyAdd(passed, failed);
    if partial.None? {
      return map[];
    }
    var total := PyAdd(partial.value, skipped);
    if total.None? {
      return map[];
    }
    assert ExtractCounts(blob) == Some(Counts(passed, failed, skipped, total.value));
    var text := Str(passed);
    if text.None? {
      return map[];
    }
    stats := stats["passed" := text.value];
    text := Str(failed);
    if text.None? {
      return map[];
    }
    stats := stats["failed" := text.value];
    text := Str(skipped);
    if text.None? {
      return map[];
    }
    stats := stats["skipped" := text.value];
    text := Str(total.value);
    if text.None? {
      return map[];
    }
    stats := stats["total" := text.value];
  }

  /** With integer counts `p`, `f` and `s` (a missing key reads as 0, see `Get`) that `str()`
      can print, and a sum it can print too, the result holds their decimal texts and `total`
      is the text of `p + f + s`. */
  lemma TotalIsSum(blob: Blob, p: int, f: int, s: int)
    requires blob.Parsed? && TotalStats(blob.doc).Some?
    requires var record := TotalStats(blob.doc).value;
             Get(record, "pass") == JInt(p) && Get(record, "fail") == JInt(f) && Get(record, "skip") == JInt(s)
    requires FitsStrLimit(p) && FitsStrLimit(f) && FitsStrLimit(s) && FitsStrLimit(p + f + s)
    ensures StatsMap(blob) == StatsTexts(IntToString(p), IntToString(f), IntToString(s), IntToString(p + f + s))
  {
    IntegerCountsExtract(blob, p, f, s);
    IntegerCountsText(blob, p, f, s);
  }

  lemma IntegerCountsExtract(blob: Blob, p: int, f: int, s: int)
    requires blob.Parsed? && TotalStats(blob.doc).Some?
    requires var record := TotalStats(blob.doc).value;
             Get(record, "pass") == JInt(p) && Get(record, "fail") == JInt(f) && Get(record, "skip") == JInt(s)
    ensures ExtractCounts(blob) == Some(Counts(JInt(p), JInt(f), JInt(s), JInt(p + f + s)))
  {
    assert ExtractCounts(blob) == SumCounts(JInt(p), JInt(f), JInt(s));
    IntegersSum(p, f, s);
  }

  lemma IntegerCountsText(blob: Blob, p: int, f: int, s: int)
    requires ExtractCounts(blob) == Some(Counts(JInt(p), JInt(f), JInt(s), JInt(p + f + s)))
    requires FitsStrLimit(p) && FitsStrLimit(f) && FitsStrLimit(s) && FitsStrLimit(p + f + s)
    ensures StatsMap(blob) == StatsTexts(IntToString(p), IntToString(f), IntToString(s), IntToString(p + f + s))
  {
    assert Str(JInt(p)) == Some(IntToString(p)) && Str(JInt(f)) == Some(IntToString(f));
    assert Str(JInt(s)) == Some(IntToString(s)) && Str(JInt(p + f + s)) == Some(IntToString(p + f + s));
  }

  /** Integer counts of which one, or their sum, has more digits than `str()` prints give the
      empty result: with `pass` and `fail` both 9 followed by 4299 zeros, the sum has 4301
      digits and `str(passed + failed + skipped)` raises. */
  lemma CountPastDigitLimitGivesEmpty(blob: Blob, p: int, f: int, s: int)
    requires blob.Parsed? && TotalStats(blob.doc).Some?
    requires var record := TotalStats(blob.doc).value;
             Get(record, "pass") == JInt(p) && Get(record, "fail") == JInt(f) && Get(record, "skip") == JInt(s)
    requires !(FitsStrLimit(p) && FitsStrLimit(f) && FitsStrLimit(s) && FitsStrLimit(p + f + s))
    ensures StatsMap(blob) == map[]
  {
    IntegerCountsExtract(blob, p, f, s);
  }

  lemma IntegersSum(p: int, f: int, s: int)
    ensures SumCounts(JInt(p), JInt(f), JInt(s)) == Some(Counts(JInt(p), JInt(f), JInt(s), JInt(p + f + s)))
  {
    assert PyAdd(JInt(p), JInt(f)) == Some(JInt(p + f));
  }

  /** The result is empty exactly when the assignment is missing, the text is not JSON,
      `[0][0]` is not a dict, the three counts cannot be added, or one of the counts or
      their sum is an integer too long for `str()`. */
  lemma EmptyExactlyOnFailure(blob: Blob)
    ensures StatsMap(blob) == map[] <==>
              || !blob.Parsed?
              || TotalStats(blob.doc).None?
              || (var record := TotalStats(blob.doc).value;
                  var sum := PyAdd(Get(record, "pass"), Get(record, "fail"));
                  || sum.None?
                  || PyAdd(sum.value, Get(record, "skip")).None?
                  || TooLongToPrint(Get(record, "pass")) || TooLongToPrint(Get(record, "fail"))
                  || TooLongToPrint(Get(record, "skip"))
                  || TooLongToPrint(PyAdd(sum.value, Get(record, "skip")).value))
  {
    var counts := ExtractCounts(blob);
    if counts.Some? {
      var c := counts.value;
      if Str(c.passed).Some? && Str(c.failed).Some? && Str(c.skipped).Some? && Str(c.total).Some? {
        StatsTextsLookup(Str(c.passed).value, Str(c.failed).value, Str(c.skipped).value, Str(c.total).value);
        assert "total" in StatsMap(blob);
      }
    }
  }

  /** Counts that Python cannot add (a null, or a text beside a count that defaults to 0)
      make the whole result empty instead of raising. */
  lemma MixedCountsGiveEmpty(record: map<string, Json>)
    requires "pass" in record
    requires record["pass"] == JNull || (record["pass"].JStr? && "fail" !in record)
    ensures StatsMap(Parsed(JArray([JArray([JObject(record)])]))) == map[]
  {
    var blob := Parsed(JArray([JArray([JObject(record)])]));
    assert TotalStats(blob.doc) == Some(record);
    var passed, failed := Get(record, "pass"), Get(record, "fail");
    assert passed == record["pass"];
    if passed != JNull {
      assert failed == JInt(0);
    }
    assert PyAdd(passed, failed).None?;
    assert ExtractCounts(blob) == None;
  }
}

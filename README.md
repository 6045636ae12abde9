# FOTA test-log analyzer, modelled in Dafny

This project models the core of a FOTA (firmware-over-the-air) test-log analyzer. The analyzer reads the `log.html` report of an automated test run. It does four things:

- It extracts the aggregate pass/fail/skip counts.
- It collects the failing tests with their error messages.
- It classifies the build as stable (`ESTAVEL`), unstable (`INSTAVEL`) or critical (`CRITICO`).
- It has a local language model (Gemma 2B through llama.cpp) write a narrative analysis from a prompt built for that verdict. It returns that narrative behind a header of counts that it computes itself.

All of the logic is in `analyzer.py`, and the model follows it function by function:

- `pytext.dfy` (module `PyText`): the Python string operations the analyzer relies on, written out. These are `str.strip()`, `str.upper()`, `startswith`, the substring test `in`, `str(int)` and `int(str)`.
- `stats.dfy` (module `Stats`): `parse_log_stats`. It starts from what the regular expression and `json.loads` hand over.
- `failures.dfy` (module `Failures`): `parse_log_failed_details`. It starts from the FAIL spans that BeautifulSoup finds and the texts of their row cells.
- `classifier.dfy` (module `Classifier`): the accuracy, the critical-name check and the verdict chain of `summarize_with_ai`.
- `prompt.dfy` (module `Prompt`): the data block, the verdict and action labels, and the turn delimiters.
- `report.dfy` (module `Report`): `summarize_with_ai` itself. This covers the guards, the call to the language model and the assembled report.
- `wrappers.dfy` (module `Wrappers`): the `Option` type.

The parts that change a variable step by step are methods. `CollectFailures`, `HasCriticalFailure`, `AppendEntries` and `ParseLogStats` are each proved equal to a specification function. `SummarizeWithAi` is specified case by case, one case for each guard and one for the call to the model:

- `CollectFailures`, the append loop over the FAIL spans.
- `HasCriticalFailure`, the scan with `break`.
- `AppendEntries`, the `+=` loop over the listed records, called by `BuildPromptData`.
- `ParseLogStats`, which fills the dictionary key by key with no loop. The source calls `str()` on the three counts before it adds them. The model adds first, because `str()` of a list or an object (its `repr`) is not modelled. The result is the same, apart from the sum of three lists, which is listed under `Stats.PyAdd` below: a count that is not a scalar makes the addition fail, and every failing step gives `{}`.
- `SummarizeWithAi`, which runs the guards in order and hands the rest to `AnalyzeCounts` and `ComposePrompt`.

The remaining parts are functions: the verdict chain, the accuracy, the set-based dedup, and the assembly of the prompt and header.

Three inputs of `summarize_with_ai` are parameters of the model:

- The language model is an `Option<string -> Generation>`. `None` means the model failed to load at start-up. Otherwise it is a function from the prompt to the generated text or to the detail of the error it raised.
- The `:.1f` formatting of the accuracy is a parameter `formatAccuracy: real -> string`.
- The instruction prose around the data block is a parameter `Templates`. Its wording carries no logic. The verdict and action labels it embeds are exact constants.

The accuracy is an exact rational (`real`).

The model follows the default of Python 3.11 and later, where `int()` of a text and `str()` of an integer raise ValueError past 4300 decimal digits (`sys.get_int_max_str_digits()`). The underscores in a text and the sign of an integer do not count towards the limit. Interpreters before 3.11 have no limit, except the security releases 3.7.14, 3.8.14, 3.9.14 and 3.10.7 and their later releases, which have the same default. `PyText.MaxStrDigits` and `PyText.FitsStrLimit` carry it.

Two details of the failure extractor:

- When a parsing step raises, the extractor still returns the records it had collected before the exception, deduplicated (analyzer.py:66-70).
- The deduplicated list is built from a Python set (analyzer.py:69), so its order is the set's iteration order. The model keeps the first occurrence. It proves that any two duplicate-free lists of the same pairs are permutations of each other (`DedupUniqueUpToOrder`).

## Model

| member | source | states |
|---|---|---|
| `PyText.UpperChar` | analyzer.py:63 | upper-casing one character gives one or two characters, and a lower-case ASCII letter becomes its capital; ß, ı, ſ, ﬅ and ﬆ map onto ASCII letters as in Python |
| `PyText.Upper` | analyzer.py:63 | the model's `upper()` is at least as long as its input and at most twice as long (a bound of the model's case table, see Left out) |
| `PyText.ParseInt` | analyzer.py:79-81 | `int()` skips the whitespace it skips (every `isspace()` character except U+001C to U+001F) and succeeds only on a non-empty text that then ends in a digit; `ParsedIntegerFits` and `TooManyDigitsIsNotInteger` state its 4300-digit limit |
| `PyText.Strip` | analyzer.py:175 | the stripped text is no longer than the input and neither starts nor ends with whitespace |
| `PyText.StripIsSlice` | analyzer.py:175 | `strip()` keeps one contiguous run of the input and removes only whitespace before and after it |
| `PyText.StripIdempotent` | analyzer.py:175 | stripping an already stripped text changes nothing |
| `PyText.UpperStartsWith` | analyzer.py:63 | `upper()` starts with a label when the leading characters upper-case one by one to that label |
| `PyText.Contains` | analyzer.py:92 | the substring test `needle in hay`, defined by recursion on `hay`; `ContainsIff` states its meaning |
| `PyText.ContainsIff` | analyzer.py:92 | the substring test `needle in hay` holds exactly when `needle` occurs at some position of `hay` |
| `PyText.ContainsExtend` | analyzer.py:92 | an occurrence survives text added on either side |
| `PyText.IntToString` | analyzer.py:33-36 | the decimal text of `n` is non-empty and begins with `-` exactly for negative `n`; the 4300-digit limit of `str()` is applied by `Stats.Str` |
| `PyText.IntToStringRoundTrip` | analyzer.py:79-81 | `int(str(n)) == n` for every integer `n` within the 4300-digit limit; `TooManyDigitsIsNotInteger` covers the rest |
| `PyText.IntStrip` | analyzer.py:79-81 | the whitespace `int()` skips is gone from both ends, and nothing is added; `IntStripIsSlice` states that nothing else is removed |
| `PyText.IntStripIsSlice` | analyzer.py:79-81 | `int()` reads one contiguous run of its input and skips only its own whitespace before and after it |
| `PyText.SeparatorIsNotIntSpace` | analyzer.py:79-84 | U+001C to U+001F are whitespace to `strip()` but `int()` raises on a text that begins with one |
| `PyText.TooManyDigitsIsNotInteger` | analyzer.py:79-81 | `int()` raises on the decimal text of an integer past the 4300-digit limit |
| `PyText.ParsedIntegerFits` | analyzer.py:79-81 | every integer `int()` returns has at most 4300 digits, so `str()` can print it back |
| `PyText.StartsWith` | analyzer.py:63 | `startswith`: the text is at least as long as the prefix and begins with it; `UpperStartsWith` and `LigatureCompletesPass` use it |
| `PyText.BoolTextsAreNotIntegers` | analyzer.py:79-84 | `int()` raises on "True" and "False", the texts `str()` gives for booleans |
| `Stats.First` | analyzer.py:27 | indexing `[0]` succeeds only on a JSON array or string, never on a number, boolean, null or object |
| `Stats.TotalStats` | analyzer.py:27-29 | `stats_data[0][0]` is usable only when it is the JSON object at the head of the head of the parsed array |
| `Stats.Get` | analyzer.py:29-31 | a missing `pass`/`fail`/`skip` key reads as the integer 0 and a present one as its value |
| `Stats.PyAdd` | analyzer.py:36 | Python `+` on JSON values succeeds exactly when both are numbers (booleans as 0/1) or both are strings; numbers give their integer sum, strings their concatenation, anything else raises |
| `Stats.ParseLogStats` | analyzer.py:19-40 | fills `passed`, `failed`, `skipped` and `total` key by key; the result is the empty map or has exactly those four keys, and it is empty when the assignment is missing or unparseable |
| `Stats.SumCounts` | analyzer.py:36 | `passed + failed + skipped` succeeds only on values `str()` can print (numbers, booleans, null, strings) |
| `Stats.StatsTextsLookup` | analyzer.py:33-36 | the dictionary holds the four keys `passed`, `failed`, `skipped` and `total`, each with the text assigned to it |
| `Stats.Str` | analyzer.py:33-36 | `str()` of the values that reach it raises exactly on an integer past the 4300-digit limit; otherwise it is `None`, `True`/`False`, the decimal text of an integer, or a string itself |
| `Stats.StatsMap` | analyzer.py:19-40 | the dictionary `parse_log_stats` returns, empty when a step fails, one of the four `str()` calls included; `ParseLogStats` is proved equal to it and `EmptyExactlyOnFailure`, `TotalIsSum` and `CountPastDigitLimitGivesEmpty` characterise it |
| `Stats.ExtractCounts` | analyzer.py:22-36 | the counts and their sum once the assignment is found, the JSON parses, `[0][0]` is an object and the addition succeeds; each of them is a value `str()` can be applied to |
| `Stats.PrintedCounts` | analyzer.py:33-36 | once the counts are extracted and `str()` prints each of them, the dictionary holds their texts under the four keys |
| `Stats.TotalIsSum` | analyzer.py:29-36 | when `get` yields the integers `p`, `f` and `s` (a missing key yields 0) and `str()` can print them and their sum, the result maps `passed`, `failed` and `skipped` to their decimal texts and `total` to the text of `p + f + s` |
| `Stats.CountPastDigitLimitGivesEmpty` | analyzer.py:33-39 | with integer counts where one of them or their sum is past the 4300-digit limit (pass = fail = 9·10^4299 gives a 4301-digit sum), `str()` raises and the result is empty |
| `Stats.EmptyExactlyOnFailure` | analyzer.py:22-39 | the result is empty exactly when the assignment is missing, the JSON does not parse, `[0][0]` is not an object, the counts cannot be added, or a count or the total is an integer past the 4300-digit limit; no error escapes |
| `Stats.MixedCountsGiveEmpty` | analyzer.py:36-39 | a null count, or a text count beside a count that defaults to 0, makes the result empty |
| `Failures.IsStatusLabel` | analyzer.py:63 | the name upper-cases to a text starting with PASS, FAIL or SKIP; its properties are in `StatusLabelIgnoresCase` and `CollectedHasNoStatusLabels` |
| `Failures.LigatureCompletesPass` | analyzer.py:63 | a name such as "pasﬆ Login", whose fourth character is ﬅ or ﬆ, upper-cases to a text starting with PASS and is dropped |
| `Failures.StatusLabelIgnoresCase` | analyzer.py:63 | a name whose first four characters upper-case to PASS, FAIL or SKIP is dropped, whatever their case and whatever follows |
| `Failures.RecordOf` | analyzer.py:53-64 | a FAIL span yields a record exactly when its row exists, has both the name and the message cell, and the name is not a status label; the record holds that row's name and message |
| `Failures.Collected` | analyzer.py:53-64 | the records collected from the spans, in document order; there are never more records than FAIL spans |
| `Failures.CollectFailures` | analyzer.py:53-64 | the loop appends the records of the spans in document order |
| `Failures.CollectedFrom` | analyzer.py:53-64 | every collected record was produced by some FAIL span, which the lemma names |
| `Failures.CollectedHas` | analyzer.py:53-64 | the record of every usable FAIL span is collected |
| `Failures.CollectedIff` | analyzer.py:59-64 | a record is collected exactly when some FAIL span yields it: no status-labelled name is kept and no other complete row is lost |
| `Failures.CollectedHasNoStatusLabels` | analyzer.py:63-64 | no collected record's upper-cased name starts with PASS, FAIL or SKIP |
| `Failures.Dedup` | analyzer.py:69 | the deduplicated list is no longer than its input |
| `Failures.DedupCorrect` | analyzer.py:69 | the deduplicated list has no repeated (name, error) pair and holds exactly the pairs of its input |
| `Failures.DedupUniqueUpToOrder` | analyzer.py:69 | any two duplicate-free lists of the same pairs are permutations of each other, so the set's iteration order changes only the order |
| `Failures.ParseLogFailedDetails` | analyzer.py:42-70 | no table gives `[]`; otherwise the result is duplicate-free, free of status labels, and holds exactly the records some FAIL span yields |
| `Classifier.IsCriticalName` | analyzer.py:90-92 | a name is critical when one of the four critical names occurs in it; `CriticalNameInside` states it |
| `Classifier.AnyCritical` | analyzer.py:90-92 | some record has a critical name; `HasCriticalFailure` is proved equal to it and `AnyCriticalDependsOnlyOnRecords` states its independence of order |
| `Classifier.HasCriticalFailure` | analyzer.py:88-94 | `critical_tests_failed` is true exactly when the list is non-empty and some record's name contains one of the four critical names |
| `Classifier.AnyCriticalDependsOnlyOnRecords` | analyzer.py:88-94 | the critical flag depends only on which records are present, not on their order or repetition |
| `Classifier.CriticalNameInside` | analyzer.py:90-92 | any name with a critical name somewhere inside it is critical |
| `Classifier.Accuracy` | analyzer.py:82 | with `0 <= passed <= total` and `total > 0` the accuracy lies between 0 and 100 |
| `Classifier.AccuracyBelowThreshold` | analyzer.py:82 | `accuracy < 60` exactly when `total <= 0` or `passed * 100 < 60 * total` |
| `Classifier.Classify` | analyzer.py:96-102 | the if/elif chain: ESTAVEL exactly when `failed == 0 && total > 0`; otherwise CRITICO exactly when a critical test failed or the accuracy is below 60; otherwise INSTAVEL |
| `Classifier.ClassifyByCounts` | analyzer.py:96-102 | the verdict in integer terms: ESTAVEL iff `failed == 0 && total > 0`; otherwise CRITICO iff critical or `total <= 0` or `passed * 100 < 60 * total`; otherwise INSTAVEL |
| `Classifier.NoTestsIsCritico` | analyzer.py:82 | a run with `total <= 0` is never ESTAVEL and always CRITICO |
| `Classifier.NoFailuresIsEstavel` | analyzer.py:97-98 | with no failures and `total > 0` the verdict is ESTAVEL whatever the critical flag and accuracy |
| `Classifier.ThresholdBoundary` | analyzer.py:99-102 | exactly 60% with failures and no critical name is INSTAVEL; 59.9% is CRITICO |
| `Prompt.CountLines` | analyzer.py:104-109 | the four count lines of `prompt_data`; `DataBlock` begins with them |
| `Prompt.Entry` | analyzer.py:113 | the two lines of one failure record; `ListingHasEntry` places each listed record's entry in the listing |
| `Prompt.DataBlock` | analyzer.py:104-113 | `prompt_data` always begins with the count lines (total, passed, failed and the formatted accuracy) |
| `Prompt.Listed` | analyzer.py:112 | `[:20]` is a prefix of the list with at most 20 records, and the whole list when it is no longer than 20 |
| `Prompt.Listing` | analyzer.py:112-113 | the entries of the records in order, empty exactly when there are no records; `ListingAppend` and `ListingHasEntry` state its shape |
| `Prompt.BuildPromptData` | analyzer.py:104-113 | the `+=` loop produces the count lines followed, only when there are failures, by the details heading and the entries of the first 20 records in order |
| `Prompt.AppendEntries` | analyzer.py:112-113 | the `+=` loop leaves the text it started from followed by the entries of the records, in order |
| `Prompt.ListingAppend` | analyzer.py:112-113 | the listing of two lists one after the other is the two listings one after the other |
| `Prompt.ListingHasEntry` | analyzer.py:112-113 | every listed record has its entry in the listing |
| `Prompt.NoDetailsWithoutFailures` | analyzer.py:110 | without failures the data block is the count lines alone |
| `Prompt.DetailsListFirstTwenty` | analyzer.py:110-113 | with failures the data block carries the details heading and the entry of each of the first 20 records |
| `Prompt.TailIsDropped` | analyzer.py:112 | with more than 20 records the data block is the one the first 20 alone would give |
| `Prompt.LabelsIdentifyVerdict` | analyzer.py:127-137 | the three verdict labels are distinct, so the label in the prompt names exactly one verdict |
| `Prompt.VerdictLabel` | analyzer.py:127-136 | the build verdict the instructions ask for, one per verdict; `LabelsIdentifyVerdict` and `PromptCarriesDecision` state its use |
| `Prompt.ActionLabel` | analyzer.py:129-137 | the recommended action, one per verdict; `PromptCarriesDecision` places it, quoted, in the prompt |
| `Prompt.UserPrompt` | analyzer.py:117-159 | the optimistic template for ESTAVEL and the alert template otherwise, with the data block and the quoted labels in place; `PromptCarriesDecision` states what it contains |
| `Prompt.FullPrompt` | analyzer.py:161 | the user turn between the turn delimiters; `PromptCarriesDecision` states its frame |
| `Prompt.FramedPieces` | analyzer.py:161 | a text placed between a start and an end marker begins with the start, ends with the end and contains each piece in the middle |
| `Prompt.PromptCarriesDecision` | analyzer.py:117-161 | the full prompt begins with the user-turn marker, ends with the model-turn marker, and contains the data block and the quoted verdict and action labels of its verdict |
| `Report.LookupInt` | analyzer.py:79-81 | a missing key reads as 0 |
| `Report.ParseTally` | analyzer.py:78-84 | the counts are read exactly when each of `passed`, `failed` and `total` converts with `int()` |
| `Report.SummarizeWithAi` | analyzer.py:72-178 | guards in order (model missing, empty stats, non-integer counts), each with its fixed message; otherwise the model is called once with the verdict's prompt, and the report is the computed header plus the stripped text, or the error message with its detail |
| `Report.AnalyzeCounts` | analyzer.py:82-178 | after the guards, the model is called once with the prompt of the verdict; the report is the computed header plus the stripped text, or the error message with its detail |
| `Report.ComposePrompt` | analyzer.py:82-161 | the critical scan, the if/elif chain and the `+=` loop build exactly the prompt of the verdict the counts and records give |
| `Report.ExtractedCountsParse` | analyzer.py:29-36 | statistics extracted from integer counts `p`, `f`, `s` that `str()` can print, with a printable sum, are non-empty, pass the integer guard, and are read back as `passed = p`, `failed = f`, `total = p + f + s` |
| `Report.OverlongCountIsInvalid` | analyzer.py:79-84 | a `passed`, `failed` or `total` text with more than 4300 digits reaches the invalid-statistics guard |
| `Report.ParsedCountsPrint` | analyzer.py:79-81 | counts that pass the integer guard are within the 4300-digit limit, so the f-strings of the data block and the header never raise |
| `Report.VerdictOf` | analyzer.py:96-102 | the verdict in integer terms: ESTAVEL exactly when `failed == 0 && total > 0`; otherwise CRITICO exactly when a critical test failed, `total <= 0` or `passed * 100 < 60 * total` |
| `Report.PromptFor` | analyzer.py:104-161 | the prompt begins with the user-turn marker and contains the data block and the quoted verdict and action labels of the verdict |
| `Report.BooleanCountIsInvalid` | analyzer.py:79-84 | a boolean `pass` count reaches the invalid-statistics guard, when the other counts are numbers `str()` can print |
| `Report.Header` | analyzer.py:174 | `summary_header` from the computed counts and the formatted accuracy; `ReportLeadsWithCounts` states what a report built on it shows |
| `Report.ReportLeadsWithCounts` | analyzer.py:174-176 | a successful report begins with the execution-summary title and the computed total, and contains the computed passed and failed counts on their own lines |
| `Report.TallyFromTexts` | analyzer.py:79-81 | statistics whose `passed`, `failed` and `total` are decimal texts within the 4300-digit limit read back as those integers |
| `Report.DecimalTextsParse` | analyzer.py:79-84 | a dictionary holding the decimal texts of `p`, `f`, `s` and `p + f + s`, with `p`, `f` and the total within the 4300-digit limit, is non-empty and reads back as `passed = p`, `failed = f`, `total = p + f + s` |
| `Report.DecimalStatsParse` | analyzer.py:79-81 | the four-key dictionary of decimal texts within the 4300-digit limit reads back as the same counts |
| `Report.AllPassedIsStable` | analyzer.py:96-98 | ten tests all passed and no failures: accuracy 100 and verdict ESTAVEL |
| `Report.GoogleAccountFailureIsCritical` | analyzer.py:88-100 | a failing test with "Conta Google" anywhere in its name makes the verdict CRITICO, unless the counts alone make it ESTAVEL (`failed == 0 && total > 0`) |
| `Report.OrdinaryFailuresAreUnstable` | analyzer.py:99-102 | 8 of 10 passed with no critical name is INSTAVEL |
| `Report.MissingStatisticsShortCircuit` | analyzer.py:72-76 | end to end: when no counts can be extracted, `parse_log_stats` followed by `summarize_with_ai` gives the no-statistics message, whatever the loaded model and the records (the Flask handler, app.py:26-27, already stops before `summarize_with_ai` with a message of its own) |

## Left out

- Loading the model at import time (analyzer.py:10-17) is left out. It is reduced to the `llm` parameter being `None` or not.
- The llama.cpp call and its sampling constants (`max_tokens`, `stop`, `temperature`, `repeat_penalty`) are a foreign library. The call is the `llm` function parameter. Exceptions raised while the response is indexed count as a failed generation.
- The internals of `re.search`, `json.loads` and BeautifulSoup (`find`, `find_all`, `find_parent`, `get_text(strip=True)`) are library parsing. The model starts from their results: a `Blob`, and the FAIL spans with the texts of their cells.
- The model's JSON values have no floats. A count with a fraction or an exponent is not modelled.
- `Stats.PyAdd`: Python concatenates three JSON arrays given as counts and stores their `repr`. The model treats that as a failed addition and returns the empty map. The source returns a non-empty map, which `summarize_with_ai` then rejects as invalid statistics.
- `Failures.ParseLogFailedDetails`: an exception raised by BeautifulSoup in the middle of the loop is not modelled. The source would return the records collected so far.
- `Failures.Dedup`: Python's set iteration order is not modelled. The model keeps first occurrences. Which 20 records the prompt lists, when more than 20 distinct ones exist, depends on that order in the source.
- `PyText.UpperChar`: upper-casing covers the ASCII letters and ß, ı, ſ, ﬅ and ﬆ, which Python maps onto ASCII letters. These are the only characters whose upper case can form part of a PASS, FAIL or SKIP prefix, so the prefix test agrees with Python's. Every other character stays unchanged, so `Upper` differs from Python's `upper()` on other text, which the analyzer never upper-cases.
- `PyText.Upper`: the bound "at most twice as long" belongs to the model's case table. Python's `upper()` can triple a character ('ﬃ' gives "FFI"), and the model leaves such characters unchanged.
- `PyText.ParseInt`: `int()` also accepts non-ASCII decimal digits (such as Arabic-Indic digits). The model rejects them.
- `Classifier.Accuracy`, `Report.SummarizeWithAi`, `Report.AnalyzeCounts`: `passed / total` is a float division. When the quotient is beyond the float range (for example pass = 10**400, fail = 1 - 10**400, skip = 0, so total = 1) Python raises OverflowError, which `except (ValueError, TypeError)` does not catch, so the exception escapes `summarize_with_ai`. The model's accuracy is an exact rational and it returns a report for every tally.
- `Report.SummarizeWithAi`: the statistics dictionary holds strings, as `parse_log_stats` produces. A caller that passes integers directly is not modelled.
- The `:.1f` formatting of the accuracy (analyzer.py:108 and analyzer.py:174) is left out, and so is floating-point rounding. The formatted text is the `formatAccuracy` parameter, and the 60% comparison is exact.
- The Portuguese instruction prose (analyzer.py:118-159) is the `Templates` parameter. This includes the table that maps test-name fragments to user impact, which the language model is asked to apply. It carries no logic.
- `print` logging throughout is left out.
- `app.py` is not part of this model. It handles Flask requests, checks upload file names, stops with its own message when `parse_log_stats` returns an empty dictionary (app.py:26-27), times the call and renders templates.

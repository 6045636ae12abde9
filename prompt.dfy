/**
 * The prompt built in `summarize_with_ai` (analyzer.py): the data block with
 * the counts and at most twenty failure records, the instructions chosen by
 * the verdict, and the turn delimiters of the chat format.
 */
module Prompt {
  import opened PyText
  import opened Failures
  import opened Classifier

  /** At most this many failure records are listed. */
  const MaxListed := 20

  const DetailsHeading := "\n### Detalhes das Falhas:\n"

  /** The lines of the data block that carry the counts; `accuracyText` is the accuracy
      as printed with one decimal place. */
  function CountLines(total: int, passed: int, failed: int, accuracyText: string): string {
    "\n- Total de Casos de Teste: " + IntToString(total)
    + "\n- Aprovados: " + IntToString(passed)
    + "\n- Reprovados: " + IntToString(failed)
    + "\n- Acurácia: " + accuracyText + "%\n"
  }

  /** The two lines listing one failure record. */
  function Entry(t: FailedTest): string {
    "- Teste: " + t.name + "\n  - Erro: " + t.error + "\n"
  }

  /** The entries of the records, in order. */
  function Listing(records: seq<FailedTest>): (r: string)
    ensures r == [] <==> records == []
  {
    if records == [] then "" else Listing(records[..|records| - 1]) + Entry(records[|records| - 1])
  }

  /** `failed_tests_details[:20]`. */
  function Listed(failures: seq<FailedTest>): (r: seq<FailedTest>)
    ensures |r| <= MaxListed && r <= failures
    ensures |failures| <= MaxListed ==> r == failures
  {
    if |failures| <= MaxListed then failures else failures[..MaxListed]
  }

  /** `prompt_data`: the counts, then the details section only when there are failures. */
  function DataBlock(total: int, passed: int, failed: int, accuracyText: string,
                     failures: seq<FailedTest>): (r: string)
    ensures StartsWith(r, CountLines(total, passed, failed, accuracyText))
  {
    CountLines(total, passed, failed, accuracyText)
    + if failures == [] then "" else DetailsHeading + Listing(Listed(failures))
  }

  /** `prompt_data`: the count lines, then, only when there are failures, the heading and
      the entries of the first twenty records. */
  method BuildPromptData(total: int, passed: int, failed: int, accuracyText: string,
                         failures: seq<FailedTest>) returns (promptData: string)
    ensures promptData == DataBlock(total, passed, failed, accuracyText, failures)
  {
    promptData := CountLines(total, passed, failed, accuracyText);
    if |failures| > 0 {
      ghost var counts := promptData;
      promptData := promptData + DetailsHeading;
      promptData := AppendEntries(promptData, Listed(failures));
      ConcatAssoc(counts, DetailsHeading, Listing(Listed(failures)));
    }
  }

  /** The loop that extends `prompt_data` entry by entry. */
  method AppendEntries(head: string, listed: seq<FailedTest>) returns (promptData: string)
    ensures promptData == head + Listing(listed)
  {
    promptData := head;
    for i := 0 to |listed|
      invariant promptData == head + Listing(listed[..i])
    {
      AppendEntry(listed, i);
      ConcatAssoc(head, Listing(listed[..i]), Entry(listed[i]));
      promptData := promptData + Entry(listed[i]);
    }
    assert listed[..|listed|] == listed;
  }

  lemma ConcatAssoc(a: string, b: string, c: string)
    ensures a + b + c == a + (b + c)
  {
  }

  lemma AppendEntry(records: seq<FailedTest>, i: nat)
    requires i < |records|
    ensures Listing(records[..i + 1]) == Listing(records[..i]) + Entry(records[i])
  {
    assert records[..i + 1][..i] == records[..i];
  }

  /** Listing a concatenation lists the two parts one after the other. */
  lemma {:induction false} ListingAppend(a: seq<FailedTest>, b: seq<FailedTest>)
    ensures Listing(a + b) == Listing(a) + Listing(b)
    decreases |b|
  {
    if b != [] {
      var init := b[..|b| - 1];
      assert (a + b)[..|a + b| - 1] == a + init;
      assert (a + b)[|a + b| - 1] == b[|b| - 1];
      ListingAppend(a, init);
      assert Listing(b) == Listing(init) + Entry(b[|b| - 1]);
    } else {
      assert a + b == a;
    }
  }

  /** Every record of the list has its entry in the listing. */
  lemma ListingHasEntry(records: seq<FailedTest>, i: nat)
    requires i < |records|
    ensures Contains(Listing(records), Entry(records[i]))
  {
    var upto, after := records[..i + 1], records[i + 1..];
    assert records == upto + after;
    ListingAppend(upto, after);
    AppendEntry(records, i);
    ContainsInfix(Listing(records[..i]), Entry(records[i]), Listing(after));
  }

  /** Without failures the data block is the counts alone. */
  lemma NoDetailsWithoutFailures(total: int, passed: int, failed: int, accuracyText: string)
    ensures DataBlock(total, passed, failed, accuracyText, []) == CountLines(total, passed, failed, accuracyText)
  {
  }

  /** With failures the block has the details heading and the entry of each of the first
      twenty records. */
  lemma DetailsListFirstTwenty(total: int, passed: int, failed: int, accuracyText: string,
                               failures: seq<FailedTest>, i: nat)
    requires i < |failures| && i < MaxListed
    ensures var block := DataBlock(total, passed, failed, accuracyText, failures);
            Contains(block, DetailsHeading) && Contains(block, Entry(failures[i]))
  {
    var counts := CountLines(total, passed, failed, accuracyText);
    var listing := Listing(Listed(failures));
    assert DataBlock(total, passed, failed, accuracyText, failures) == counts + DetailsHeading + listing;
    ContainsInfix(counts, DetailsHeading, listing);
    assert Listed(failures)[i] == failures[i];
    ListingHasEntry(Listed(failures), i);
    ContainsExtend(counts + DetailsHeading, listing, "", Entry(failures[i]));
    assert counts + DetailsHeading + listing + "" == counts + DetailsHeading + listing;
  }

  /** Records past the twentieth are dropped without a trace: the block is the one the
      first twenty alone would give. */
  lemma TailIsDropped(total: int, passed: int, failed: int, accuracyText: string,
                      failures: seq<FailedTest>)
    requires |failures| > MaxListed
    ensures DataBlock(total, passed, failed, accuracyText, failures)
            == DataBlock(total, passed, failed, accuracyText, failures[..MaxListed])
  {
  }

  /** The instruction prose around the data block. Its wording carries no logic and is a
      parameter of the model: an opening (for the alert case, with the impact mapping),
      the text before the verdict label, the text before the action label, and a closing. */
  datatype Prose = Prose(opening: string, beforeVerdict: string, beforeAction: string, closing: string)

  /** The optimistic template (stable builds) and the alert template (the other two). */
  datatype Templates = Templates(optimistic: Prose, alert: Prose)

  /** The verdict the instructions ask the model to declare. */
  function VerdictLabel(v: Verdict): string {
    match v
    case Estavel => "Build Estável"
    case Instavel => "Build Instável com Regressões"
    case Critico => "Build Inaceitável para Lançamento"
  }

  /** The action the instructions ask the model to recommend. */
  function ActionLabel(v: Verdict): string {
    match v
    case Estavel => "Aprovar para a próxima fase de testes"
    case Instavel => "Investigação prioritária das falhas é necessária. A build pode seguir para testes internos com ressalvas."
    case Critico => "Bloquear o ciclo de release imediatamente. A correção das falhas críticas é obrigatória."
  }

  /** Each verdict has its own label, so the prompt names one verdict. */
  lemma LabelsIdentifyVerdict(v: Verdict, w: Verdict)
    ensures VerdictLabel(v) == VerdictLabel(w) <==> v == w
  {
    assert VerdictLabel(Estavel)[6] == 'E' && VerdictLabel(Instavel)[8] == 's' && VerdictLabel(Critico)[8] == 'a';
  }

  function Quoted(s: string): string {
    "\"" + s + "\""
  }

  /** `user_prompt`: the template chosen by the verdict, with the data block and the two
      quoted labels in place. */
  function UserPrompt(v: Verdict, data: string, templates: Templates): string {
    var prose := if v == Estavel then templates.optimistic else templates.alert;
    prose.opening + data + prose.beforeVerdict + Quoted(VerdictLabel(v))
    + prose.beforeAction + Quoted(ActionLabel(v)) + prose.closing
  }

  const TurnStart := "<start_of_turn>user\n"
  const TurnEnd := "<end_of_turn>\n<start_of_turn>model"

  /** `full_prompt`: the user turn, closed, followed by the opening of the model's turn. */
  function FullPrompt(userPrompt: string): string {
    TurnStart + userPrompt + TurnEnd
  }

  /** The pieces of a framed prompt occur in it. */
  lemma FramedPieces(start: string, opening: string, data: string, beforeVerdict: string, verdict: string,
                     beforeAction: string, action: string, closing: string, end: string)
    ensures var prompt := start + (opening + data + beforeVerdict + verdict + beforeAction + action + closing) + end;
            && StartsWith(prompt, start)
            && prompt[|prompt| - |end|..] == end
            && Contains(prompt, data) && Contains(prompt, verdict) && Contains(prompt, action)
  {
    var prompt := start + (opening + data + beforeVerdict + verdict + beforeAction + action + closing) + end;
    assert prompt == (start + opening) + data + (beforeVerdict + verdict + beforeAction + action + closing + end);
    ContainsInfix(start + opening, data, beforeVerdict + verdict + beforeAction + action + closing + end);
    assert prompt == (start + opening + data + beforeVerdict) + verdict + (beforeAction + action + closing + end);
    ContainsInfix(start + opening + data + beforeVerdict, verdict, beforeAction + action + closing + end);
    assert prompt == (start + opening + data + beforeVerdict + verdict + beforeAction) + action + (closing + end);
    ContainsInfix(start + opening + data + beforeVerdict + verdict + beforeAction, action, closing + end);
  }

  /** The prompt is framed by the turn delimiters and carries the data block and the labels
      of its verdict. */
  lemma PromptCarriesDecision(v: Verdict, data: string, templates: Templates)
    ensures var prompt := FullPrompt(UserPrompt(v, data, templates));
            && StartsWith(prompt, TurnStart)
            && prompt[|prompt| - |TurnEnd|..] == TurnEnd
            && Contains(prompt, data)
            && Contains(prompt, Quoted(VerdictLabel(v)))
            && Contains(prompt, Quoted(ActionLabel(v)))
  {
    var prose := if v == Estavel then templates.optimistic else templates.alert;
    FramedPieces(TurnStart, prose.opening, data, prose.beforeVerdict, Quoted(VerdictLabel(v)),
                 prose.beforeAction, Quoted(ActionLabel(v)), prose.closing, TurnEnd);
  }
}

/**
 * The language-model revisers of `src/reviser.py`.
 *
 * `revise` makes two oracle calls in order: a free-text critique of the text,
 * then a structured `LLMRevision` request whose prompt extends the critique
 * prompt with the critique. It returns the `revised_text` of the second
 * answer; when that answer is absent the source reads an attribute of `None`
 * and raises, which the model returns as an explicit error.
 */
module Reviser {
  import opened Wrappers
  import opened Oracle

  /** The structured answer of a revision request. */
  datatype LLMRevision = LLMRevision(reasoning: string, revisedText: string)

  /** The concrete revisers; they are stateless and differ only in their request wording. */
  datatype LLMReviser = LLMDeceptionReviser | LLMPowerSeekingReviser

  /** The free-text oracle: prompt in, text or nothing out. */
  type CritiqueOracle = string -> Option<string>

  /** The structured oracle for revisions. */
  type RevisionOracle = string -> Option<LLMRevision>

  /** `'NoneType' object has no attribute 'revised_text'`. */
  datatype ReviseError = AttributeErrorOnNone

  /** What one `revise` call produces: the revised text or the error, and the requests made. */
  datatype Revised = Revised(result: Result<string, ReviseError>, calls: seq<Call>)

  // The fixed parts of the two prompts that give them their structure.
  const AssistantLabel: string := "Assistant: "
  const CritiqueRequestLabel: string := "\n\nCritique Request: "
  const CritiqueLabel: string := "\n\nCritique: "
  const RevisionRequestLabel: string := "\n\nRevision Request: "

  // The wording of the two requests of each reviser is left open; every
  // property below holds for any wording.
  const DeceptionCritiqueRequest: string
  const DeceptionRevisionRequest: string
  const PowerSeekingCritiqueRequest: string
  const PowerSeekingRevisionRequest: string

  function CritiqueRequest(r: LLMReviser): string
  {
    match r
    case LLMDeceptionReviser => DeceptionCritiqueRequest
    case LLMPowerSeekingReviser => PowerSeekingCritiqueRequest
  }

  function RevisionRequest(r: LLMReviser): string
  {
    match r
    case LLMDeceptionReviser => DeceptionRevisionRequest
    case LLMPowerSeekingReviser => PowerSeekingRevisionRequest
  }

  /** What follows the text in the critique prompt. */
  function CritiqueTail(r: LLMReviser): string
  {
    CritiqueRequestLabel + CritiqueRequest(r)
  }

  /** `f"Assistant: {text}\n\nCritique Request: ..."` */
  function CritiquePrompt(r: LLMReviser, text: string): string
  {
    AssistantLabel + text + CritiqueTail(r)
  }

  /** How an f-string renders the critique: the text itself, or `None` when it is absent. */
  function Rendered(critique: Option<string>): string
  {
    match critique
    case Some(c) => c
    case None => "None"
  }

  /** What follows the critique in the revision prompt. */
  function RevisionTail(r: LLMReviser): string
  {
    RevisionRequestLabel + RevisionRequest(r)
  }

  /** `f"{critique_prompt}\n\nCritique: {critique}\n\nRevision Request: ..."` */
  function RevisionPrompt(r: LLMReviser, text: string, critique: Option<string>): string
  {
    CritiquePrompt(r, text) + CritiqueLabel + Rendered(critique) + RevisionTail(r)
  }

  /**
   * `revise`: a free-text call on the critique prompt, then a structured call on
   * the revision prompt built from its answer; the `revised_text` of the second
   * answer, or the attribute error when it is absent.
   */
  function Revise(r: LLMReviser, critic: CritiqueOracle, reviser: RevisionOracle, text: string): (res: Revised)
    ensures var revisionPrompt := RevisionPrompt(r, text, critic(CritiquePrompt(r, text)));
            && res.calls == [Call(CritiquePrompt(r, text), None), Call(revisionPrompt, Some(LLMRevisionSchema))]
            && (res.result.Success? <==> reviser(revisionPrompt).Some?)
            && (res.result.Success? ==> res.result.value == reviser(revisionPrompt).value.revisedText)
            && (res.result.Failure? ==> res.result.error == AttributeErrorOnNone)
  {
    var critiquePrompt := CritiquePrompt(r, text);
    var critique := critic(critiquePrompt);
    var revisionPrompt := RevisionPrompt(r, text, critique);
    var revision := reviser(revisionPrompt);
    var calls := [Call(critiquePrompt, None), Call(revisionPrompt, Some(LLMRevisionSchema))];
    match revision
    case Some(answer) => Revised(Success(answer.revisedText), calls)
    case None => Revised(Failure(AttributeErrorOnNone), calls)
  }

  /** The reviser as the pipeline uses it: text to revised text, or nothing when it raised. */
  function ReviseFn(r: LLMReviser, critic: CritiqueOracle, reviser: RevisionOracle): string -> Option<string>
  {
    text => Revise(r, critic, reviser, text).result.ToOption()
  }

  /** Applying the pipeline form of a reviser is one `revise` call, with the error as nothing. */
  lemma ReviseFnApplies(r: LLMReviser, critic: CritiqueOracle, reviser: RevisionOracle, text: string)
    ensures ReviseFn(r, critic, reviser)(text) == Revise(r, critic, reviser, text).result.ToOption()
  {
  }

  /** Reads the text back out of a critique prompt. */
  function TextOfCritiquePrompt(r: LLMReviser, prompt: string): (text: string)
    requires |AssistantLabel| + |CritiqueTail(r)| <= |prompt|
    ensures |text| == |prompt| - |AssistantLabel| - |CritiqueTail(r)|
  {
    prompt[|AssistantLabel|..|prompt| - |CritiqueTail(r)|]
  }

  /**
   * The critique prompt starts with `Assistant: `, the text verbatim and the
   * critique-request label, and the text can be read back from it.
   */
  lemma CritiquePromptQuotesText(r: LLMReviser, text: string)
    ensures AssistantLabel + text + CritiqueRequestLabel <= CritiquePrompt(r, text)
    ensures |AssistantLabel| + |CritiqueTail(r)| <= |CritiquePrompt(r, text)|
    ensures TextOfCritiquePrompt(r, CritiquePrompt(r, text)) == text
  {
    var p := CritiquePrompt(r, text);
    assert p == (AssistantLabel + text + CritiqueRequestLabel) + CritiqueRequest(r);
    assert p == AssistantLabel + (text + CritiqueTail(r));
    assert p[|AssistantLabel|..] == text + CritiqueTail(r);
    assert p[|AssistantLabel|..|p| - |CritiqueTail(r)|] == (text + CritiqueTail(r))[..|text|];
  }

  /** Distinct texts give distinct critique prompts. */
  lemma CritiquePromptInjective(r: LLMReviser, t1: string, t2: string)
    requires CritiquePrompt(r, t1) == CritiquePrompt(r, t2)
    ensures t1 == t2
  {
    CritiquePromptQuotesText(r, t1);
    CritiquePromptQuotesText(r, t2);
  }

  /**
   * The revision prompt is the critique prompt, then `\n\nCritique: ` and the
   * rendered critique, then the revision request.
   */
  lemma RevisionPromptExtendsCritiquePrompt(r: LLMReviser, text: string, critique: Option<string>)
    ensures CritiquePrompt(r, text) + CritiqueLabel + Rendered(critique) <= RevisionPrompt(r, text, critique)
    ensures CritiquePrompt(r, text) <= RevisionPrompt(r, text, critique)
  {
    var cp := CritiquePrompt(r, text);
    var head := cp + CritiqueLabel + Rendered(critique);
    var p := RevisionPrompt(r, text, critique);
    assert p == head + RevisionTail(r);
    assert p[..|head|] == head;
    assert head[..|cp|] == cp;
    assert p[..|cp|] == cp;
  }

  /**
   * An absent critique is rendered as the word `None`: the second prompt is the
   * same as for a critique that literally says `None`, and it is still sent.
   */
  lemma AbsentCritiqueStillRevises(r: LLMReviser, reviser: RevisionOracle, text: string)
    ensures RevisionPrompt(r, text, None) == RevisionPrompt(r, text, Some("None"))
    ensures Revise(r, _ => None, reviser, text) == Revise(r, _ => Some("None"), reviser, text)
    ensures |Revise(r, _ => None, reviser, text).calls| == 2
  {
  }

  /** The critique reaches the revision prompt verbatim: different critiques give different prompts. */
  lemma RevisionPromptDeterminesCritique(r: LLMReviser, text: string, c1: string, c2: string)
    requires RevisionPrompt(r, text, Some(c1)) == RevisionPrompt(r, text, Some(c2))
    ensures c1 == c2
  {
    var cp := CritiquePrompt(r, text) + CritiqueLabel;
    var p1 := RevisionPrompt(r, text, Some(c1));
    assert p1 == cp + c1 + RevisionTail(r);
    assert c1 == p1[|cp|..|p1| - |RevisionTail(r)|];
    var p2 := RevisionPrompt(r, text, Some(c2));
    assert p2 == cp + c2 + RevisionTail(r);
    assert c2 == p2[|cp|..|p2| - |RevisionTail(r)|];
  }
}

/**
 * The language-model assessors of `src/assessment.py`.
 *
 * Each assessor sends its fixed filter prompt followed by the text to the
 * oracle, asking for a `ProbabilityEstimation`, and fails open: an absent
 * answer becomes the score 0, a present one is returned as it is, unclamped.
 */
module Assessment {
  import opened Wrappers
  import opened Oracle

  /** The structured answer of an assessment request. */
  datatype ProbabilityEstimation = ProbabilityEstimation(reasoning: string, estimate: int)

  /** The concrete assessors; they are stateless and differ only in their prompt. */
  datatype Assessor = LLMDeceptionAssessment | LLMPowerSeekingAssessment

  /** The oracle as an assessor sees it: prompt in, estimation or nothing out. */
  type EstimationOracle = string -> Option<ProbabilityEstimation>

  /** What one `assess` call produces: the score and the oracle requests it made. */
  datatype Assessed = Assessed(score: int, calls: seq<Call>)

  // The class-level FILTER_PROMPT texts. Their wording is left open: only the
  // way they are concatenated with the input matters, so every property below
  // holds for any template.
  const DeceptionFilterPrompt: string
  const PowerSeekingFilterPrompt: string

  /** The class-level FILTER_PROMPT of each assessor. */
  function FilterPrompt(a: Assessor): string
  {
    match a
    case LLMDeceptionAssessment => DeceptionFilterPrompt
    case LLMPowerSeekingAssessment => PowerSeekingFilterPrompt
  }

  /** The prompt sent for `text`: the template, then the text verbatim. */
  function AssessPrompt(a: Assessor, text: string): (p: string)
    ensures |p| == |FilterPrompt(a)| + |text|
    ensures p[..|FilterPrompt(a)|] == FilterPrompt(a)
    ensures p[|FilterPrompt(a)|..] == text
  {
    FilterPrompt(a) + text
  }

  /**
   * `assess`: one structured oracle call on the prompt; the estimate of the
   * answer if there is one, otherwise 0.
   */
  function Assess(a: Assessor, query: EstimationOracle, text: string): (r: Assessed)
    ensures r.calls == [Call(AssessPrompt(a, text), Some(ProbabilityEstimationSchema))]
    ensures query(AssessPrompt(a, text)).None? ==> r.score == 0
    ensures query(AssessPrompt(a, text)).Some? ==> r.score == query(AssessPrompt(a, text)).value.estimate
  {
    var prompt := AssessPrompt(a, text);
    var result := query(prompt);
    Assessed(if result.Some? then result.value.estimate else 0, [Call(prompt, Some(ProbabilityEstimationSchema))])
  }

  /** The assessor as the pipeline uses it: text to score. */
  function AssessFn(a: Assessor, query: EstimationOracle): string -> int
  {
    text => Assess(a, query, text).score
  }

  /** Applying the pipeline form of an assessor is one `assess` call. */
  lemma AssessFnApplies(a: Assessor, query: EstimationOracle, text: string)
    ensures AssessFn(a, query)(text) == Assess(a, query, text).score
  {
  }

  /**
   * The prompt determines the text: two texts yielding the same prompt are
   * equal, so the oracle always sees exactly the input.
   */
  lemma PromptDeterminesText(a: Assessor, t1: string, t2: string)
    requires AssessPrompt(a, t1) == AssessPrompt(a, t2)
    ensures t1 == t2
  {
    assert t1 == AssessPrompt(a, t1)[|FilterPrompt(a)|..];
  }

  /**
   * Fail-open: an absent answer gives exactly the score of a genuine answer of 0,
   * so the caller cannot tell them apart.
   */
  lemma AbsentAnswerLooksSafe(a: Assessor, text: string, reasoning: string)
    ensures Assess(a, _ => None, text).score == Assess(a, _ => Some(ProbabilityEstimation(reasoning, 0)), text).score == 0
  {
  }

  /** The score lies in [0, 100] exactly when the oracle's estimate does (or there is none). */
  lemma ScoreInRangeIff(a: Assessor, query: EstimationOracle, text: string)
    ensures var answer := query(AssessPrompt(a, text));
            0 <= Assess(a, query, text).score <= 100
            <==> (answer.None? || 0 <= answer.value.estimate <= 100)
  {
  }

  /** No clamping: any estimate the oracle returns is passed through, e.g. 150 or -7. */
  lemma ScoreIsUnclamped(a: Assessor, text: string, estimate: int)
    ensures Assess(a, _ => Some(ProbabilityEstimation("", estimate)), text).score == estimate
  {
  }

  /**
   * Both assessors have the same shape: the score depends on nothing but the
   * oracle's answer to the assessor's own template followed by the text.
   */
  lemma ScoreDependsOnlyOnAnswer(a: Assessor, q1: EstimationOracle, q2: EstimationOracle, t1: string, t2: string)
    requires q1(AssessPrompt(a, t1)) == q2(AssessPrompt(a, t2))
    ensures Assess(a, q1, t1).score == Assess(a, q2, t2).score
  {
  }
}

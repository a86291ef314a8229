/**
 * The observable contract of the language-model client (`query_llm`).
 *
 * The client itself (network, pricing, logging, exception swallowing) is not
 * modelled: every caller receives the oracle as a function from prompt to an
 * optional answer, where `None` is what the client returns after any failure.
 * What the model does keep is the sequence of requests a caller issues, so that
 * the number and order of calls can be stated.
 */
module Oracle {
  import opened Wrappers

  /** The structured response formats a caller can request. */
  datatype Schema = ProbabilityEstimationSchema | LLMRevisionSchema

  /** One request to the oracle: the prompt and, for a structured call, the requested schema. */
  datatype Call = Call(prompt: string, schema: Option<Schema>)

}

# Dataset cleaning pipeline: a Dafny model

This project models the core of a dataset-cleaning tool. The tool scores every
record of a line-delimited JSON dataset with a language-model judge. It then
removes the record, revises it and keeps it, or keeps it unchanged, and writes
the results to two append-only output files.

Modules, one per source component:

- `Wrappers` (`wrappers.dfy`): `Option` and `Result`.
- `Json` (`json.dfy`): parsed JSON values. A record (`Record`) is a map from
  field names to values.
- `Oracle` (`oracle.dfy`): the observable contract of the language-model
  client. A request is a prompt plus an optional response schema. The answer
  is a value or nothing, because the client turns every failure into `None`.
  Each assessor and reviser receives the oracle as a function parameter. It
  returns the list of requests it made, so the number and order of calls are
  part of its contract.
- `Assessment` (`assessment.dfy`): the two LLM assessors. An assessor sends its
  template followed by the text and fails open: a missing answer gives 0, and
  a present answer gives its estimate, unclamped.
- `Reviser` (`reviser.dfy`): the two LLM revisers. A reviser asks for a
  free-text critique, then for a structured revision whose prompt extends the
  critique prompt. A missing revision answer is an explicit error
  (`AttributeErrorOnNone`), as in the source, which reads an attribute of `None`.
- `Pipeline` (`pipeline.dfy`): `clean_data`.
  - `Process` is the pure specification of one record.
  - `RoutedAs`, `KeptOf` and `RemovedOf` specify a run.
  - `OutputFile` is an append-only file.
  - `CleanData` is the imperative loop. It keeps two batches of local records,
    flushes each one at 1000 records and flushes the remainders at the end.
  - An exception stops a run as `Aborted`. The files then keep only what was
    already flushed (`Durable`), and the records still in the batches are lost.

The assessor and reviser of `clean_data` are function parameters
(`string -> int`, `string -> Option<string>`). `Assessment.AssessFn` and
`Reviser.ReviseFn` give the LLM variants in that form.
`Pipeline.OracleOutageKeepsRecord` is stated for a pipeline whose assessor is
`AssessFn`. `Pipeline.AbsentRevisionStopsRun` is stated for any reviser that
answers like `revise` at the record, which `ReviseFn` does by
`Reviser.ReviseFnApplies`.

Two behaviours of the code are worth stating explicitly:
- The docstrings of `assess` promise "an integer between 0 and 100"
  (src/assessment.py:10-11, 85 and 100), but nothing clamps the oracle's
  estimate. `Assessment.ScoreInRangeIff` and `Assessment.ScoreIsUnclamped`
  state what the code does.
- When the revision call returns nothing, `revise` reads `revised_text` off
  `None` and raises (src/reviser.py:27 and 38). This exception propagates out of
  `clean_data`, so the model stops the run with `RevisionFailed`.

## Model

| member | source | states |
|---|---|---|
| Assessment.FilterPrompt | src/assessment.py:20-81 | each assessor's class-level `FILTER_PROMPT`; its wording is left open |
| Assessment.AssessPrompt | src/assessment.py:88 | the prompt is the template followed by the text: the template is a prefix and the input text is the verbatim suffix |
| Assessment.Assess | src/assessment.py:82-90 | exactly one oracle call, structured as `ProbabilityEstimation`, on template + text; no answer gives 0; an answer gives its estimate |
| Assessment.PromptDeterminesText | src/assessment.py:88 | different texts give different prompts, so the oracle sees exactly the input |
| Assessment.AbsentAnswerLooksSafe | src/assessment.py:90 | fail-open: a missing answer scores exactly like a genuine estimate of 0 |
| Assessment.ScoreInRangeIff | src/assessment.py:85-90 | the score is in [0, 100] if and only if the oracle's estimate is (or there is no answer) |
| Assessment.ScoreIsUnclamped | src/assessment.py:90 | any estimate, including one outside [0, 100], is returned unchanged |
| Assessment.ScoreDependsOnlyOnAnswer | src/assessment.py:97-105 | both assessors have one shape: the score is a function of the oracle's answer to the assessor's template + text alone |
| Assessment.AssessFn | src/assessment.py:82-90 | an LLM assessor in the pipeline's form: text to score |
| Assessment.AssessFnApplies | src/assessment.py:82-90 | applying that form to a text is exactly one `assess` call, with its score |
| Reviser.CritiquePrompt | src/reviser.py:23 | `Assistant: `, the text, `\n\nCritique Request: ` and the reviser's request; the same shape at src/reviser.py:34 |
| Reviser.Rendered | src/reviser.py:25 | how the f-string renders the critique: its text, or `None` when the call returned nothing |
| Reviser.RevisionPrompt | src/reviser.py:25 | the critique prompt, `\n\nCritique: `, the rendered critique, `\n\nRevision Request: ` and the request; the same shape at src/reviser.py:36 |
| Reviser.Revise | src/reviser.py:19-27 | two calls in order: free text on the critique prompt, then `LLMRevision` on the revision prompt built from that answer; the result is the answer's `revised_text`, or the attribute error when the answer is absent |
| Reviser.ReviseFn | src/reviser.py:19-27 | an LLM reviser in the pipeline's form: text to revised text, or nothing when `revise` raised |
| Reviser.ReviseFnApplies | src/reviser.py:19-27 | applying that form to a text is exactly one `revise` call, with its error as nothing |
| Reviser.CritiquePromptQuotesText | src/reviser.py:23 | the critique prompt starts with `Assistant: `, the text verbatim and `\n\nCritique Request: `; the text can be read back from it |
| Reviser.CritiquePromptInjective | src/reviser.py:34 | different texts give different critique prompts |
| Reviser.RevisionPromptExtendsCritiquePrompt | src/reviser.py:25 | the revision prompt starts with the critique prompt, then `\n\nCritique: ` and the rendered critique |
| Reviser.AbsentCritiqueStillRevises | src/reviser.py:24-27 | a missing critique is rendered as `None`, exactly like a critique that says `None`, and the second call still happens |
| Reviser.RevisionPromptDeterminesCritique | src/reviser.py:36 | the critique is embedded verbatim: different critiques give different revision prompts |
| Pipeline.Process | src/clean_data.py:30-41 | what one record becomes. A missing `text` fails; so does a non-string `text`, and the assessor's `TypeError` stands for that. Otherwise the record gets `estimate` and is removed, revised and kept, or kept by its band; a failed revision fails. The lemmas below state its properties |
| Pipeline.BandOf | src/clean_data.py:34-41 | removal exactly when the score is above 80, revision exactly when it is in (50, 80], keeping exactly at or below 50 |
| Pipeline.BandBoundaries | src/clean_data.py:67-68 | 81 is removed, 80 is revised, 51 is revised, 50 is kept |
| Pipeline.BandMonotone | src/clean_data.py:34-41 | a higher score never lands in a milder band |
| Pipeline.ProcessRoutesByScore | src/clean_data.py:31-41 | a record goes to the removed output if and only if its score is above 80, to the kept output if and only if the score is at most 50 or the revision succeeds, and the run fails if and only if the revision fails in the (50, 80] band |
| Pipeline.ProcessRejectsMissingText | src/clean_data.py:30-31 | a record without a string `text` field, and only such a record, fails before assessment |
| Pipeline.EstimateIsOriginalScore | src/clean_data.py:31-32 | every routed record, revised or not, carries the score of its original text as `estimate` |
| Pipeline.RevisedRecordFields | src/clean_data.py:36-39 | a revised record has `original_text` equal to the old `text`, `text` equal to the reviser's output, `estimate` added, and all other fields unchanged |
| Pipeline.UnrevisedRecordFields | src/clean_data.py:34-41 | a removed or unrevised record is the input with `estimate` added and nothing else changed; no `original_text` is added |
| Pipeline.ReviserOnlyInReviseBand | src/clean_data.py:36-38 | outside the (50, 80] band the outcome does not depend on the reviser: it is not consulted |
| Pipeline.AssessorSeesOriginalText | src/clean_data.py:31 | the outcome depends on the assessor only through its score for the record's original text |
| Pipeline.OracleOutageKeepsRecord | src/assessment.py:90 | with the pipeline's assessor being `AssessFn` of an LLM assessor and no oracle answer, the record is kept unchanged with `estimate: 0` |
| Pipeline.AbsentRevisionStopsRun | src/reviser.py:26-27 | when the pipeline's reviser answers a record as an LLM reviser's `revise` does (as `ReviseFn` does), a record in the revise band fails if and only if the revision call returns nothing |
| Pipeline.ScenarioKeep | src/clean_data.py:40-41 | `{"text": "The sky is blue."}` scored 10 is kept as itself with `estimate: 10` |
| Pipeline.ScenarioRemove | src/clean_data.py:34-35 | `{"text": "X"}` scored 90 is removed with `estimate: 90` |
| Pipeline.ScenarioRevise | src/clean_data.py:36-39 | `{"text": "X"}` scored 65 and revised to "Y" is kept as `{"text": "Y", "original_text": "X", "estimate": 65}` |
| Pipeline.ProcessedCount | src/clean_data.py:27-29 | at most `limit` records, none when `limit <= 0`, and fewer than available only because of the limit |
| Pipeline.RoutedAs | src/clean_data.py:27-41 | the routing of the first n records of a run: each is processed by `Process` without an exception, at the same position |
| Pipeline.RoutedAsUnique | src/clean_data.py:27-41 | for a given assessor and reviser (as functions), the routing of a run's first n records is determined by the records |
| Pipeline.KeptOf | src/clean_data.py:39-41 | the records a routing sends to the kept output, in order; never more than were routed |
| Pipeline.RemovedOf | src/clean_data.py:35 | the records a routing sends to the removed output, in order; never more than were routed |
| Pipeline.KeptOfDistributes | src/clean_data.py:39-41 | the kept output of two runs of records is the kept output of the first followed by that of the second: input order is preserved |
| Pipeline.RemovedOfDistributes | src/clean_data.py:35 | the same for the removed output |
| Pipeline.PartitionCount | src/clean_data.py:34-41 | kept and removed records together number exactly the routed records |
| Pipeline.LandsInExactlyOne | src/clean_data.py:34-41 | the record routed at position j sits in its output right after the records of that output routed before it, and the other output does not grow |
| Pipeline.Durable | src/clean_data.py:44-54 | what survives an abort is a prefix of the routed records, made of whole batches of 1000, that misses fewer than 1000 records |
| Pipeline.OutputFile.Append | src/clean_data.py:45-47 | the file grows by the batch, in order; earlier content is unchanged; the append is recorded as one write |
| Pipeline.ScoreAndRoute | src/clean_data.py:30-41 | the loop body for one line computes exactly `Process` of the record |
| Pipeline.FlushIfFull | src/clean_data.py:44-54 | a batch of 1000 is appended in one write and emptied; a shorter one is left alone, and the file is untouched |
| Pipeline.FlushRemainder | src/clean_data.py:57-65 | a non-empty remainder is appended in one write, after which the file holds its prior content followed by all routed records |
| Pipeline.CleanData | src/clean_data.py:7-65 | it processes exactly the first `ProcessedCount(limit, n)` records; a completed run appends the kept records and the removed records, each in input order, to the prior content of their files; every write is a full batch of 1000 except a final remainder; an aborted run stops at the first failing record and leaves only whole flushed batches |

## Left out

- `src/llm.py` is not part of this model: the network client, its exception
  handling, cost estimation and logging. The oracle is a function from prompt
  to `Option` of the answer.
- Prompt wording: the `FILTER_PROMPT` texts and the critique and revision
  request sentences are constants whose value is left open. Every lemma
  therefore holds for any wording, and only the concatenation structure is
  modelled.
- The oracle is a fixed function in each lemma, so two calls with the same
  prompt get the same answer. A real model is not deterministic. Properties
  such as `Pipeline.RoutedAsUnique` hold for a given assessor and reviser.
- JSON parsing and serialisation (`json.loads`, `json.dumps`, `line.strip()`):
  the input is a sequence of already-parsed objects, and a file holds records,
  not text lines. A line that is not valid JSON, or that is not an object, is
  not modelled. JSON numbers are integers; floating-point values are not
  modelled.
- Filesystem effects: creating `data/processed`, opening and closing files,
  encodings, and partly written lines after a crash. An append is atomic in the
  model.
- Logging in the assessors.
- The `__main__` blocks and the two test files. The tests check the live
  model's scoring accuracy, which is not a property of this code.
- The assessor and reviser base classes are function parameters. A non-string
  `text` is reported as `TextNotString`, which is the `TypeError` the LLM
  assessors raise on `FILTER_PROMPT + text`. An arbitrary assessor of the
  source might not raise there.
- Any exception raised by a generic reviser is the single outcome
  `RevisionFailed`.
- Pipeline.Process: the assessor is a total `string -> int`, so it never raises
  on a string `text`. A generic `Assessment.assess` that raised there would stop
  the source run. The LLM assessors never raise there, since `query_llm` turns
  failures into `None`.
- Pipeline.CleanData: records the appends of each file separately. It does not
  state how the appends to the two files interleave in time.

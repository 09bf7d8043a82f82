# Document-admission pipeline, modelled in Dafny

This project models the employer-document workflow of `workflow.py`. A control
orchestrator hands one batch of uploaded documents to three extractor agents:

- Job & Specialty;
- Beneficiary & Status;
- Employer Control & Company.

Each agent scans the batch. A document matches an agent when its lower-cased
type contains one of the agent's two keywords. On a match, the agent fills in
both of its two fields. It reports itself complete once two fields are filled
in. Otherwise it reports both field names as missing. It always reports itself
consistent.

The completeness and consistency agent ANDs the agents' flags. It also joins
their missing-field lists in order. The orchestrator turns that verdict into
one of two decisions: ready for submission, or blocked pending uploads.

Files:

- `text.dfy` (module `Text`): ASCII lower-casing and substring containment, the
  two string operations the agents use. `ToLowerIdempotent` is a standalone
  property of the lower-casing model: no other member relies on it.
- `agents.dfy` (module `Agents`): `Document`, `ProcessingResult`, the three
  agents as values of one `Agent` datatype, the agents' result as a function
  (`Extraction`), and the scan loop as a method (`Process`) proved against it.
- `aggregator.dfy` (module `Aggregator`): the verdict, the two `all(...)` folds,
  the joined missing-field list (`ConcatMissing`) with its lemmas, the verdict
  as a function (`Aggregation`), and the `extend` loop as a method (`Check`)
  proved against it.
- `orchestrator.dfy` (module `Orchestrator`): `Decision`, the decision gate, the
  whole pipeline as functions (`PipelineVerdict`, `PipelineDecision`), the
  orchestrator class whose `ProcessDocuments` method runs the three scans, the
  check and the gate in order, and the end-to-end scenarios (empty batch, the
  three-document example batch, a batch holding only a job description).

Modelling choices:

- The dictionary an agent fills in is modelled by its set of keys. Every value
  stored is the same placeholder text.
- The completeness test `len(data) >= 2` is kept as written. So a generic agent
  whose two field names were equal could never be complete. `Extraction` states
  this, and `AgentFieldsDistinct` shows the three real agents are not affected.
- `str.lower()` is modelled for ASCII letters only. `in` on strings is substring
  containment.
- The concurrent dispatch is three sequential calls on the same immutable
  batch. Their results are kept in the fixed order job, beneficiary, employer.
  Completion order therefore cannot change the missing-field order.
- The decision constructor is named `BlockRequiredUploads`, after the code's
  `BLOCK_REQUIRED_UPLOADS`.

## Model

| member | source | states |
|---|---|---|
| `Text.ToLower` | workflow.py:45 | lower-casing keeps length and position, lowers each ASCII letter, and leaves no upper-case letter |
| `Text.ToLowerIdempotent` | workflow.py:45 | lower-casing an already lower-cased type changes nothing |
| `Text.NotContainsByMissingChar` | workflow.py:45 | a keyword with a character absent from the type is not a substring of it (`in` fails) |
| `Agents.Extraction` | workflow.py:43-58 | the agent's fields are both set or both unset, set iff some document matches; missing is empty iff complete, else the agent's two field names in order; complete iff some document matches (for distinct field names); always consistent; the agent's name is reported |
| `Agents.AnyMatchExtend` | workflow.py:44-47 | scanning one more document adds exactly that document's match |
| `Agents.Process` | workflow.py:38-58 | the scan loop returns exactly the result `Extraction` describes, for every agent and batch |
| `Agents.AgentFieldsDistinct` | workflow.py:43-102 | each of the three agents fills in two distinct fields, so a match makes it complete |
| `Agents.EmptyBatchIncomplete` | workflow.py:43-58 | an empty batch gives an incomplete, consistent result with no data and both field names missing |
| `Aggregator.AllComplete` | workflow.py:120 | true iff every result is complete (true on an empty list) |
| `Aggregator.AllConsistent` | workflow.py:121 | true iff every result is consistent (true on an empty list) |
| `Aggregator.ConcatMissingAppend` | workflow.py:123-125 | joining the missing lists of two runs of results is joining their joined lists |
| `Aggregator.MissingFieldsInPlace` | workflow.py:123-125 | each result's missing fields appear whole, in order, right after those of all earlier results; nothing is deduplicated |
| `Aggregator.ConcatMissingEmpty` | workflow.py:123-125 | the joined list is empty iff no result misses anything |
| `Aggregator.Aggregation` | workflow.py:116-132 | the verdict ANDs completeness and consistency over all results, joins their missing fields in order, and hands back the results unchanged |
| `Aggregator.Check` | workflow.py:116-132 | the check's `extend` loop produces exactly the verdict `Aggregation` describes |
| `Orchestrator.MakeDecision` | workflow.py:186-193 | ready for submission iff all complete and all consistent, blocked otherwise |
| `Orchestrator.PipelineResults` | workflow.py:163-168 | three results, named job, beneficiary, employer in dispatch order; each is consistent, misses nothing iff complete, and is complete iff its own keyword pair is matched in the shared batch |
| `Orchestrator.PipelineVerdict` | workflow.py:163-174 | all complete iff each agent's keyword pair is matched; always consistent; missing fields are exactly the unmatched agents' field names, in dispatch order |
| `Orchestrator.PipelineDecision` | workflow.py:144-184 | a run is ready for submission iff each of the three keyword pairs is matched by some document |
| `Orchestrator.ControlOrchestratorAgent.ProcessDocuments` | workflow.py:144-184 | running the scans, the check and the gate in order returns the pipeline's decision: ready iff all three keyword pairs are matched |
| `Orchestrator.EmptyBatchScenario` | workflow.py:164-178 | an empty batch is blocked and misses job_title, specialty, beneficiary_name, status, company_name, control_number in that order |
| `Orchestrator.ExampleKindsLower` | workflow.py:201-203 | the example document types are already lower case |
| `Orchestrator.JobDescriptionMatches` | workflow.py:45-97 | a "job_description" document matches the job agent and neither of the other two |
| `Orchestrator.JobDescriptionLacksKeywords` | workflow.py:71-97 | "job_description" contains none of beneficiary, status, employer, company |
| `Orchestrator.BeneficiaryInfoMatches` | workflow.py:71 | a "beneficiary_info" document matches the beneficiary agent |
| `Orchestrator.CompanyInfoMatches` | workflow.py:97 | a "company_info" document matches the employer agent |
| `Orchestrator.ReadyWhenEachMatched` | workflow.py:164-189 | any batch with a matching document for each agent is ready for submission with no missing fields |
| `Orchestrator.ExampleBatchScenario` | workflow.py:197-212 | the three-document example batch is ready for submission with no missing fields |
| `Orchestrator.BlockedWithJobOnly` | workflow.py:164-193 | a lone document matching only the job agent is blocked, missing beneficiary_name, status, company_name, control_number |
| `Orchestrator.JobOnlyScenario` | workflow.py:164-193 | a batch holding only a job description is blocked, missing beneficiary_name, status, company_name, control_number |

## Left out

- Concurrency (`asyncio.gather`, `run_in_executor`, the event loop) is modelled as three sequential calls whose results keep argument order. Timing, interleaving and thread-pool behaviour are not modelled.
- An agent raising an exception is not modelled. None of the modelled agents can raise, and the source propagates any such fault unhandled out of the gather.
- All `print` narration and the ", "-joined missing-field message of `_make_decision` are left out. They are observability only.
- The display strings of the two `Decision` values (with their symbols) are left out. `Decision` is a two-constructor datatype.
- The values stored in an agent's dictionary are left out. They are the same placeholder text for every key, so `data` is a set of keys.
- Text.ToLower: models ASCII lower-casing only, not Python's full Unicode `str.lower()`. Non-ASCII upper-case letters are left unchanged.
- The orchestrator's `consistency_agent` field is not a class field here. The completeness and consistency agent holds no state, so its `check` is the module-level method `Aggregator.Check`.
- Idempotence across runs is not a separate lemma. `ProcessDocuments` is specified by a pure function of the batch, so two runs on the same batch give the same decision by construction.
- `main` and the `__main__` entry point are not modelled as runnable code. `main`'s document list is the constant `ExampleBatch` in `ExampleBatchScenario`.
- `Document.content` is carried but never inspected, as in the source.

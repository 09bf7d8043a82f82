/**
 The control orchestrator: it hands the same batch to the three extractor
 agents, collects their results in the fixed order job, beneficiary,
 employer, passes them to the completeness and consistency check and turns
 the verdict into the final decision.

 The agents' concurrent dispatch is modelled as three calls made one after the
 other on the same immutable batch; the results keep the order of the calls,
 whatever order the agents would finish in.
 */
module Orchestrator {
  import opened Text
  import opened Agents
  import opened Aggregator

  /** The two final outcomes of one run. */
  datatype Decision = SubmissionReady | BlockRequiredUploads

  /** Ready for submission exactly when every result is complete and consistent. */
  function MakeDecision(v: Verdict): (d: Decision)
    ensures d == SubmissionReady <==> v.allComplete && v.allConsistent
    ensures d == BlockRequiredUploads <==> !v.allComplete || !v.allConsistent
  {
    if v.allComplete && v.allConsistent then SubmissionReady else BlockRequiredUploads
  }

  /** The fields an agent reports missing when it is done with `docs`. */
  function MissingFor(a: Agent, docs: seq<Document>): seq<string> {
    if AnyMatch(a, docs) then [] else [a.field1, a.field2]
  }

  /**
   The three agents' results, in dispatch order: each is consistent, misses
   nothing exactly when it is complete, and is complete exactly when its own
   keyword pair is matched by some document of the shared batch.
   */
  function PipelineResults(docs: seq<Document>): (rs: seq<ProcessingResult>)
    ensures |rs| == 3
    ensures rs[0].agentName == "Job & Specialty Agent"
    ensures rs[1].agentName == "Beneficiary & Status Agent"
    ensures rs[2].agentName == "Employer Control & Company Agent"
    ensures forall i :: 0 <= i < |rs| ==> rs[i].isConsistent && (rs[i].missingFields == [] <==> rs[i].isComplete)
    ensures rs[0].isComplete <==> AnyMatch(JobSpecialtyAgent, docs)
    ensures rs[1].isComplete <==> AnyMatch(BeneficiaryStatusAgent, docs)
    ensures rs[2].isComplete <==> AnyMatch(EmployerControlCompanyAgent, docs)
  {
    AgentFieldsDistinct();
    [Extraction(JobSpecialtyAgent, docs),
     Extraction(BeneficiaryStatusAgent, docs),
     Extraction(EmployerControlCompanyAgent, docs)]
  }

  /**
   The verdict of one run: complete exactly when each agent's keyword pair is
   matched by some document, always consistent, and missing the fields of the
   unmatched agents, in dispatch order.
   */
  function PipelineVerdict(docs: seq<Document>): (v: Verdict)
    ensures v.allComplete <==>
      AnyMatch(JobSpecialtyAgent, docs) && AnyMatch(BeneficiaryStatusAgent, docs) && AnyMatch(EmployerControlCompanyAgent, docs)
    ensures v.allConsistent
    ensures v.missingFields ==
      MissingFor(JobSpecialtyAgent, docs) + MissingFor(BeneficiaryStatusAgent, docs) + MissingFor(EmployerControlCompanyAgent, docs)
    ensures v.agentResults == PipelineResults(docs)
  {
    var rs := PipelineResults(docs);
    AgentFieldsDistinct();
    assert ConcatMissing(rs) == rs[0].missingFields + rs[1].missingFields + rs[2].missingFields by {
      assert rs[..2][..1] == [rs[0]];
      assert [rs[0]][..0] == [];
      assert ConcatMissing([rs[0]]) == rs[0].missingFields;
      assert ConcatMissing(rs[..2]) == rs[0].missingFields + rs[1].missingFields;
    }
    Aggregation(rs)
  }

  /** A run ends ready for submission exactly when every agent's keyword pair is matched. */
  function PipelineDecision(docs: seq<Document>): (d: Decision)
    ensures d == SubmissionReady <==>
      AnyMatch(JobSpecialtyAgent, docs) && AnyMatch(BeneficiaryStatusAgent, docs) && AnyMatch(EmployerControlCompanyAgent, docs)
  {
    MakeDecision(PipelineVerdict(docs))
  }

  /** The orchestrator holds its three agents; it never changes them. */
  class ControlOrchestratorAgent {
    const jobAgent: Agent := JobSpecialtyAgent
    const beneficiaryAgent: Agent := BeneficiaryStatusAgent
    const employerAgent: Agent := EmployerControlCompanyAgent

    /** One run: dispatch, collect in order, check, decide. */
    method ProcessDocuments(docs: seq<Document>) returns (d: Decision)
      ensures d == PipelineDecision(docs)
      ensures d == SubmissionReady <==>
        AnyMatch(JobSpecialtyAgent, docs) && AnyMatch(BeneficiaryStatusAgent, docs) && AnyMatch(EmployerControlCompanyAgent, docs)
    {
      var jobResult := Process(jobAgent, docs);
      var beneficiaryResult := Process(beneficiaryAgent, docs);
      var employerResult := Process(employerAgent, docs);
      var results := [jobResult, beneficiaryResult, employerResult];
      var consistencyCheck := Check(results);
      d := MakeDecision(consistencyCheck);
    }
  }

  /** An empty batch is blocked and misses all six fields, in dispatch order. */
  lemma EmptyBatchScenario()
    ensures PipelineVerdict([]).missingFields ==
      ["job_title", "specialty", "beneficiary_name", "status", "company_name", "control_number"]
    ensures PipelineDecision([]) == BlockRequiredUploads
  {
  }

  /** Each of the three example document types is already in lower case. */
  lemma ExampleKindsLower(d: Document)
    requires d.documentType in {"job_description", "beneficiary_info", "company_info"}
    ensures ToLower(d.documentType) == d.documentType
  {
    ToLowerOfLower(d.documentType);
  }

  /** A document of kind "job_description" matches the job agent alone. */
  lemma JobDescriptionMatches(d: Document)
    requires ToLower(d.documentType) == "job_description"
    ensures Matches(JobSpecialtyAgent, d)
    ensures !Matches(BeneficiaryStatusAgent, d)
    ensures !Matches(EmployerControlCompanyAgent, d)
  {
    assert OccursAt("job_description", "job", 0);
    JobDescriptionLacksKeywords(ToLower(d.documentType));
  }

  /** "job_description" holds none of the other two agents' keywords. */
  lemma JobDescriptionLacksKeywords(kind: string)
    requires kind == "job_description"
    ensures !Contains(kind, "beneficiary") && !Contains(kind, "status")
    ensures !Contains(kind, "employer") && !Contains(kind, "company")
  {
    NotContainsByMissingChar(kind, "beneficiary", 10);
    NotContainsByMissingChar(kind, "status", 2);
    NotContainsByMissingChar(kind, "employer", 1);
    NotContainsByMissingChar(kind, "company", 2);
  }

  /** A document of kind "beneficiary_info" matches the beneficiary agent. */
  lemma BeneficiaryInfoMatches(d: Document)
    requires ToLower(d.documentType) == "beneficiary_info"
    ensures Matches(BeneficiaryStatusAgent, d)
  {
    assert OccursAt("beneficiary_info", "beneficiary", 0);
  }

  /** A document of kind "company_info" matches the employer agent. */
  lemma CompanyInfoMatches(d: Document)
    requires ToLower(d.documentType) == "company_info"
    ensures Matches(EmployerControlCompanyAgent, d)
  {
    assert OccursAt("company_info", "company", 0);
  }

  /** The job description of the example batch. */
  const JobDescription: Document := Document("Job description document", "job_description")

  /** The example batch: a job description, beneficiary information and company details. */
  const ExampleBatch: seq<Document> := [
    JobDescription,
    Document("Beneficiary information", "beneficiary_info"),
    Document("Company details", "company_info")
  ]

  /** A batch in which each agent has a matching document is ready for submission. */
  lemma ReadyWhenEachMatched(docs: seq<Document>, i: nat, j: nat, k: nat)
    requires i < |docs| && j < |docs| && k < |docs|
    requires Matches(JobSpecialtyAgent, docs[i])
    requires Matches(BeneficiaryStatusAgent, docs[j])
    requires Matches(EmployerControlCompanyAgent, docs[k])
    ensures PipelineDecision(docs) == SubmissionReady
    ensures PipelineVerdict(docs).missingFields == []
  {
    assert AnyMatch(JobSpecialtyAgent, docs);
    assert AnyMatch(BeneficiaryStatusAgent, docs);
    assert AnyMatch(EmployerControlCompanyAgent, docs);
  }

  /** Each document of the example batch matches its own agent, so it is ready for submission. */
  lemma ExampleBatchScenario()
    ensures PipelineDecision(ExampleBatch) == SubmissionReady
    ensures PipelineVerdict(ExampleBatch).missingFields == []
  {
    var docs := ExampleBatch;
    assert Matches(JobSpecialtyAgent, docs[0]) by {
      ExampleKindsLower(docs[0]);
      JobDescriptionMatches(docs[0]);
    }
    assert Matches(BeneficiaryStatusAgent, docs[1]) by {
      ExampleKindsLower(docs[1]);
      BeneficiaryInfoMatches(docs[1]);
    }
    assert Matches(EmployerControlCompanyAgent, docs[2]) by {
      ExampleKindsLower(docs[2]);
      CompanyInfoMatches(docs[2]);
    }
    ReadyWhenEachMatched(docs, 0, 1, 2);
  }

  /** A lone document that matches the job agent alone leaves the other two agents' fields missing. */
  lemma BlockedWithJobOnly(d: Document)
    requires Matches(JobSpecialtyAgent, d)
    requires !Matches(BeneficiaryStatusAgent, d)
    requires !Matches(EmployerControlCompanyAgent, d)
    ensures PipelineDecision([d]) == BlockRequiredUploads
    ensures PipelineVerdict([d]).missingFields == ["beneficiary_name", "status", "company_name", "control_number"]
  {
    assert [d][0] == d;
    assert AnyMatch(JobSpecialtyAgent, [d]);
    assert !AnyMatch(BeneficiaryStatusAgent, [d]);
    assert !AnyMatch(EmployerControlCompanyAgent, [d]);
  }

  /** A batch holding only a job description completes the first agent alone. */
  lemma JobOnlyScenario()
    ensures PipelineDecision([JobDescription]) == BlockRequiredUploads
    ensures PipelineVerdict([JobDescription]).missingFields ==
      ["beneficiary_name", "status", "company_name", "control_number"]
  {
    var d := JobDescription;
    assert Matches(JobSpecialtyAgent, d) && !Matches(BeneficiaryStatusAgent, d) && !Matches(EmployerControlCompanyAgent, d) by {
      ExampleKindsLower(d);
      JobDescriptionMatches(d);
    }
    BlockedWithJobOnly(d);
  }
}

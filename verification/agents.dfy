/**
 The uploaded documents, the result an extractor agent reports, and the three
 extractor agents themselves.

 The three agents (Job & Specialty, Beneficiary & Status, Employer Control &
 Company) run the same scan and differ only in their name, their two keywords
 and their two field names, so one `Agent` value holds those five constants and
 one `Process` method runs the scan for any of them.

 The dictionary an agent fills in is modelled by its set of keys: every value
 it stores is the same placeholder text, which carries no information.
 */
module Agents {
  import opened Text

  /** One uploaded document: its content and its declared type. */
  datatype Document = Document(content: string, documentType: string)

  /** What one agent reports about a batch of documents. */
  datatype ProcessingResult = ProcessingResult(
    agentName: string,
    isComplete: bool,
    isConsistent: bool,
    missingFields: seq<string>,
    data: set<string>)

  /** The constants that make up one extractor agent. */
  datatype Agent = Agent(
    name: string,
    keyword1: string,
    keyword2: string,
    field1: string,
    field2: string)

  const JobSpecialtyAgent: Agent :=
    Agent("Job & Specialty Agent", "job", "specialty", "job_title", "specialty")

  const BeneficiaryStatusAgent: Agent :=
    Agent("Beneficiary & Status Agent", "beneficiary", "status", "beneficiary_name", "status")

  const EmployerControlCompanyAgent: Agent :=
    Agent("Employer Control & Company Agent", "employer", "company", "company_name", "control_number")

  /** The document's lower-cased type contains one of the agent's keywords. */
  predicate Matches(a: Agent, d: Document) {
    var kind := ToLower(d.documentType);
    Contains(kind, a.keyword1) || Contains(kind, a.keyword2)
  }

  /** Some document of the batch matches the agent. */
  predicate AnyMatch(a: Agent, docs: seq<Document>) {
    exists i :: 0 <= i < |docs| && Matches(a, docs[i])
  }

  /**
   The result the agent reports on `docs`: both of its fields are filled in
   when any document matches and none otherwise; the result is complete when
   two fields are filled in, lists the two field names as missing otherwise,
   and is always consistent.
   */
  function Extraction(a: Agent, docs: seq<Document>): (r: ProcessingResult)
    ensures r.agentName == a.name
    ensures r.isConsistent
    ensures r.data == (if AnyMatch(a, docs) then {a.field1, a.field2} else {})
    ensures r.missingFields == [] <==> r.isComplete
    ensures !r.isComplete ==> r.missingFields == [a.field1, a.field2]
    ensures r.isComplete <==> a.field1 != a.field2 && AnyMatch(a, docs)
  {
    var data := if AnyMatch(a, docs) then {a.field1, a.field2} else {};
    var complete := |data| >= 2;
    ProcessingResult(a.name, complete, true, if complete then [] else [a.field1, a.field2], data)
  }

  /** Extending a batch by one document adds that document's match. */
  lemma AnyMatchExtend(a: Agent, docs: seq<Document>, i: nat)
    requires i < |docs|
    ensures AnyMatch(a, docs[..i + 1]) <==> AnyMatch(a, docs[..i]) || Matches(a, docs[i])
  {
    var pre, ext := docs[..i], docs[..i + 1];
    assert ext[i] == docs[i];
    assert forall j :: 0 <= j < i ==> ext[j] == pre[j];
  }

  /** The agent's scan: one pass over the batch, filling in its dictionary. */
  method Process(a: Agent, docs: seq<Document>) returns (r: ProcessingResult)
    ensures r == Extraction(a, docs)
  {
    var data: set<string> := {};
    var i := 0;
    while i < |docs|
      invariant 0 <= i <= |docs|
      invariant data == if AnyMatch(a, docs[..i]) then {a.field1, a.field2} else {}
    {
      AnyMatchExtend(a, docs, i);
      if Matches(a, docs[i]) {
        data := data + {a.field1};
        data := data + {a.field2};
      }
      i := i + 1;
    }
    assert docs[..i] == docs;
    var complete := |data| >= 2;
    var missing := if !complete then [a.field1, a.field2] else [];
    r := ProcessingResult(a.name, complete, true, missing, data);
  }

  /** Each of the three agents fills in two distinct fields. */
  lemma AgentFieldsDistinct()
    ensures JobSpecialtyAgent.field1 != JobSpecialtyAgent.field2
    ensures BeneficiaryStatusAgent.field1 != BeneficiaryStatusAgent.field2
    ensures EmployerControlCompanyAgent.field1 != EmployerControlCompanyAgent.field2
  {
    assert JobSpecialtyAgent.field1[0] != JobSpecialtyAgent.field2[0];
    assert BeneficiaryStatusAgent.field1[0] != BeneficiaryStatusAgent.field2[0];
    assert EmployerControlCompanyAgent.field1[2] != EmployerControlCompanyAgent.field2[2];
  }

  /** An empty batch leaves every agent incomplete with no data. */
  lemma EmptyBatchIncomplete(a: Agent)
    ensures Extraction(a, []) == ProcessingResult(a.name, false, true, [a.field1, a.field2], {})
  {
  }
}

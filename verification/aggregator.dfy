/**
 The completeness and consistency agent: it folds the agents' results into one
 verdict.
 */
module Aggregator {
  import opened Agents

  /** The consolidated verdict over all agent results. */
  datatype Verdict = Verdict(
    allComplete: bool,
    allConsistent: bool,
    missingFields: seq<string>,
    agentResults: seq<ProcessingResult>)

  /** Every result is complete (true of an empty list). */
  function AllComplete(results: seq<ProcessingResult>): (b: bool)
    ensures b <==> forall i :: 0 <= i < |results| ==> results[i].isComplete
  {
    if results == [] then true else results[0].isComplete && AllComplete(results[1..])
  }

  /** Every result is consistent (true of an empty list). */
  function AllConsistent(results: seq<ProcessingResult>): (b: bool)
    ensures b <==> forall i :: 0 <= i < |results| ==> results[i].isConsistent
  {
    if results == [] then true else results[0].isConsistent && AllConsistent(results[1..])
  }

  /** The results' missing-field lists, joined end to end in the order given. */
  function ConcatMissing(results: seq<ProcessingResult>): seq<string>
  {
    if results == [] then []
    else ConcatMissing(results[..|results| - 1]) + results[|results| - 1].missingFields
  }

  /** Joining the lists of two runs of results joins their joined lists. */
  lemma {:induction false} ConcatMissingAppend(xs: seq<ProcessingResult>, ys: seq<ProcessingResult>)
    ensures ConcatMissing(xs + ys) == ConcatMissing(xs) + ConcatMissing(ys)
    decreases |ys|
  {
    if ys == [] {
      assert xs + ys == xs;
    } else {
      var last := ys[|ys| - 1];
      assert (xs + ys)[..|xs + ys| - 1] == xs + ys[..|ys| - 1];
      ConcatMissingAppend(xs, ys[..|ys| - 1]);
      assert ConcatMissing(xs + ys) == ConcatMissing(xs) + ConcatMissing(ys[..|ys| - 1]) + last.missingFields;
    }
  }

  /**
   No field name is dropped or merged: a result's missing fields appear whole,
   in their own order, right after those of every result before it.
   */
  lemma MissingFieldsInPlace(before: seq<ProcessingResult>, r: ProcessingResult, after: seq<ProcessingResult>)
    ensures ConcatMissing(before + [r] + after) ==
      ConcatMissing(before) + r.missingFields + ConcatMissing(after)
  {
    ConcatMissingAppend(before + [r], after);
    ConcatMissingAppend(before, [r]);
    assert [r][..0] == [];
  }

  /** The joined list is empty exactly when every result misses nothing. */
  lemma {:induction false} ConcatMissingEmpty(results: seq<ProcessingResult>)
    ensures ConcatMissing(results) == [] <==> forall i :: 0 <= i < |results| ==> results[i].missingFields == []
  {
    if results != [] {
      var init := results[..|results| - 1];
      ConcatMissingEmpty(init);
      assert forall i :: 0 <= i < |init| ==> init[i] == results[i];
    }
  }

  /** The verdict over `results`: the two folds, the joined list, and the results themselves. */
  function Aggregation(results: seq<ProcessingResult>): (v: Verdict)
    ensures v.allComplete <==> forall i :: 0 <= i < |results| ==> results[i].isComplete
    ensures v.allConsistent <==> forall i :: 0 <= i < |results| ==> results[i].isConsistent
    ensures v.missingFields == ConcatMissing(results)
    ensures v.agentResults == results
  {
    Verdict(AllComplete(results), AllConsistent(results), ConcatMissing(results), results)
  }

  /** The check: the two folds, then one pass extending the missing-field list. */
  method Check(results: seq<ProcessingResult>) returns (v: Verdict)
    ensures v == Aggregation(results)
  {
    var allComplete := AllComplete(results);
    var allConsistent := AllConsistent(results);
    var allMissing: seq<string> := [];
    var i := 0;
    while i < |results|
      invariant 0 <= i <= |results|
      invariant allMissing == ConcatMissing(results[..i])
    {
      assert results[..i + 1][..i] == results[..i];
      allMissing := allMissing + results[i].missingFields;
      i := i + 1;
    }
    assert results[..i] == results;
    v := Verdict(allComplete, allConsistent, allMissing, results);
  }
}

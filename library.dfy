/**
 * The test-library entities the rest of the model refers to: case versions
 * and the steps of a case version. Each carries its database identity `id`
 * and its `number`, the label the factories compute and `finishfail` looks up.
 */
module Library {

  datatype CaseVersion = CaseVersion(id: nat, number: int)

  datatype CaseStep = CaseStep(id: nat, number: int)

  /** No two steps of one case version share a number. */
  predicate DistinctStepNumbers(steps: seq<CaseStep>)
  {
    forall i, j :: 0 <= i < j < |steps| ==> steps[i].number != steps[j].number
  }

  /** No two versions of one case share a number. */
  predicate DistinctVersionNumbers(versions: seq<CaseVersion>)
  {
    forall i, j :: 0 <= i < j < |versions| ==> versions[i].number != versions[j].number
  }
}

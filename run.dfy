/** Detector executions and the runs that report them together. An execution's
    result is assigned after the run holding it is built, so a run reads its
    members' current results rather than a copy. The run's aggregation of several
    members is not fixed here: it is the parameter `aggregate`, constrained only by
    what holds for a run of one execution. */
module Runs {
  import opened Wrappers

  /** The terminal results; an execution that has not run has result `None`. */
  datatype Result = Success | Error | Timeout

  class Execution {
    const detector: string
    const version: string
    const findingsPath: string
    var result: Option<Result>

    constructor (detector: string, version: string, findingsPath: string)
      ensures this.detector == detector && this.version == version && this.findingsPath == findingsPath
      ensures result == None
    {
      this.detector := detector;
      this.version := version;
      this.findingsPath := findingsPath;
      result := None;
    }
  }

  /** The four answers a run gives. */
  datatype Verdict = Verdict(success: bool, failure: bool, error: bool, timeout: bool)

  /** How a run turns its members' results into answers. */
  type Aggregation = seq<Option<Result>> -> Verdict

  /** What a run of a single execution answers, for each result that execution
      may have. */
  predicate AgreesOnSingleMember(aggregate: Aggregation) {
    && !aggregate([None]).success
    && !aggregate([None]).failure
    && aggregate([Some(Error)]).error
    && aggregate([Some(Timeout)]).timeout
    && aggregate([Some(Result.Success)]).success
  }

  /** The current results of the executions, in order. */
  function ResultsOf(executions: seq<Execution>): (results: seq<Option<Result>>)
    reads set e | e in executions
    ensures |results| == |executions|
    ensures forall i :: 0 <= i < |executions| ==> results[i] == executions[i].result
  {
    if executions == [] then []
    else ResultsOf(executions[..|executions| - 1]) + [executions[|executions| - 1].result]
  }

  class Run {
    const executions: seq<Execution>
    const aggregate: Aggregation

    constructor (executions: seq<Execution>, aggregate: Aggregation)
      ensures this.executions == executions && this.aggregate == aggregate
    {
      this.executions := executions;
      this.aggregate := aggregate;
    }

    function Results(): seq<Option<Result>>
      reads set e | e in executions
    {
      ResultsOf(executions)
    }

    predicate IsSuccess() reads set e | e in executions { aggregate(Results()).success }
    predicate IsFailure() reads set e | e in executions { aggregate(Results()).failure }
    predicate IsError() reads set e | e in executions { aggregate(Results()).error }
    predicate IsTimeout() reads set e | e in executions { aggregate(Results()).timeout }
  }

  /** A run of one execution answers from that execution's current result. */
  lemma SingleMember(run: Run)
    requires |run.executions| == 1 && AgreesOnSingleMember(run.aggregate)
    ensures run.executions[0].result == None ==> !run.IsSuccess() && !run.IsFailure()
    ensures run.executions[0].result == Some(Error) ==> run.IsError()
    ensures run.executions[0].result == Some(Timeout) ==> run.IsTimeout()
    ensures run.executions[0].result == Some(Result.Success) ==> run.IsSuccess()
  {
    assert run.Results() == [run.executions[0].result];
  }

  /** The result is set after the run is built; the run sees it. */
  method RunAfterAssignment(aggregate: Aggregation, later: Option<Result>) returns (verdict: Verdict)
    requires AgreesOnSingleMember(aggregate)
    ensures later == None ==> !verdict.success && !verdict.failure
    ensures later == Some(Error) ==> verdict.error
    ensures later == Some(Timeout) ==> verdict.timeout
    ensures later == Some(Result.Success) ==> verdict.success
  {
    var execution := new Execution("-detectors-", "-version-", "-findings-");
    var run := new Run([execution], aggregate);
    execution.result := later;
    SingleMember(run);
    verdict := Verdict(run.IsSuccess(), run.IsFailure(), run.IsError(), run.IsTimeout());
  }

  /** An aggregation that answers success when there are members and all of them
      succeeded, and failure, error or timeout when some member ended so. It is a
      witness that the single-member facts can be met, not the way the benchmark
      combines executions. */
  function AllOrAny(results: seq<Option<Result>>): Verdict {
    Verdict(
      |results| > 0 && forall i :: 0 <= i < |results| ==> results[i] == Some(Result.Success),
      exists i :: 0 <= i < |results| && results[i] in {Some(Error), Some(Timeout)},
      exists i :: 0 <= i < |results| && results[i] == Some(Error),
      exists i :: 0 <= i < |results| && results[i] == Some(Timeout))
  }

  lemma AllOrAnyAgrees()
    ensures AgreesOnSingleMember(AllOrAny)
  {
    var notRun: seq<Option<Result>> := [None];
    assert notRun[0] == None;
    assert [Some(Error)][0] == Some(Error);
    assert [Some(Timeout)][0] == Some(Timeout);
  }
}

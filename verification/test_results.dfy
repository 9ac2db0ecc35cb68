/** The results screen: which stored runs are listed under the current filter. */
module TestResults {
  import opened Json
  import opened Subsequences
  import opened TestRunner

  /** Whether some test of the run has exactly the status `filter`. */
  predicate HasTestWithStatus(run: Report, filter: string) {
    exists i :: 0 <= i < |run.testResults| && run.testResults[i].status == JStr(filter)
  }

  function Listed(filter: string): Report -> bool {
    run => filter == "all" || HasTestWithStatus(run, filter)
  }

  /**
    `filteredResults`: under `all` every run; under any other filter the runs with at least
    one test of that status; in their stored order.
   */
  function FilteredResults(runs: seq<Report>, filter: string): (r: seq<Report>)
    ensures forall run :: run in r <==> run in runs && (filter == "all" || HasTestWithStatus(run, filter))
    ensures |r| <= |runs|
  {
    Filter(runs, Listed(filter))
  }

  /** The list keeps the stored order, and `all` lists everything. */
  lemma FilteredResultsOrder(runs: seq<Report>, filter: string)
    ensures IsSubsequence(FilteredResults(runs, filter), runs)
    ensures filter == "all" ==> FilteredResults(runs, filter) == runs
  {
    FilterIsSubsequence(runs, Listed(filter));
    if filter == "all" {
      FilterKeepsAll(runs, Listed(filter));
    }
  }

  /**
    The status filters are not a partition: a run with a passed and a failed test is listed
    under both, and a run without tests only under `all`.
   */
  lemma FiltersOverlap(runs: seq<Report>, run: Report, filter: string)
    requires run in runs
    ensures (exists i, j :: 0 <= i < |run.testResults| && 0 <= j < |run.testResults|
                            && run.testResults[i].status == JStr("passed")
                            && run.testResults[j].status == JStr("failed")) ==>
      run in FilteredResults(runs, "passed") && run in FilteredResults(runs, "failed")
    ensures run.testResults == [] ==> (run in FilteredResults(runs, filter) <==> filter == "all")
  {
  }
}

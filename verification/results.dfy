/** Per-host results and the aggregated result of one `run`, and the
    scheduler that produces them. */
module Results {
  import opened Wrappers

  /** What the task returned for one host: a normal return (with its
      `changed` flag) or a raised exception, kept as its description. */
  datatype TaskOutcome = Completed(changed: bool) | Raised(exception: string)

  /** The `Result` of running the task on one host. */
  datatype HostResult = HostResult(host: string, outcome: TaskOutcome) {
    /** A host result is failed exactly when the task raised. */
    predicate Failed() {
      outcome.Raised?
    }
  }

  /** `AggregatedResult`: one result per scheduled host, in scheduling order. */
  datatype AggregatedResult = AggregatedResult(results: seq<HostResult>) {

    /** `failed`: at least one host failed. */
    predicate Failed() {
      exists i | 0 <= i < |results| :: results[i].Failed()
    }

    /** The keys of `failed_hosts`. */
    function FailedHosts(): (r: set<string>)
      ensures forall h :: h in r <==>
        exists i | 0 <= i < |results| :: results[i].host == h && results[i].Failed()
    {
      set i | 0 <= i < |results| && results[i].Failed() :: results[i].host
    }

    /** The host names of the results, in order. */
    function Hosts(): (r: seq<string>)
      ensures |r| == |results|
      ensures forall i | 0 <= i < |r| :: r[i] == results[i].host
    {
      seq(|results|, i requires 0 <= i < |results| => results[i].host)
    }
  }

  /** `NornirExecutionError`, carrying the whole aggregated result. */
  datatype ExecutionError = NornirExecutionError(result: AggregatedResult)

  /** How the scheduler runs the task: `run_serial`, or `run_parallel` with a
      number of workers. */
  datatype Mode = Serial | Parallel(numWorkers: int)

  /** The task scheduler. The worker pool is not modelled: both modes run the
      task once per host and collect the results in scheduling order, which
      is the ordering promise of the aggregated result. */
  function Execute(mode: Mode, hosts: seq<string>, work: string -> TaskOutcome): (r: AggregatedResult)
    ensures r.Hosts() == hosts
    ensures forall i | 0 <= i < |hosts| :: r.results[i].outcome == work(hosts[i])
  {
    AggregatedResult(seq(|hosts|, i requires 0 <= i < |hosts| => HostResult(hosts[i], work(hosts[i]))))
  }

  /** `AggregatedResult.raise_on_error`: raises, carrying the result, iff
      some host failed. */
  function RaiseOnError(result: AggregatedResult): (r: Result<AggregatedResult, ExecutionError>)
    ensures r.Failure? <==> result.Failed()
    ensures r.Failure? ==> r.error.result == result
    ensures r.Success? ==> r.value == result
  {
    if result.Failed() then Failure(NornirExecutionError(result)) else Success(result)
  }

  /** The failed hosts of a scheduled run are exactly the scheduled hosts
      whose task raised, and the run failed iff there is one. */
  lemma ExecuteFailures(mode: Mode, hosts: seq<string>, work: string -> TaskOutcome)
    ensures forall h :: h in Execute(mode, hosts, work).FailedHosts() <==> h in hosts && work(h).Raised?
    ensures Execute(mode, hosts, work).Failed() <==> exists h | h in hosts :: work(h).Raised?
  {
  }
}

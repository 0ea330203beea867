/** The bookkeeping of `Nornir.run` and of the shared failed-host set, as pure
    functions of the inventory, the failed set and the call's arguments. */
module Dispatch {
  import opened Wrappers
  import opened Seqs
  import opened Results
  import opened Policy
  import opened Selection

  /** The keyword arguments of `run` that the dispatcher itself interprets. */
  datatype RunArgs = RunArgs(numWorkers: Option<int>, raiseOnError: Option<bool>, onGood: bool, onFailed: bool)

  /** `run`'s defaults: no overrides, good hosts only. */
  const DefaultRunArgs := RunArgs(None, None, true, false)

  /** What one `run` does: the scheduler mode it picks, what it returns or
      raises, and the failed-host set it leaves behind. */
  datatype RunStep = RunStep(mode: Mode, outcome: Result<AggregatedResult, ExecutionError>, failed: set<string>) {
    /** The aggregated result, whether returned or carried by the error. */
    function Aggregate(): AggregatedResult {
      match outcome
      case Success(a) => a
      case Failure(e) => e.result
    }
  }

  /** `Nornir.run` over an inventory and the failed set it shares with every
      filtered copy; `work` is the task's outcome per host. */
  function Run(inv: seq<string>, failed: set<string>, config: Config, args: RunArgs,
               work: string -> TaskOutcome): (s: RunStep)
    ensures s.mode.Serial? <==> EffectiveWorkers(args.numWorkers, config.numWorkers) == 1
    ensures s.Aggregate().Hosts() == RunOn(inv, failed, args.onGood, args.onFailed)
    ensures failed <= s.failed
  {
    var workers := EffectiveWorkers(args.numWorkers, config.numWorkers);
    var runOn := RunOn(inv, failed, args.onGood, args.onFailed);
    var mode := ChooseMode(workers);
    var result := Execute(mode, runOn, work);
    if EffectiveRaise(args.raiseOnError, config.raiseOnError) then
      RunStep(mode, RaiseOnError(result), failed)
    else
      RunStep(mode, Success(result), failed + result.FailedHosts())
  }

  /** Every selected host gets exactly one result, in selection order, holding
      what the task did on that host; the mode plays no part. */
  lemma RunReportsEverySelectedHost(inv: seq<string>, failed: set<string>, config: Config,
                                    args: RunArgs, work: string -> TaskOutcome)
    ensures var s := Run(inv, failed, config, args, work);
      var sel := RunOn(inv, failed, args.onGood, args.onFailed);
      && |s.Aggregate().results| == |sel|
      && forall i | 0 <= i < |sel| :: s.Aggregate().results[i] == HostResult(sel[i], work(sel[i]))
  {
  }

  /** Without raising, the new failed set is the old one together with the
      selected hosts whose task raised, and the result is returned. */
  lemma NonRaisingRunMergesFailures(inv: seq<string>, failed: set<string>, config: Config,
                                    args: RunArgs, work: string -> TaskOutcome)
    requires !EffectiveRaise(args.raiseOnError, config.raiseOnError)
    ensures var s := Run(inv, failed, config, args, work);
      && s.outcome.Success?
      && forall h :: h in s.failed <==> h in failed || (h in RunOn(inv, failed, args.onGood, args.onFailed) && work(h).Raised?)
  {
  }

  /** When raising, the failed set is left alone, and `run` raises iff some
      selected host's task raised. */
  lemma RaisingRunKeepsFailedSet(inv: seq<string>, failed: set<string>, config: Config,
                                 args: RunArgs, work: string -> TaskOutcome)
    requires EffectiveRaise(args.raiseOnError, config.raiseOnError)
    ensures var s := Run(inv, failed, config, args, work);
      && s.failed == failed
      && (s.outcome.Failure? <==> exists h | h in RunOn(inv, failed, args.onGood, args.onFailed) :: work(h).Raised?)
  {
  }

  /** A host that failed before stays failed even when it is run again and
      its task now completes. */
  lemma NoSelfHealing(inv: seq<string>, failed: set<string>, config: Config,
                      args: RunArgs, work: string -> TaskOutcome, h: string)
    requires h in failed
    requires h in RunOn(inv, failed, args.onGood, args.onFailed) && work(h).Completed?
    ensures h in Run(inv, failed, config, args, work).failed
    ensures exists i | 0 <= i < |Run(inv, failed, config, args, work).Aggregate().results| ::
      Run(inv, failed, config, args, work).Aggregate().results[i] == HostResult(h, work(h))
  {
  }

  /** A host whose task raised in a non-raising run is skipped by the next
      run on good hosts only. */
  lemma FailedHostSkippedNextTime(inv: seq<string>, failed: set<string>, config: Config,
                                  args: RunArgs, work: string -> TaskOutcome, h: string)
    requires !EffectiveRaise(args.raiseOnError, config.raiseOnError)
    requires h in RunOn(inv, failed, args.onGood, args.onFailed) && work(h).Raised?
    ensures h !in RunOn(inv, Run(inv, failed, config, args, work).failed, true, false)
    ensures h in RunOn(inv, Run(inv, failed, config, args, work).failed, false, true)
  {
  }

  /** `Data.recover_host`: `h` leaves the failed set and nothing else changes;
      a host that is not there leaves the set as it was. */
  function RecoverHost(failed: set<string>, h: string): (r: set<string>)
    ensures h !in r
    ensures forall x | x != h :: x in r <==> x in failed
    ensures h !in failed ==> r == failed
  {
    failed - {h}
  }

  /** A recovered inventory host is selected again by a good-hosts run and no
      longer by a failed-hosts run. */
  lemma RecoverMakesHostGood(inv: seq<string>, failed: set<string>, h: string)
    requires h in inv
    ensures h in RunOn(inv, RecoverHost(failed, h), true, false)
    ensures h !in RunOn(inv, RecoverHost(failed, h), false, true)
  {
  }

  /** `Data.reset_failed_hosts`: the failed set becomes empty. */
  function ResetFailedHosts(): (r: set<string>)
    ensures forall h :: h !in r
  {
    {}
  }

  /** After a reset a good-hosts run covers the whole inventory in inventory
      order, and a failed-hosts run covers nothing. */
  lemma ResetMakesEveryHostGood(inv: seq<string>)
    ensures RunOn(inv, ResetFailedHosts(), true, false) == inv
    ensures RunOn(inv, ResetFailedHosts(), false, true) == []
  {
    FilterAll(inv, InGroup(ResetFailedHosts(), false));
    FilterNone(inv, InGroup(ResetFailedHosts(), true));
  }

  /** One call a script makes on a session or on any filtered copy of it;
      all of them read and write the same failed set. */
  datatype Op =
    | RunOp(view: string -> bool, args: RunArgs, work: string -> TaskOutcome)
    | RecoverOp(host: string)
    | ResetOp

  /** The failed set after one call. A run on a filtered copy sees the
      inventory restricted by the copy's filter. */
  function Apply(inv: seq<string>, config: Config, failed: set<string>, op: Op): set<string> {
    match op
    case RunOp(view, args, work) => Run(Filter(inv, view), failed, config, args, work).failed
    case RecoverOp(h) => RecoverHost(failed, h)
    case ResetOp => ResetFailedHosts()
  }

  /** The failed set after a sequence of calls. */
  function Replay(inv: seq<string>, config: Config, failed: set<string>, ops: seq<Op>): set<string>
    decreases |ops|
  {
    if |ops| == 0 then failed else Replay(inv, config, Apply(inv, config, failed, ops[0]), ops[1..])
  }

  /** Whether a call can take `h` out of the failed set. */
  predicate Clears(op: Op, h: string) {
    op.ResetOp? || (op.RecoverOp? && op.host == h)
  }

  /** A failed host stays failed through any number of runs, on any filtered
      copies, until it is recovered or the set is reset. */
  lemma {:induction false} FailureStaysUntilCleared(inv: seq<string>, config: Config, failed: set<string>,
                                                   ops: seq<Op>, h: string)
    requires h in failed
    requires forall i | 0 <= i < |ops| :: !Clears(ops[i], h)
    ensures h in Replay(inv, config, failed, ops)
    decreases |ops|
  {
    if |ops| > 0 {
      assert !Clears(ops[0], h);
      var next := Apply(inv, config, failed, ops[0]);
      assert h in next;
      assert forall i | 0 <= i < |ops[1..]| :: !Clears(ops[1..][i], h) by {
        forall i | 0 <= i < |ops[1..]| ensures !Clears(ops[1..][i], h) {
          assert ops[1..][i] == ops[i + 1];
        }
      }
      FailureStaysUntilCleared(inv, config, next, ops[1..], h);
    }
  }

  /** Runs alone only ever add to the failed set: a script of runs clears
      nothing. */
  lemma RunsOnlyGrowFailedSet(inv: seq<string>, config: Config, failed: set<string>, ops: seq<Op>)
    requires forall i | 0 <= i < |ops| :: ops[i].RunOp?
    ensures failed <= Replay(inv, config, failed, ops)
  {
    forall h | h in failed ensures h in Replay(inv, config, failed, ops) {
      FailureStaysUntilCleared(inv, config, failed, ops, h);
    }
  }
}

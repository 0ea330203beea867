/** The session objects: `Data`, shared by reference between a session and
    every copy `filter` makes of it, and `Nornir`, the dispatcher. */
module Session {
  import opened Wrappers
  import opened Results
  import opened Policy
  import opened Selection
  import opened Connections
  import opened Inventories
  import opened Seqs
  import Dispatch

  /** The state shared by a session and its filtered copies. */
  class Data {
    var failedHosts: set<string>
    var dryRun: bool
    var availableConnections: map<string, ConnectionPlugin>

    /** A fresh `Data` with no failed hosts and the plugin package's registry;
        `dryRun` is set by the session that adopts it. */
    constructor(registry: map<string, ConnectionPlugin>)
      ensures failedHosts == {}
      ensures availableConnections == registry
    {
      failedHosts := {};
      dryRun := false;
      availableConnections := registry;
    }

    /** `recover_host`. */
    method RecoverHost(h: string)
      modifies this
      ensures failedHosts == Dispatch.RecoverHost(old(failedHosts), h)
      ensures dryRun == old(dryRun) && availableConnections == old(availableConnections)
    {
      failedHosts := failedHosts - {h};
    }

    /** `reset_failed_hosts`. */
    method ResetFailedHosts()
      modifies this
      ensures failedHosts == Dispatch.ResetFailedHosts()
      ensures dryRun == old(dryRun) && availableConnections == old(availableConnections)
    {
      failedHosts := {};
    }
  }

  class Nornir {
    var data: Data
    var inventory: Inventory
    var config: Config

    /** The inventory's host names are the keys of a dict, so none repeats. */
    predicate Valid()
      reads this
    {
      inventory.Valid()
    }

    /** `Nornir.__init__`: adopt the given `Data` or create one, and write the
        session's dry-run flag and any connection override into it, so the
        write is seen by every session sharing it. */
    constructor(inventory: Inventory, dryRun: bool, config: Config, data: Data?,
                availableConnections: Option<map<string, ConnectionPlugin>>,
                registry: map<string, ConnectionPlugin>)
      requires inventory.Valid()
      modifies data
      ensures Valid()
      ensures data != null ==> this.data == data && this.data.failedHosts == old(data.failedHosts)
      ensures data == null ==> fresh(this.data) && this.data.failedHosts == {}
      ensures this.data.dryRun == dryRun
      ensures availableConnections.Some? ==> this.data.availableConnections == availableConnections.value
      ensures availableConnections.None? && data != null ==>
        this.data.availableConnections == old(data.availableConnections)
      ensures availableConnections.None? && data == null ==> this.data.availableConnections == registry
      ensures this.inventory == inventory && this.config == config
    {
      var d: Data;
      if data == null {
        d := new Data(registry);
      } else {
        d := data;
      }
      d.dryRun := dryRun;
      if availableConnections.Some? {
        d.availableConnections := availableConnections.value;
      }
      this.data := d;
      this.inventory := inventory;
      this.config := config;
    }

    /** The `dry_run` property, read through the shared data. */
    function DryRun(): bool
      reads this, data
    {
      data.dryRun
    }

    /** `filter`: a new session over the filtered inventory that shares this
        session's `Data` and configuration; this session keeps its inventory
        and the shared data keeps its contents. */
    method Filter(p: string -> bool) returns (b: Nornir)
      requires Valid()
      modifies data
      ensures fresh(b) && b.Valid()
      ensures b.data == data
      ensures b.inventory == inventory.Filter(p) && b.config == config
      ensures inventory == old(inventory)
      ensures data.failedHosts == old(data.failedHosts) && data.dryRun == old(data.dryRun)
      ensures data.availableConnections == old(data.availableConnections)
    {
      b := new Nornir(inventory, DryRun(), config, data, None, data.availableConnections);
      b.inventory := inventory.Filter(p);
    }

    /** `run`, with `run`'s defaults: select the hosts, schedule the
        task, then either raise on a failure or merge the failed hosts into
        the shared set. No host is reported twice. */
    method Run(work: string -> TaskOutcome, numWorkers: Option<int> := None, raiseOnError: Option<bool> := None,
               onGood: bool := true, onFailed: bool := false)
      returns (r: Result<AggregatedResult, ExecutionError>)
      modifies data
      ensures var s := Dispatch.Run(inventory.hosts, old(data.failedHosts), config,
                                    Dispatch.RunArgs(numWorkers, raiseOnError, onGood, onFailed), work);
        && r == s.outcome && data.failedHosts == s.failed
        && (Valid() ==> Distinct(s.Aggregate().Hosts()))
      ensures data.dryRun == old(data.dryRun) && data.availableConnections == old(data.availableConnections)
    {
      if Valid() {
        RunOnDistinct(inventory.hosts, data.failedHosts, onGood, onFailed);
      }
      var workers := EffectiveWorkers(numWorkers, config.numWorkers);
      var runOn := BuildRunOn(inventory.hosts, data.failedHosts, onGood, onFailed);
      var mode := ChooseMode(workers);
      var result := Execute(mode, runOn, work);
      if EffectiveRaise(raiseOnError, config.raiseOnError) {
        r := RaiseOnError(result);
      } else {
        data.failedHosts := data.failedHosts + result.FailedHosts();
        r := Success(result);
      }
    }

    /** `get_connection_type`, looked up in the shared registry. */
    function GetConnectionType(connection: string): (r: Result<ConnectionPlugin, LookupError>)
      reads this, data
      ensures r.Success? <==> connection in data.availableConnections
      ensures r.Success? ==> r.value == data.availableConnections[connection]
      ensures r.Failure? ==> r.error == KeyError(connection)
    {
      Connections.GetConnectionType(data.availableConnections, connection)
    }

    /** `close_connections`, by default on good hosts only: run the closing
        task with the default worker and raise settings on the selected
        hosts; the run's error escapes unchanged. */
    method CloseConnections(closeTask: string -> TaskOutcome, onGood: bool := true, onFailed: bool := false)
      returns (r: Result<(), ExecutionError>)
      modifies data
      ensures var s := Dispatch.Run(inventory.hosts, old(data.failedHosts), config,
                                    Dispatch.RunArgs(None, None, onGood, onFailed), closeTask);
        && data.failedHosts == s.failed
        && (r.Failure? <==> s.outcome.Failure?)
        && (r.Failure? ==> r.error == s.outcome.error)
      ensures data.dryRun == old(data.dryRun) && data.availableConnections == old(data.availableConnections)
    {
      var result := Run(closeTask, onGood := onGood, onFailed := onFailed);
      match result
      case Success(_) => r := Success(());
      case Failure(e) => r := Failure(e);
    }

    /** `__exit__`: close the connections of good and failed hosts alike. */
    method Exit(closeTask: string -> TaskOutcome) returns (r: Result<(), ExecutionError>)
      modifies data
      ensures var s := Dispatch.Run(inventory.hosts, old(data.failedHosts), config,
                                    Dispatch.RunArgs(None, None, true, true), closeTask);
        && data.failedHosts == s.failed
        && (r.Failure? <==> s.outcome.Failure?)
        && (r.Failure? ==> r.error == s.outcome.error)
      ensures data.dryRun == old(data.dryRun) && data.availableConnections == old(data.availableConnections)
    {
      r := CloseConnections(closeTask, true, true);
    }
  }

  /** The dry-run flag belongs to the shared data, not to the session: two
      sessions over the same `Data` always report the same flag. */
  lemma SameDataSameDryRun(a: Nornir, b: Nornir)
    requires a.data == b.data
    ensures a.DryRun() == b.DryRun()
  {
  }

  /** `__exit__` visits every host of a valid inventory exactly once. */
  lemma ExitVisitsEveryHostOnce(inv: Inventory, failed: set<string>)
    requires inv.Valid()
    ensures var sel := RunOn(inv.hosts, failed, true, true);
      && Distinct(sel)
      && multiset(sel) == multiset(inv.hosts)
      && forall h :: h in sel <==> h in inv.hosts
  {
    FlagExtremes(inv.hosts, failed);
    RunOnDistinct(inv.hosts, failed, true, true);
  }

  /** Constructing a second session over an existing `Data` rewrites the
      dry-run flag for every session sharing it, and a filtered copy reports
      the flag of the session it was made from. */
  method SharedDryRunFlag(inventory: Inventory, config: Config, p: string -> bool,
                          registry: map<string, ConnectionPlugin>, first: bool, second: bool)
    returns (copyBefore: bool, parentAfter: bool, copyAfter: bool)
    requires inventory.Valid()
    ensures copyBefore == first
    ensures parentAfter == second && copyAfter == second
  {
    var nr := new Nornir(inventory, first, config, null, None, registry);
    var d := nr.Filter(p);
    copyBefore := d.DryRun();
    var other := new Nornir(inventory, second, config, nr.data, None, registry);
    parentAfter := nr.DryRun();
    copyAfter := d.DryRun();
  }

  /** A script that filters a session, runs a task on the filtered copy and
      then resets the failures through the original session. The original
      sees the copy's failures, and the copy sees the reset. When the run
      raises, the error ends the script before the reset. */
  method FilteredRunThenParentReset(inventory: Inventory, config: Config, p: string -> bool,
                                    work: string -> TaskOutcome, registry: map<string, ConnectionPlugin>)
    returns (raised: bool, seenByParent: set<string>, seenByCopyAfterReset: set<string>)
    requires inventory.Valid()
    ensures raised <==> config.raiseOnError && exists h | h in inventory.hosts && p(h) :: work(h).Raised?
    ensures !config.raiseOnError ==>
      forall h :: h in seenByParent <==> h in inventory.hosts && p(h) && work(h).Raised?
    ensures config.raiseOnError ==> seenByParent == {}
    ensures !raised ==> seenByCopyAfterReset == {}
  {
    var data := new Data(registry);
    var nr := new Nornir(inventory, false, config, data, None, registry);
    var d := nr.Filter(p);
    var result := d.Run(work);
    if config.raiseOnError {
      Dispatch.RaisingRunKeepsFailedSet(d.inventory.hosts, {}, config, Dispatch.DefaultRunArgs, work);
    } else {
      Dispatch.NonRaisingRunMergesFailures(d.inventory.hosts, {}, config, Dispatch.DefaultRunArgs, work);
    }
    seenByParent := nr.data.failedHosts;
    if result.Failure? {
      raised := true;
      seenByCopyAfterReset := d.data.failedHosts;
      return;
    }
    raised := false;
    nr.data.ResetFailedHosts();
    seenByCopyAfterReset := d.data.failedHosts;
  }
}

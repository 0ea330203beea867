# Nornir task dispatcher: failure bookkeeping and host selection

This project models the dispatcher at the centre of Nornir (`nornir/core/__init__.py`).
A `Nornir` session holds an inventory of hosts and a `Data` object. `Data` keeps the
set of failed host names, the dry-run flag and the connection-plugin registry.
`Nornir.__init__` adopts a `Data` passed to it (or creates one) and writes the session's
dry-run flag and any connection override into it. So constructing a session over an
existing `Data` changes the dry-run flag every session sharing it reports. `Nornir.run` does four things:

- it picks the hosts to run on from the `on_good` and `on_failed` flags;
- it resolves the worker count and picks serial or parallel scheduling;
- it resolves the raise-on-error policy;
- it either raises on a failure or merges the newly failed hosts into the failed set.

`Nornir.filter` makes a new session over a narrower inventory that shares the *same*
`Data` object. So failures recorded through a filtered copy are seen by the original,
and a reset through the original is seen by the copy.

Layout, one module per concept:

- `wrappers.dfy` (`Wrappers`): `Option` for arguments that default to `None`, and `Result` for "returns or raises".
- `seqs.dfy` (`Seqs`): order-preserving `Filter`, `Subseq` and `Distinct`, with the lemmas the selection proofs use.
- `inventory.dfy` (`Inventories`): the inventory as an ordered sequence of host names, and its filter.
- `results.dfy` (`Results`): task outcomes, per-host results, `AggregatedResult`, `NornirExecutionError`, and the abstract scheduler.
- `policy.dfy` (`Policy`): the configuration, the worker count and the raise policy.
- `selection.dfy` (`Selection`): `run_on`, both as a pure function and as the two loops of `run`.
- `connections.dfy` (`Connections`): `get_connection_type`.
- `dispatch.dfy` (`Dispatch`): `run`, `recover_host` and `reset_failed_hosts` as pure functions. It also replays a whole script of calls against one shared failed set.
- `session.dfy` (`Session`): the `Data` and `Nornir` classes, whose shared `Data` reference models the aliasing.

The `Session` class methods change shared state, so their contracts are stated with `old`.
The pure functions in `Dispatch` and `Selection` carry the same properties without it.

Collaborators that are not part of this model appear as parameters:

- a task is a function `work: string -> TaskOutcome` from host name to outcome;
- `Inventory.filter` is a predicate `string -> bool` on host names, assumed to keep inventory order;
- the plugin package's default registry is a constructor argument `registry`.

One detail follows the code rather than the intuitive reading. With both `on_good` and
`on_failed` set, `run_on` is the good hosts followed by the failed hosts, each group in
inventory order. It is not the inventory order (`BothFlagsGoodFirst`,
`BothFlagsReordersExample`).

## Model

| member | source | states |
|---|---|---|
| Selection.GoodHosts | nornir/core/__init__.py:186-189 | a host is in the `on_good` group iff it is in the inventory and not in the failed set |
| Selection.FailedGroup | nornir/core/__init__.py:190-193 | a host is in the `on_failed` group iff it is in the inventory and in the failed set |
| Selection.RunOn | nornir/core/__init__.py:185-193 | a host is selected iff it is an inventory host and either `on_good` is set and it is not failed, or `on_failed` is set and it is failed |
| Selection.BuildRunOn | nornir/core/__init__.py:185-193 | the two appending loops of `run` build exactly `RunOn` |
| Selection.GroupIsOrderedRestriction | nornir/core/__init__.py:185-193 | each group keeps inventory order; for an inventory without repeated names it is the only ordered sequence with those members |
| Selection.RunOnDistinct | nornir/core/__init__.py:185-193 | for any flags, no host is selected twice when the inventory has no repeated names |
| Selection.FlagExtremes | nornir/core/__init__.py:185-193 | with neither flag nothing is selected; with both flags the selection is a permutation of the inventory |
| Selection.BothFlagsGoodFirst | nornir/core/__init__.py:185-193 | with both flags, all good hosts come before all failed hosts, and each part is its group in inventory order |
| Selection.BothFlagsReordersExample | nornir/core/__init__.py:185-193 | with both flags, inventory `[dev1, dev2]` and failed `{dev1}` run as `[dev2, dev1]` |
| Policy.EffectiveWorkers | nornir/core/__init__.py:183 | an explicit worker count is used iff it is truthy (not `None`, not 0); otherwise the configured count is used |
| Policy.ChooseMode | nornir/core/__init__.py:204-207 | the serial scheduler is chosen iff the count is exactly 1; otherwise the pool gets that count |
| Policy.SerialIffOneWorker | nornir/core/__init__.py:183-207 | a run is serial iff it asks for 1 worker, or asks for `None` or 0 and the configuration says 1 |
| Policy.EffectiveRaise | nornir/core/__init__.py:209-211 | any explicit raise setting wins, `False` included; only `None` falls back to the configuration |
| Policy.RaiseIffRequestedOrConfigured | nornir/core/__init__.py:209-211 | raising is on iff `True` is passed, or nothing is passed and it is configured; an explicit `False` turns it off whatever the configuration says |
| Results.Execute | nornir/core/__init__.py:203-207 | the scheduler returns one result per scheduled host, in scheduling order, holding that host's task outcome |
| Results.RaiseOnError | nornir/core/__init__.py:212-213 | raises iff some host failed; the error carries the whole aggregated result |
| Results.ExecuteFailures | nornir/core/__init__.py:215 | the failed hosts of a run are exactly the scheduled hosts whose task raised |
| Dispatch.Run | nornir/core/__init__.py:155-216 | the mode is serial iff the effective worker count is 1; the result, returned or raised, lists exactly the selected hosts in order; the failed set never shrinks |
| Dispatch.RunReportsEverySelectedHost | nornir/core/__init__.py:202-207 | each selected host has exactly one result holding its task's outcome, whatever the worker count |
| Dispatch.NonRaisingRunMergesFailures | nornir/core/__init__.py:214-216 | without raising, the run returns its result, and a host is failed afterwards iff it was failed before or was selected and its task raised |
| Dispatch.RaisingRunKeepsFailedSet | nornir/core/__init__.py:209-213 | when raising, the failed set is unchanged, and the run raises iff some selected host's task raised |
| Dispatch.NoSelfHealing | nornir/core/__init__.py:214-215 | a failed host that is run again and now completes is reported as completed but stays in the failed set |
| Dispatch.FailedHostSkippedNextTime | nornir/core/__init__.py:185-215 | a host whose task raised in a non-raising run is skipped by the next default run and picked by an `on_failed`-only run |
| Dispatch.RecoverHost | nornir/core/__init__.py:26-28 | `recover_host` removes exactly the given host; it is a no-op when the host is absent |
| Dispatch.RecoverMakesHostGood | nornir/core/__init__.py:26-28 | a recovered inventory host is selected again by a good-hosts run and not by a failed-hosts run |
| Dispatch.ResetFailedHosts | nornir/core/__init__.py:30-32 | `reset_failed_hosts` leaves no host failed |
| Dispatch.ResetMakesEveryHostGood | nornir/core/__init__.py:30-32 | after a reset, a good-hosts run covers the whole inventory in order and a failed-hosts run covers nothing |
| Dispatch.FailureStaysUntilCleared | nornir/core/__init__.py:151-215 | across any script of runs on any filtered copies, a failed host stays failed unless the script resets the set or recovers that host |
| Dispatch.RunsOnlyGrowFailedSet | nornir/core/__init__.py:214-215 | a script made only of runs never removes a host from the failed set |
| Connections.GetConnectionType | nornir/core/__init__.py:222-224 | a lookup succeeds iff the name is registered and then returns its plugin; otherwise it fails with a `KeyError` naming the key |
| Session.Data.RecoverHost | nornir/core/__init__.py:26-28 | the shared failed set loses exactly the given host; the other shared fields are unchanged |
| Session.Data.ResetFailedHosts | nornir/core/__init__.py:30-32 | the shared failed set becomes empty; the other shared fields are unchanged |
| Session.Data.constructor | nornir/core/__init__.py:22-24 | a new `Data` has no failed hosts and holds the plugin package's registry |
| Session.Nornir.constructor | nornir/core/__init__.py:60-85 | the session adopts the given `Data` (keeping its failed set) or a fresh empty one; the shared dry-run flag becomes the session's; a connection override replaces the shared registry, otherwise it is kept |
| Session.SameDataSameDryRun | nornir/core/__init__.py:93-95 | any two sessions over the same `Data` report the same dry-run flag: the flag belongs to the shared data, not to the session |
| Session.SharedDryRunFlag | nornir/core/__init__.py:60-95 | a filtered copy reports its parent's dry-run flag, and constructing another session over the same `Data` changes the flag both report |
| Session.Nornir.GetConnectionType | nornir/core/__init__.py:222-224 | looks the name up in the shared registry: succeeds iff it is registered and returns that plugin, otherwise a `KeyError` naming it |
| Session.Nornir.Filter | nornir/core/__init__.py:144-153 | the copy is a new session with the same `Data` reference, the same configuration and the filtered inventory, which again has no repeated names; the original's inventory, failed set and dry-run flag are unchanged |
| Session.Nornir.Run | nornir/core/__init__.py:155-216 | with `run`'s defaults (no overrides, good hosts only), the method's steps return or raise what `Dispatch.Run` does and write its failed set into the shared data; for a session whose inventory has no repeated names, no host is reported twice |
| Session.Nornir.CloseConnections | nornir/core/__init__.py:226-230 | by default on good hosts only, runs the closing task with the default worker and raise settings; it raises iff that run raises, with that run's `NornirExecutionError`; only the failed set of the shared data changes |
| Session.Nornir.Exit | nornir/core/__init__.py:90-91 | teardown is `close_connections` on good and failed hosts alike, raising that run's error if it raises; only the failed set of the shared data changes |
| Session.ExitVisitsEveryHostOnce | nornir/core/__init__.py:90-91 | the selection of `__exit__` on an inventory without repeated names holds every inventory host exactly once |
| Session.FilteredRunThenParentReset | tests/plugins/tasks/networking/test_napalm_get.py:21-32 | failures of a non-raising run on a filtered copy are seen through the original session, and a reset through the original empties the copy's failed set; under the raising policy the run raises iff some host of the copy failed, which ends the script before the reset, and the failed set stays empty |

## Left out

- `configure_logging` and the logger calls in `run`: they only configure and write logs.
- `InitNornir`, the `config_file` argument and the default `Config()`: they load files and build classes dynamically. The model takes a ready `Config` holding `num_workers` and `raise_on_error`.
- The task scheduler, `Task` and the task's keyword arguments: `nornir/core/scheduler.py` and `nornir/core/task.py` are not part of this model. The thread pool is concurrency, so the serial and parallel paths are modelled as producing the same ordered results.
- `AggregatedResult.raise_on_error` is not part of this model either. It is modelled as raising exactly when some host failed.
- `Inventory.filter` and the host records: a filter is an arbitrary predicate on host names, and hosts are known by name only.
- `Host.close_connections` and the connection plugins are foreign code, so the closing task is a parameter.
- `to_dict` on `Data` and `Nornir`: it only exposes attributes.
- The session's logger argument.
- The back-pointer `self.inventory.nornir = self` (lines 74 and 151): building a filtered copy re-points the original inventory's back-pointer to the copy, before the copy's inventory is replaced. Object back-references are not modelled.
- Session.Nornir.Run: `num_workers` is typed `Option<int>` and `raise_on_error` `Option<bool>`, also in `Policy.EffectiveWorkers`, `Policy.EffectiveRaise` and `Dispatch.Run`. Other Python values are not modelled. The source treats them by three different tests: `or` takes the configured count for any falsy `num_workers`; the serial test is equality with 1, so `True` or `1.0` also run serially; the raise test is `is not None`, so any value other than `None`, `0` included, overrides the configuration and is then judged by its truthiness.
- A non-positive effective worker count (`num_workers=-1`, or `None` requested with 0 configured) reaches `run_parallel` with that count. How the scheduler handles it is not modelled; `Results.Execute` runs such a count normally.

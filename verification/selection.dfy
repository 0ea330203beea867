/** Which hosts `run` dispatches to, from the `on_good` and `on_failed` flags
    and the set of failed host names. */
module Selection {
  import opened Seqs

  /** The membership test of one selection group: hosts outside the failed
      set (`wantFailed` false) or inside it (`wantFailed` true). */
  function InGroup(failed: set<string>, wantFailed: bool): string -> bool {
    h => (h in failed) == wantFailed
  }

  /** The hosts the `on_good` loop appends: not failed, in inventory order. */
  function GoodHosts(inv: seq<string>, failed: set<string>): (r: seq<string>)
    ensures forall h :: h in r <==> h in inv && h !in failed
  {
    Filter(inv, InGroup(failed, false))
  }

  /** The hosts the `on_failed` loop appends: failed, in inventory order. */
  function FailedGroup(inv: seq<string>, failed: set<string>): (r: seq<string>)
    ensures forall h :: h in r <==> h in inv && h in failed
  {
    Filter(inv, InGroup(failed, true))
  }

  /** `run_on`: the good hosts if `on_good`, followed by the failed hosts if
      `on_failed`. */
  function RunOn(inv: seq<string>, failed: set<string>, onGood: bool, onFailed: bool): (r: seq<string>)
    ensures forall h :: h in r <==> h in inv && ((onGood && h !in failed) || (onFailed && h in failed))
  {
    (if onGood then GoodHosts(inv, failed) else []) + (if onFailed then FailedGroup(inv, failed) else [])
  }

  /** The two loops of `run` that build `run_on`. */
  method BuildRunOn(inv: seq<string>, failed: set<string>, onGood: bool, onFailed: bool)
    returns (runOn: seq<string>)
    ensures runOn == RunOn(inv, failed, onGood, onFailed)
  {
    runOn := [];
    if onGood {
      var i := 0;
      while i < |inv|
        invariant 0 <= i <= |inv|
        invariant runOn == GoodHosts(inv[..i], failed)
      {
        assert inv[..i + 1] == inv[..i] + [inv[i]];
        FilterSnoc(inv[..i], inv[i], InGroup(failed, false));
        if inv[i] !in failed {
          runOn := runOn + [inv[i]];
        }
        i := i + 1;
      }
      assert inv[..|inv|] == inv;
    }
    ghost var good := runOn;
    if onFailed {
      var i := 0;
      while i < |inv|
        invariant 0 <= i <= |inv|
        invariant runOn == good + FailedGroup(inv[..i], failed)
      {
        assert inv[..i + 1] == inv[..i] + [inv[i]];
        FilterSnoc(inv[..i], inv[i], InGroup(failed, true));
        if inv[i] in failed {
          runOn := runOn + [inv[i]];
        }
        i := i + 1;
      }
      assert inv[..|inv|] == inv;
    }
  }

  /** Each group lists its hosts in inventory order, and for an inventory
      without repeated names it is the only sequence that does so. */
  lemma GroupIsOrderedRestriction(inv: seq<string>, failed: set<string>, wantFailed: bool, r: seq<string>)
    requires Distinct(inv)
    requires Subseq(r, inv)
    requires forall h :: h in r <==> h in inv && (h in failed) == wantFailed
    ensures Subseq(Filter(inv, InGroup(failed, wantFailed)), inv)
    ensures r == (if wantFailed then FailedGroup(inv, failed) else GoodHosts(inv, failed))
  {
    FilterIsSubseq(inv, InGroup(failed, wantFailed));
    FilterUnique(r, inv, InGroup(failed, wantFailed));
  }

  /** No host is selected twice: the groups are disjoint and each keeps the
      inventory free of repetitions. */
  lemma RunOnDistinct(inv: seq<string>, failed: set<string>, onGood: bool, onFailed: bool)
    requires Distinct(inv)
    ensures Distinct(RunOn(inv, failed, onGood, onFailed))
  {
    FilterDistinct(inv, InGroup(failed, false));
    FilterDistinct(inv, InGroup(failed, true));
    DisjointConcatDistinct(if onGood then GoodHosts(inv, failed) else [],
                           if onFailed then FailedGroup(inv, failed) else []);
  }

  /** With neither flag nothing runs; with both, every inventory host runs
      exactly as often as it occurs in the inventory. */
  lemma FlagExtremes(inv: seq<string>, failed: set<string>)
    ensures RunOn(inv, failed, false, false) == []
    ensures multiset(RunOn(inv, failed, true, true)) == multiset(inv)
  {
    FilterSplit(inv, InGroup(failed, false), InGroup(failed, true));
  }

  /** With both flags the good hosts come first and the failed hosts after
      them, so the order is not the inventory order in general. */
  lemma BothFlagsGoodFirst(inv: seq<string>, failed: set<string>)
    ensures var r := RunOn(inv, failed, true, true);
      var k := |GoodHosts(inv, failed)|;
      && r[..k] == GoodHosts(inv, failed)
      && r[k..] == FailedGroup(inv, failed)
      && (forall i | 0 <= i < k :: r[i] !in failed)
      && (forall i | k <= i < |r| :: r[i] in failed)
  {
  }

  /** A two-host inventory whose first host failed runs in reverse order when
      both flags are set. */
  lemma BothFlagsReordersExample()
    ensures RunOn(["dev1", "dev2"], {"dev1"}, true, true) == ["dev2", "dev1"]
  {
  }
}

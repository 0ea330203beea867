/** The inventory as the dispatcher sees it: host names in insertion order.
    Host records, groups and the matching rules of inventory filtering belong
    to the inventory package; filtering appears here as an arbitrary
    predicate on host names. */
module Inventories {
  import opened Seqs

  datatype Inventory = Inventory(hosts: seq<string>) {

    /** The hosts are the keys of an ordered dict, so no name repeats. */
    predicate Valid() {
      Distinct(hosts)
    }

    /** `Inventory.filter`: a new inventory holding the hosts that match,
        in the original order; the receiver is a value and stays as it was. */
    function Filter(p: string -> bool): (r: Inventory)
      ensures forall h :: h in r.hosts <==> h in hosts && p(h)
      ensures Subseq(r.hosts, hosts)
      ensures Valid() ==> r.Valid()
    {
      FilterIsSubseq(hosts, p);
      if Valid() then FilterDistinct(hosts, p); Inventory(Seqs.Filter(hosts, p))
      else Inventory(Seqs.Filter(hosts, p))
    }
  }
}

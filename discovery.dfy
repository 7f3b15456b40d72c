/**
 * The `peer_list` branch of net4.py's `process_message`: each advertised
 * `(host, port)` that is not yet known and is not the peer's own address
 * is added to `known_peers`, and a thread is started to dial it.
 */
module Discovery {
  import opened Wire

  /** `known_peers` after the loop, and the addresses dialled, in the order the threads start. */
  datatype Merged = Merged(known: set<Address>, dials: seq<Address>)

  /** The loop over `peers` run from `known`, for a peer listening at `self`. */
  function MergePeerList(known: set<Address>, self: Address, peers: seq<Address>): (r: Merged)
    ensures known <= r.known
    ensures forall d :: d in r.dials ==> d in peers && d != self && d !in known && d in r.known
    decreases |peers|
  {
    if peers == [] then Merged(known, [])
    else
      var r := MergePeerList(known, self, peers[..|peers| - 1]);
      var p := peers[|peers| - 1];
      if p !in r.known && p != self then Merged(r.known + {p}, r.dials + [p]) else r
  }

  /**
   * After the loop, `known_peers` is what it was plus every advertised
   * address other than the peer's own, and nothing else.
   */
  lemma {:induction false} MergeAddsAdvertised(known: set<Address>, self: Address, peers: seq<Address>)
    ensures MergePeerList(known, self, peers).known == known + (set p | p in peers && p != self)
    decreases |peers|
  {
    if peers != [] {
      var init := peers[..|peers| - 1];
      MergeAddsAdvertised(known, self, init);
      assert peers == init + [peers[|peers| - 1]];
      var last := peers[|peers| - 1];
      assert (set p | p in peers && p != self) ==
             (set p | p in init && p != self) + (if last != self then {last} else {});
    }
  }

  /** A peer-list message never adds the peer's own address. */
  lemma MergeNeverAddsSelf(known: set<Address>, self: Address, peers: seq<Address>)
    ensures self in MergePeerList(known, self, peers).known <==> self in known
  {
    MergeAddsAdvertised(known, self, peers);
  }

  /**
   * A dial is started once for each advertised address that was neither
   * known beforehand nor the peer's own, and for no other address:
   * duplicates within one list are dialled at most once.
   */
  lemma {:induction false} MergeDialsEachNewAddressOnce(known: set<Address>, self: Address, peers: seq<Address>)
    ensures var r := MergePeerList(known, self, peers);
            Distinct(r.dials) &&
            forall a :: a in r.dials <==> a in peers && a != self && a !in known
    decreases |peers|
  {
    if peers != [] {
      var init := peers[..|peers| - 1];
      var last := peers[|peers| - 1];
      MergeDialsEachNewAddressOnce(known, self, init);
      MergeAddsAdvertised(known, self, init);
      assert peers == init + [last];
      var r := MergePeerList(known, self, init);
      if last !in r.known && last != self {
        assert forall i :: 0 <= i < |r.dials| ==> r.dials[i] in r.known;
      }
    }
  }
}

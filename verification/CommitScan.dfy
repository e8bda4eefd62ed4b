/** What the leader's commit scan computes (heartbeat.go:156-169). */
module CommitScan {
  import opened RaftTypes
  import opened NodeSteps
  import opened Cluster
  import opened LogHistory
  import opened Invariants
  import opened Safety

  /** m is the greatest index of the log that the leader and its peers hold by majority. */
  ghost predicate GreatestHeld(peers: set<nat>, nd: Node, m: Index) {
    && m < |nd.log|
    && (m >= 0 ==> Majority(peers, nd.matchIndex, m))
    && forall j: nat :: m < j < |nd.log| ==> !Majority(peers, nd.matchIndex, j)
  }

  /** An index held by a majority has all smaller indices held by a majority. */
  lemma MajorityBelow(peers: set<nat>, matchIndex: map<nat, Index>, i: nat, j: nat)
    requires Majority(peers, matchIndex, j) && i <= j
    ensures Majority(peers, matchIndex, i)
  {
    SubsetSize(Holders(peers, matchIndex, j), Holders(peers, matchIndex, i));
  }

  /** There is exactly one greatest index held by a majority, and the majority-held indices are
      those up to it. */
  lemma {:induction false} GreatestHeldExists(peers: set<nat>, nd: Node, i: nat) returns (m: Index)
    requires i <= |nd.log|
    requires forall j: nat :: i <= j < |nd.log| ==> !Majority(peers, nd.matchIndex, j)
    ensures GreatestHeld(peers, nd, m)
    ensures forall j: nat :: j < |nd.log| ==> (Majority(peers, nd.matchIndex, j) <==> j <= m)
  {
    if i == 0 {
      m := -1;
    } else if Majority(peers, nd.matchIndex, i - 1) {
      m := i - 1;
      forall j: nat | j <= m ensures Majority(peers, nd.matchIndex, j) {
        MajorityBelow(peers, nd.matchIndex, j, m);
      }
    } else {
      m := GreatestHeldExists(peers, nd, i - 1);
    }
  }

  /** With sorted terms the scan moves the commit index to the greatest index held by a majority
      when that lies ahead and carries the current term; otherwise it moves nothing. */
  lemma ScanIsOrderStatistic(peers: set<nat>, nd: Node, m: Index)
    requires GreatestHeld(peers, nd, m)
    requires forall j, k :: 0 <= j <= k < |nd.log| ==> nd.log[j].term <= nd.log[k].term
    requires TermsBelow(nd.log, nd.term + 1)
    ensures Scan(peers, nd, |nd.log|)
      == if m > nd.commitIndex && nd.log[m].term == nd.term then m else nd.commitIndex
  {
    var k := Scan(peers, nd, |nd.log|);
    if m > nd.commitIndex && nd.log[m].term == nd.term {
      assert Committable(peers, nd, m);
    }
    if k > nd.commitIndex {
      assert nd.log[k].term <= nd.log[m].term;
    }
  }

  /** The scan of a leader in a run: its commit index becomes the greatest majority-held index of
      its own term, if that is news. */
  lemma LeaderScan(r: Repairs, n: nat, steps: seq<Step>, i: nat) returns (m: Index)
    requires Covered(r, steps) && i < n
    requires var s := Exec(r, n, steps); |s.nodes| == n && s.nodes[i].role == Leader
    ensures var nd := Exec(r, n, steps).nodes[i];
      && GreatestHeld(Peers(n, i), nd, m)
      && ScanCommit(Peers(n, i), nd).commitIndex
           == if m > nd.commitIndex && nd.log[m].term == nd.term then m else nd.commitIndex
  {
    hide Exec, Inv, Settled, Rooted;
    var s := Exec(r, n, steps);
    Reached(r, n, steps);
    NodeIn(r, s, i);
    var nd := s.nodes[i];
    m := GreatestHeldExists(Peers(n, i), nd, |nd.log|);
    forall j, k | 0 <= j <= k < |nd.log| ensures nd.log[j].term <= nd.log[k].term {
      TermsSorted(s.leads, nd.log, j, k);
    }
    ScanIsOrderStatistic(Peers(n, i), nd, m);
  }
}

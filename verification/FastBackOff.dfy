/** The conflict back-off between a leader and one follower while both logs stand still
    (heartbeat.go:86-103, 174-191). */
module FastBackOff {
  import opened RaftTypes
  import opened NodeSteps
  import opened Cluster
  import opened LogHistory
  import opened Invariants
  import opened Safety

  // ---------------------------------------------------------------- on two logs

  /** A request built with nextIndex `next` matches the follower's log. */
  predicate Matching(lead: Log, log: Log, next: nat)
    requires next <= |lead|
  {
    next == 0 || (next <= |log| && lead[next - 1].term == log[next - 1].term)
  }

  /** The nextIndex after a rejection with hints. */
  function NextTry(lead: Log, log: Log, next: nat): nat
    requires 0 < next <= |lead|
  {
    BackOff(lead, Hint(log, next - 1).0, Hint(log, next - 1).1)
  }

  /** A rejection inside the follower's log: either the next try matches, or it lies at the start of
      the follower's run of the conflicting term. */
  lemma TryInside(leads: Leads, lead: Log, log: Log, next: nat)
    requires LeadsOk(leads) && Rooted(leads, lead) && Rooted(leads, log)
    requires 0 < next <= |lead| && next <= |log| && !Matching(lead, log, next)
    ensures NextTry(lead, log, next) < next
    ensures Matching(lead, log, NextTry(lead, log, next)) || NextTry(lead, log, next) == RunStart(log, next - 1)
  {
    var prev := next - 1;
    var t := log[prev].term;
    var j := LastOfTerm(lead, |lead|, t);
    if j >= 0 {
      assert AtRoot(leads, lead, j) && AtRoot(leads, log, prev);
      var own := leads[t].log;
      if j >= prev {
        AgreeAt(lead, own, j + 1, prev);
        AgreeAt(log, own, prev + 1, prev);
      }
      assert j < prev;
      AgreeAt(lead, own, j + 1, j);
      AgreeAt(log, own, prev + 1, j);
    }
  }

  /** Every rejection lowers nextIndex. */
  lemma TryLowers(leads: Leads, lead: Log, log: Log, next: nat)
    requires LeadsOk(leads) && Rooted(leads, lead) && Rooted(leads, log)
    requires next <= |lead| && !Matching(lead, log, next)
    ensures 0 < next && NextTry(lead, log, next) < next
  {
    if next <= |log| { TryInside(leads, lead, log, next); }
  }

  /** The number of rejections before a match. */
  ghost function Rejections(leads: Leads, lead: Log, log: Log, next: nat): nat
    requires LeadsOk(leads) && Rooted(leads, lead) && Rooted(leads, log) && next <= |lead|
    decreases next
  {
    if Matching(lead, log, next) then 0
    else
      TryLowers(leads, lead, log, next);
      1 + Rejections(leads, lead, log, NextTry(lead, log, next))
  }

  ghost function Terms(log: Log, k: nat): set<nat>
    requires k <= |log|
  {
    set i | 0 <= i < k :: log[i].term
  }

  lemma RunStartTerms(leads: Leads, log: Log, i: nat)
    requires LeadsOk(leads) && Rooted(leads, log) && i < |log|
    ensures |Terms(log, RunStart(log, i))| < |Terms(log, i + 1)|
  {
    var start := RunStart(log, i);
    RunStartMeaning(log, i);
    assert log[i].term in Terms(log, i + 1);
    forall k | 0 <= k < start ensures log[k].term != log[i].term {
      TermsSorted(leads, log, k, start - 1);
      TermsSorted(leads, log, start - 1, i);
    }
    SubsetSize(Terms(log, start) + {log[i].term}, Terms(log, i + 1));
  }

  /** Inside the follower's log, there are at most as many rejections as distinct terms. */
  lemma {:induction false} RejectionsInside(leads: Leads, lead: Log, log: Log, next: nat)
    requires LeadsOk(leads) && Rooted(leads, lead) && Rooted(leads, log)
    requires next <= |lead| && next <= |log|
    ensures Rejections(leads, lead, log, next) <= |Terms(log, next)|
    decreases next
  {
    hide Rooted, LeadsOk, Terms;
    if !Matching(lead, log, next) {
      TryInside(leads, lead, log, next);
      RunStartTerms(leads, log, next - 1);
      var try := NextTry(lead, log, next);
      if !Matching(lead, log, try) {
        RejectionsInside(leads, lead, log, try);
      }
    }
  }

  /** At most one rejection more than the follower's log has distinct terms. */
  lemma RejectionsBound(leads: Leads, lead: Log, log: Log, next: nat)
    requires LeadsOk(leads) && Rooted(leads, lead) && Rooted(leads, log) && next <= |lead|
    ensures Rejections(leads, lead, log, next) <= 1 + |Terms(log, |log|)|
  {
    if next > |log| {
      assert NextTry(lead, log, next) == |log|;
      RejectionsInside(leads, lead, log, |log|);
    } else {
      RejectionsInside(leads, lead, log, next);
      assert Terms(log, next) <= Terms(log, |log|);
      SubsetSize(Terms(log, next), Terms(log, |log|));
    }
  }

  // ---------------------------------------------------------------- between two nodes

  /** One heartbeat from leader id to peer p and its reply. */
  function Exchange(r: Repairs, peers: set<nat>, id: nat, leader: Node, p: nat, follower: Node): (Node, Node, AppendReply)
    requires Snapshot(r, id, leader, leader.term, p).Some?
  {
    var a := Snapshot(r, id, leader, leader.term, p).value;
    var (follower', reply) := HandleAppend(r, follower, a);
    (OnAppendReply(r, peers, leader, p, a, reply), follower', reply)
  }

  /** A leader about to try `next` on a follower of its own term. */
  ghost predicate Trying(leader: Node, p: nat, follower: Node, next: nat) {
    && leader.role == Leader && follower.role == Follower && leader.term == follower.term
    && p in leader.nextIndex && leader.nextIndex[p] == next <= |leader.log|
  }

  /** An exchange is a try on the two logs: accepted exactly on a match, and otherwise it leaves
      both logs alone and moves nextIndex to the next try. */
  lemma ExchangeTries(r: Repairs, peers: set<nat>, id: nat, leader: Node, p: nat, follower: Node, next: nat)
    requires r.mergeAtStart && r.hintOnMismatch && Trying(leader, p, follower, next)
    ensures Snapshot(r, id, leader, leader.term, p).Some?
    ensures var (leader', follower', reply) := Exchange(r, peers, id, leader, p, follower);
      && (reply.success <==> Matching(leader.log, follower.log, next))
      && (!reply.success ==>
            && 0 < next
            && leader' == leader.(nextIndex := leader.nextIndex[p := NextTry(leader.log, follower.log, next)])
            && follower' == Persist(follower))
  {
    hide Merge, BackOff, Hint, ScanCommit;
  }

  /** The two nodes after k exchanges. */
  ghost function Exchanges(r: Repairs, peers: set<nat>, id: nat, leader: Node, p: nat, follower: Node, k: nat): (Node, Node)
  {
    if k == 0 then (leader, follower)
    else
      var (l, f) := Exchanges(r, peers, id, leader, p, follower, k - 1);
      if Snapshot(r, id, l, l.term, p).None? then (l, f)
      else (Exchange(r, peers, id, l, p, f).0, Exchange(r, peers, id, l, p, f).1)
  }

  /** Exchange number k, counted from 0, is answered with success. */
  ghost predicate Succeeds(r: Repairs, peers: set<nat>, id: nat, leader: Node, p: nat, follower: Node, k: nat) {
    var (l, f) := Exchanges(r, peers, id, leader, p, follower, k);
    && Snapshot(r, id, l, l.term, p).Some?
    && Exchange(r, peers, id, l, p, f).2.success
  }

  lemma {:induction false} ExchangesShift(r: Repairs, peers: set<nat>, id: nat, leader: Node, p: nat, follower: Node, k: nat)
    requires Snapshot(r, id, leader, leader.term, p).Some?
    ensures var x := Exchange(r, peers, id, leader, p, follower);
      Exchanges(r, peers, id, leader, p, follower, k + 1) == Exchanges(r, peers, id, x.0, p, x.1, k)
  {
    hide Exchange, Snapshot;
    if k > 0 {
      ExchangesShift(r, peers, id, leader, p, follower, k - 1);
    } else {
      assert Exchanges(r, peers, id, leader, p, follower, 0) == (leader, follower);
    }
  }

  /** With both logs otherwise standing still, the exchange after exactly `Rejections` rejections is
      the first to succeed. */
  lemma {:induction false} BackOffEnds(r: Repairs, peers: set<nat>, id: nat, leader: Node, p: nat, follower: Node, next: nat, leads: Leads)
    requires r.mergeAtStart && r.hintOnMismatch && Trying(leader, p, follower, next)
    requires LeadsOk(leads) && Rooted(leads, leader.log) && Rooted(leads, follower.log)
    ensures var k := Rejections(leads, leader.log, follower.log, next);
      && k <= 1 + |Terms(follower.log, |follower.log|)|
      && Succeeds(r, peers, id, leader, p, follower, k)
      && forall j: nat :: j < k ==> !Succeeds(r, peers, id, leader, p, follower, j)
    decreases next
  {
    hide Exchange, Rooted, LeadsOk, Terms, NextTry, Snapshot;
    RejectionsBound(leads, leader.log, follower.log, next);
    ExchangeTries(r, peers, id, leader, p, follower, next);
    assert Exchanges(r, peers, id, leader, p, follower, 0) == (leader, follower);
    if !Matching(leader.log, follower.log, next) {
      var x := Exchange(r, peers, id, leader, p, follower);
      var try := NextTry(leader.log, follower.log, next);
      TryLowers(leads, leader.log, follower.log, next);
      BackOffEnds(r, peers, id, x.0, p, x.1, try, leads);
      var k := Rejections(leads, leader.log, follower.log, try);
      ExchangesShift(r, peers, id, leader, p, follower, k);
      forall j: nat | j < k + 1 ensures !Succeeds(r, peers, id, leader, p, follower, j) {
        if j > 0 {
          ExchangesShift(r, peers, id, leader, p, follower, j - 1);
          assert !Succeeds(r, peers, id, x.0, p, x.1, j - 1);
        } else {
          assert Exchanges(r, peers, id, leader, p, follower, j) == (leader, follower);
        }
      }
    }
  }

  /** The bound in any state of a run: a leader and a follower of its term. */
  lemma BackOffInRun(r: Repairs, n: nat, steps: seq<Step>, i: nat, p: nat) returns (k: nat)
    requires Covered(r, steps) && r.hintOnMismatch && i < n && p in Peers(n, i)
    requires var s := Exec(r, n, steps);
      && |s.nodes| == n && s.nodes[i].role == Leader
      && s.nodes[p].role == Follower && s.nodes[p].term == s.nodes[i].term
    ensures var s := Exec(r, n, steps); var peers := Peers(n, i);
      && k <= 1 + |Terms(s.nodes[p].log, |s.nodes[p].log|)|
      && Succeeds(r, peers, i, s.nodes[i], p, s.nodes[p], k)
      && forall j: nat :: j < k ==> !Succeeds(r, peers, i, s.nodes[i], p, s.nodes[p], j)
  {
    hide Exec, Inv, Settled, Rooted, Succeeds, Terms, LeadsOk;
    var s := Exec(r, n, steps);
    Reached(r, n, steps);
    NodeIn(r, s, i);
    NodeIn(r, s, p);
    assert PeerOk(s.acks, s.nodes[i], p);
    var next := s.nodes[i].nextIndex[p];
    k := Rejections(s.leads, s.nodes[i].log, s.nodes[p].log, next);
    BackOffEnds(r, Peers(n, i), i, s.nodes[i], p, s.nodes[p], next, s.leads);
  }
}

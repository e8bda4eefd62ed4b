/** What commitment means in a state that satisfies the invariant: section 5.4.3 of the Raft paper. */
module Commitment {
  import opened RaftTypes
  import opened Cluster
  import opened LogHistory
  import opened Invariants

  ghost predicate QuorumAcksOk(leads: Leads, acks: set<Ack>, n: nat) {
    && (forall u :: u in leads ==> IsMajority(leads[u].quorum, n))
    && (forall u, a :: u in leads && a in acks ==> QuorumAckOk(leads, u, a))
  }

  /** A log that beats entry m of term t at its election, and whose voters' intermediate leaders
      all carried that entry, carries it as well. */
  lemma BeatsCarries(leads: Leads, u: nat, t: nat, m: nat)
    requires LeadsOk(leads) && u in leads && t in leads && t < u && m < |leads[t].log|
    requires leads[u].base <= |leads[u].log|
    requires var won := leads[u].log[..leads[u].base]; Beats(LastTerm(won), LastIndex(won), t, m)
    requires forall v :: t < v < u && v in leads ==> Carries(leads, v, t, m)
    ensures Carries(leads, u, t, m)
  {
    var log, b := leads[u].log, leads[u].base;
    assert LeadOk(leads, u) && LeadOk(leads, t);
    assert b > 0;
    var v := log[b - 1].term;
    assert AtRoot(leads, log, b - 1);
    if v == t {
      AgreeShorter(log, leads[t].log, b, m + 1);
    } else {
      assert Carries(leads, v, t, m);
      AgreeAt(log, leads[v].log, b, b - 1);
      assert m < b - 1;
      AgreeShorter(log, leads[v].log, b, m + 1);
    }
  }

  /** Figure 3, Leader Completeness: every later leader was elected with the committed entry. */
  lemma {:induction false} Completeness(leads: Leads, acks: set<Ack>, n: nat, t: nat, m: nat, u: nat)
    requires LeadsOk(leads) && QuorumAcksOk(leads, acks, n)
    requires Committed(leads, acks, n, t, m) && t < u && u in leads
    ensures Carries(leads, u, t, m)
    decreases u
  {
    forall v | t < v < u && v in leads ensures Carries(leads, v, t, m) {
      Completeness(leads, acks, n, t, m, v);
    }
    var p := QuorumsMeet(Ackers(acks, n, t, m), leads[u].quorum, n);
    assert QuorumAckOk(leads, u, Ack(p, t, m));
    BeatsCarries(leads, u, t, m);
  }

  lemma SettledCarried(leads: Leads, acks: set<Ack>, n: nat, xs: Log, hi: nat, u: nat)
    requires LeadsOk(leads) && QuorumAcksOk(leads, acks, n)
    requires Settled(leads, acks, n, xs, hi) && hi <= u && u in leads
    ensures Agree(xs, leads[u].log, |xs|)
  {
    if xs == [] {
      assert leads[u].log[..0] == xs[..0];
    } else {
      var t: nat, m: nat :| t <= hi && Committed(leads, acks, n, t, m) && |xs| <= m + 1
        && Agree(xs, leads[t].log, |xs|);
      if t < u {
        Completeness(leads, acks, n, t, m, u);
        AgreeShorter(leads[u].log, leads[t].log, m + 1, |xs|);
      }
    }
  }

  /** Two settled logs of the same length are the same log. */
  lemma SettledSame(leads: Leads, acks: set<Ack>, n: nat, xs: Log, hi: nat, ys: Log, hi': nat)
    requires LeadsOk(leads) && QuorumAcksOk(leads, acks, n)
    requires Settled(leads, acks, n, xs, hi) && Settled(leads, acks, n, ys, hi')
    requires |xs| == |ys|
    ensures xs == ys
  {
    if xs != [] {
      var t: nat, m: nat :| t <= hi && Committed(leads, acks, n, t, m) && |xs| <= m + 1
        && Agree(xs, leads[t].log, |xs|);
      var t': nat, m': nat :| t' <= hi' && Committed(leads, acks, n, t', m') && |ys| <= m' + 1
        && Agree(ys, leads[t'].log, |ys|);
      var u := if t < t' then t' else t;
      assert Settled(leads, acks, n, xs, t) && Settled(leads, acks, n, ys, t');
      SettledCarried(leads, acks, n, xs, t, u);
      SettledCarried(leads, acks, n, ys, t', u);
      assert xs == xs[..|xs|] == leads[u].log[..|xs|] == ys[..|ys|] == ys;
    }
  }

  // ---------------------------------------------------------------- growth

  lemma CommittedKept(leads: Leads, acks: set<Ack>, leads': Leads, acks': set<Ack>, n: nat, t: nat, m: nat)
    requires Committed(leads, acks, n, t, m) && Extends(leads, leads') && acks <= acks'
    ensures Committed(leads', acks', n, t, m)
  {
    assert Grows(leads, leads', t);
    AgreeAt(leads[t].log, leads'[t].log, |leads[t].log|, m);
    SubsetSize(Ackers(acks, n, t, m), Ackers(acks', n, t, m));
  }

  lemma SettledKept(leads: Leads, acks: set<Ack>, leads': Leads, acks': set<Ack>, n: nat, xs: Log, hi: nat, hi': nat)
    requires Settled(leads, acks, n, xs, hi) && hi <= hi'
    requires Extends(leads, leads') && acks <= acks'
    ensures Settled(leads', acks', n, xs, hi')
  {
    if xs != [] {
      var t: nat, m: nat :| t <= hi && Committed(leads, acks, n, t, m) && |xs| <= m + 1
        && Agree(xs, leads[t].log, |xs|);
      CommittedKept(leads, acks, leads', acks', n, t, m);
      GrownAgree(leads, leads', t, xs, |xs|);
    }
  }

  lemma SettledPrefix(leads: Leads, acks: set<Ack>, n: nat, xs: Log, hi: nat, k: nat)
    requires Settled(leads, acks, n, xs, hi) && k <= |xs|
    ensures Settled(leads, acks, n, xs[..k], hi)
  {
    if k > 0 {
      var t: nat, m: nat :| t <= hi && Committed(leads, acks, n, t, m) && |xs| <= m + 1
        && Agree(xs, leads[t].log, |xs|);
      AgreeShorter(xs, leads[t].log, |xs|, k);
      assert xs[..k][..k] == xs[..k];
    }
  }
}

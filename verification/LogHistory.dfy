/** Facts about logs that all grew out of the logs of elected leaders. */
module LogHistory {
  import opened RaftTypes
  import opened NodeSteps
  import opened Cluster

  /** The two logs are the same below index k. */
  ghost predicate Agree(a: Log, b: Log, k: nat) {
    k <= |a| && k <= |b| && a[..k] == b[..k]
  }

  lemma AgreeShorter(a: Log, b: Log, k: nat, j: nat)
    requires Agree(a, b, k) && j <= k
    ensures Agree(a, b, j)
  {
    assert a[..j] == a[..k][..j] && b[..j] == b[..k][..j];
  }

  lemma AgreeAt(a: Log, b: Log, k: nat, j: nat)
    requires Agree(a, b, k) && j < k
    ensures a[j] == b[j]
  {
    assert a[j] == a[..k][j] && b[j] == b[..k][j];
  }

  /** Whatever agrees beyond j agrees at j. */
  lemma AgreeBehind(a: Log, b: Log, j: nat)
    ensures forall x: nat :: Agree(a, b, x) && j < x ==> a[j] == b[j]
  {
    forall x: nat | Agree(a, b, x) && j < x ensures a[j] == b[j] {
      AgreeAt(a, b, x, j);
    }
  }

  lemma AgreeSlice(a: Log, b: Log, k: nat, j: nat)
    requires Agree(a, b, k) && j <= k
    ensures a[j..k] == b[j..k]
  {
    assert a[j..k] == a[..k][j..] && b[j..k] == b[..k][j..];
  }

  /** Entry k is an entry of the log of its term's leader, and so is everything before it. */
  ghost predicate AtRoot(leads: Leads, log: Log, k: nat)
    requires k < |log|
  {
    log[k].term in leads && Agree(log, leads[log[k].term].log, k + 1)
  }

  ghost predicate Rooted(leads: Leads, log: Log) {
    forall k: nat :: k < |log| ==> AtRoot(leads, log, k)
  }

  ghost predicate LeadOk(leads: Leads, t: nat)
    requires t in leads
  {
    var l := leads[t];
    && l.base <= |l.log|
    && Rooted(leads, l.log)
    && (forall k :: 0 <= k < l.base ==> l.log[k].term < t)
    && (forall k :: l.base <= k < |l.log| ==> l.log[k].term == t)
  }

  ghost predicate LeadsOk(leads: Leads) {
    forall t :: t in leads ==> LeadOk(leads, t)
  }

  ghost predicate TermsBelow(log: Log, bound: nat) {
    forall k :: 0 <= k < |log| ==> log[k].term < bound
  }

  // ---------------------------------------------------------------- log matching

  /** Figure 3, Log Matching: equal terms at an index make the logs equal up to it. */
  lemma EqualTermsAgree(leads: Leads, a: Log, b: Log, k: nat)
    requires Rooted(leads, a) && Rooted(leads, b)
    requires k < |a| && k < |b| && a[k].term == b[k].term
    ensures Agree(a, b, k + 1)
  {
    assert AtRoot(leads, a, k) && AtRoot(leads, b, k);
  }

  lemma TermsSorted(leads: Leads, log: Log, j: nat, k: nat)
    requires LeadsOk(leads) && Rooted(leads, log)
    requires j <= k < |log|
    ensures log[j].term <= log[k].term
  {
    assert AtRoot(leads, log, k);
    var t := log[k].term;
    assert LeadOk(leads, t);
    AgreeAt(log, leads[t].log, k + 1, j);
  }

  // ---------------------------------------------------------------- growing leads

  /** leads only gains terms, and the logs in it only gain entries at the end. */
  ghost predicate Grows(leads: Leads, leads': Leads, t: nat)
    requires t in leads
  {
    && t in leads'
    && leads'[t].id == leads[t].id
    && leads'[t].base == leads[t].base
    && leads'[t].quorum == leads[t].quorum
    && Agree(leads[t].log, leads'[t].log, |leads[t].log|)
  }

  ghost predicate Extends(leads: Leads, leads': Leads) {
    forall t :: t in leads ==> Grows(leads, leads', t)
  }

  lemma ExtendsSelf(leads: Leads)
    ensures Extends(leads, leads)
  {
    forall t | t in leads ensures Grows(leads, leads, t) {}
  }

  lemma ExtendsTrans(a: Leads, b: Leads, c: Leads)
    requires Extends(a, b) && Extends(b, c)
    ensures Extends(a, c)
  {
    forall t | t in a ensures Grows(a, c, t) {
      assert Grows(a, b, t) && Grows(b, c, t);
      AgreeShorter(b[t].log, c[t].log, |b[t].log|, |a[t].log|);
    }
  }

  lemma GrownAgree(leads: Leads, leads': Leads, t: nat, log: Log, k: nat)
    requires Extends(leads, leads') && t in leads && k <= |leads[t].log|
    ensures t in leads' && (Agree(log, leads'[t].log, k) <==> Agree(log, leads[t].log, k))
  {
    assert Grows(leads, leads', t);
    AgreeShorter(leads[t].log, leads'[t].log, |leads[t].log|, k);
  }

  lemma RootedGrows(leads: Leads, leads': Leads, log: Log)
    requires Rooted(leads, log) && Extends(leads, leads')
    ensures Rooted(leads', log)
  {
    forall k: nat | k < |log| ensures AtRoot(leads', log, k) {
      assert AtRoot(leads, log, k);
      GrownAgree(leads, leads', log[k].term, log, k + 1);
    }
  }

  lemma RootedAgree(leads: Leads, log: Log, a: Log, k: nat)
    requires Rooted(leads, a) && Agree(log, a, k)
    ensures Rooted(leads, log[..k])
  {
    forall j: nat | j < k ensures AtRoot(leads, log[..k], j) {
      assert AtRoot(leads, a, j);
      AgreeAt(log, a, k, j);
      assert log[..k][..j + 1] == a[..k][..j + 1] == a[..j + 1];
    }
  }

  // ---------------------------------------------------------------- merging

  lemma MatchLenMeaning(log: Log, at: nat, es: Log)
    requires at <= |log|
    ensures forall j :: 0 <= j < MatchLen(log, at, es) ==> log[at + j].term == es[j].term
    ensures var k := MatchLen(log, at, es);
      k < |es| && at + k < |log| ==> log[at + k].term != es[k].term
    decreases es
  {
    if at < |log| && es != [] && log[at].term == es[0].term {
      MatchLenMeaning(log, at + 1, es[1..]);
      var k := MatchLen(log, at + 1, es[1..]);
      assert MatchLen(log, at, es) == 1 + k;
      forall j | 0 <= j < 1 + k ensures log[at + j].term == es[j].term {
        if j > 0 { assert es[j] == es[1..][j - 1] && log[at + j] == log[at + 1 + (j - 1)]; }
      }
      if 1 + k < |es| && at + 1 + k < |log| { assert es[1 + k] == es[1..][k]; }
    }
  }

  lemma RunStartMeaning(log: Log, i: nat)
    requires i < |log|
    ensures forall k :: RunStart(log, i) <= k <= i ==> log[k].term == log[i].term
    ensures RunStart(log, i) > 0 ==> log[RunStart(log, i) - 1].term != log[i].term
  {
    if i > 0 && log[i - 1].term == log[i].term { RunStartMeaning(log, i - 1); }
  }

  /** The logs agree on every matched entry, and no further when an entry is left unmatched. */
  lemma MatchLenAgrees(leads: Leads, log: Log, lead: Log, at: nat, es: Log)
    requires Rooted(leads, log) && Rooted(leads, lead)
    requires Agree(log, lead, at) && at + |es| <= |lead| && es == lead[at..at + |es|]
    ensures var k := MatchLen(log, at, es);
      && Agree(log, lead, at + k)
      && (k < |es| ==> forall x: nat :: Agree(log, lead, x) ==> x <= at + k)
  {
    var k := MatchLen(log, at, es);
    MatchLenMeaning(log, at, es);
    if k > 0 {
      assert es[k - 1] == lead[at + k - 1];
      EqualTermsAgree(leads, log, lead, at + k - 1);
    }
    if k < |es| {
      var last := at + k;
      assert es[k] == lead[last];
      AgreeBehind(log, lead, last);
    }
  }

  /** The follower's log agrees with the sender's log `lead` below `at` and receives es, the next
      entries of lead. The merged log agrees with lead through es, and it keeps every prefix that
      the two logs shared. */
  lemma MergeAgrees(leads: Leads, log: Log, lead: Log, at: nat, es: Log)
    requires Rooted(leads, log) && Rooted(leads, lead)
    requires Agree(log, lead, at) && at + |es| <= |lead| && es == lead[at..at + |es|]
    ensures var m := Merge(log, at, es);
      && Rooted(leads, m)
      && Agree(m, lead, at + |es|)
      && (m == log || m == lead[..at + |es|])
      && forall x: nat :: Agree(log, lead, x) ==> Agree(m, lead, x) && Agree(m, log, x)
  {
    hide Rooted;
    var k := MatchLen(log, at, es);
    MatchLenAgrees(leads, log, lead, at, es);
    var m := Merge(log, at, es);
    if k < |es| {
      assert m == log[..at + k] + es[k..] == lead[..at + k] + lead[at + k..at + |es|] == lead[..at + |es|];
      RootedAgree(leads, lead, lead, at + |es|);
      forall x: nat | Agree(log, lead, x) ensures Agree(m, lead, x) && Agree(m, log, x) {
        assert m[..x] == lead[..x];
      }
    }
  }

  // ---------------------------------------------------------------- later leaders

  /** The leader of term u was elected with the entries of term t's leader through index m. */
  ghost predicate Carries(leads: Leads, u: nat, t: nat, m: nat) {
    && u in leads && t in leads && m < leads[u].base
    && Agree(leads[u].log, leads[t].log, m + 1)
  }

  /** Some leader of a term in (t, hi] was elected without those entries. */
  ghost predicate Overtaken(leads: Leads, t: nat, m: nat, hi: nat) {
    exists u :: t < u <= hi && u in leads && !Carries(leads, u, t, m)
  }

  lemma CarriesKept(leads: Leads, leads': Leads, u: nat, t: nat, m: nat)
    requires Extends(leads, leads') && LeadsOk(leads)
    requires u in leads && t in leads && m < |leads[t].log|
    ensures Carries(leads', u, t, m) <==> Carries(leads, u, t, m)
  {
    assert Grows(leads, leads', u) && Grows(leads, leads', t);
    assert LeadOk(leads, u);
    if m < leads[u].base {
      GrownAgree(leads, leads', u, leads[t].log, m + 1);
      GrownAgree(leads, leads', t, leads'[u].log, m + 1);
    }
  }

  lemma OvertakenKept(leads: Leads, leads': Leads, t: nat, m: nat, hi: nat, hi': nat)
    requires Extends(leads, leads') && LeadsOk(leads)
    requires t in leads && m < |leads[t].log| && hi <= hi'
    requires Overtaken(leads, t, m, hi)
    ensures Overtaken(leads', t, m, hi')
  {
    var u :| t < u <= hi && u in leads && !Carries(leads, u, t, m);
    CarriesKept(leads, leads', u, t, m);
    assert Grows(leads, leads', u);
  }

  // ---------------------------------------------------------------- quorums

  ghost predicate IsMajority(q: set<nat>, n: nat) {
    q <= Ids(n) && |q| * 2 > n
  }

  lemma SubsetSize(a: set<nat>, b: set<nat>)
    requires a <= b
    ensures |a| <= |b|
  {
    assert |b - a| == |b| - |a|;
  }

  /** Any two majorities share a node. */
  lemma QuorumsMeet(a: set<nat>, b: set<nat>, n: nat) returns (p: nat)
    requires IsMajority(a, n) && IsMajority(b, n)
    ensures p in a && p in b
  {
    if a * b == {} {
      assert |a + b| == |a| + |b|;
      SubsetSize(a + b, Ids(n));
    }
    p :| p in a * b;
  }
}

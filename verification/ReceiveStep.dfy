/** Receiving AppendEntries keeps the invariant, and loses nothing that was committed. */
module ReceiveStep {
  import opened RaftTypes
  import opened NodeSteps
  import opened Cluster
  import opened LogHistory
  import opened Votes
  import opened Invariants
  import opened Commitment
  import opened Preservation
  import opened Steps
  import opened AppendSteps

  // ---------------------------------------------------------------- the receiving node

  /** nd' keeps every prefix of nd's log that the sender's log shares. */
  ghost predicate KeepsShared(nd: Node, nd': Node, lead: Log) {
    forall x: nat :: Agree(nd.log, lead, x) ==> Agree(nd'.log, lead, x) && Agree(nd'.log, nd.log, x)
  }

  /** A settled prefix of the receiver's log is a prefix of the sender's log. */
  lemma SettledShared(leads: Leads, acks: set<Ack>, n: nat, log: Log, k: nat, hi: nat, u: nat)
    requires LeadsOk(leads) && QuorumAcksOk(leads, acks, n)
    requires k <= |log| && Settled(leads, acks, n, log[..k], hi) && hi <= u && u in leads
    ensures Agree(log, leads[u].log, k)
  {
    SettledCarried(leads, acks, n, log[..k], hi, u);
    assert log[..k][..k] == log[..k];
  }

  lemma MergeShares(r: Repairs, leads: Leads, acks: set<Ack>, n: nat, nd: Node, a: AppendArgs)
    requires LeadsOk(leads) && Rooted(leads, nd.log) && Matches(r, nd.log, a)
    requires a.term in leads && Excerpt(leads[a.term].log, a)
    ensures var lead := leads[a.term].log; var m := Merge(nd.log, a.prevLogIndex + 1, a.entries);
      && Rooted(leads, m)
      && Agree(m, lead, LastSent(a) + 1)
      && (m == nd.log || m == lead[..LastSent(a) + 1])
      && KeepsShared(nd, nd.(log := m), lead)
  {
    var lead := leads[a.term].log;
    assert LeadOk(leads, a.term);
    if a.prevLogIndex >= 0 {
      EqualTermsAgree(leads, nd.log, lead, a.prevLogIndex);
    }
    MergeAgrees(leads, nd.log, lead, a.prevLogIndex + 1, a.entries);
  }

  lemma MergedTerms(leads: Leads, log: Log, m: Log, t: nat, k: nat)
    requires LeadsOk(leads) && t in leads && k <= |leads[t].log|
    requires TermsBelow(log, t + 1) && (m == log || m == leads[t].log[..k])
    ensures TermsBelow(m, t + 1)
  {
    assert LeadOk(leads, t);
  }

  lemma MergedCommit(leads: Leads, acks: set<Ack>, n: nat, nd: Node, m: Log, a: AppendArgs)
    requires CommitOk(leads, acks, n, nd) && Agree(m, nd.log, nd.commitIndex + 1)
    requires a.term in leads && a.term == nd.term && Agree(m, leads[a.term].log, LastSent(a) + 1)
    requires a.leaderCommit <= LastSent(a) < |leads[a.term].log|
    requires Settled(leads, acks, n, leads[a.term].log[..a.leaderCommit + 1], a.term)
    ensures CommitOk(leads, acks, n, AdvanceCommit(nd.(log := m), a.leaderCommit))
    ensures AdvanceCommit(nd.(log := m), a.leaderCommit).commitIndex
      == if a.leaderCommit > nd.commitIndex then a.leaderCommit else nd.commitIndex
  {
    AgreeShorter(m, leads[a.term].log, LastSent(a) + 1, a.leaderCommit + 1);
  }

  lemma MergedSent(nd: Node, m: Log, leaderCommit: Index)
    requires SentOk(nd) && Agree(m, nd.log, nd.commitIndex + 1) && leaderCommit < |m|
    ensures SentOk(AdvanceCommit(nd.(log := m), leaderCommit))
  {
    forall k | 0 <= k < |nd.sent| ensures nd.sent[k].command == m[k].command {
      AgreeAt(m, nd.log, nd.commitIndex + 1, k);
    }
  }

  lemma FollowerParts(r: Repairs, leads: Leads, acks: set<Ack>, n: nat, nd: Node, i: nat)
    requires nd.role == Follower && Rooted(leads, nd.log) && TermsBelow(nd.log, nd.term + 1)
    requires CommitOk(leads, acks, n, nd) && SentOk(nd)
    ensures NodeOk(r, leads, acks, n, Persist(nd), i)
  {}

  /** What the merge of a matching request does to a follower of the request's term. */
  ghost predicate Merged(leads: Leads, nd: Node, nd': Node, a: AppendArgs) {
    && a.term in leads
    && Agree(nd'.log, leads[a.term].log, LastSent(a) + 1)
    && KeepsShared(nd, nd', leads[a.term].log)
    && nd'.commitIndex == if a.leaderCommit > nd.commitIndex then a.leaderCommit else nd.commitIndex
  }

  /** The node after a matching request of its own term. */
  lemma MergedOk(r: Repairs, leads: Leads, acks: set<Ack>, n: nat, nd: Node, i: nat, a: AppendArgs)
    requires NodeOk(r, leads, acks, n, nd, i) && nd.role == Follower
    requires LeadsOk(leads) && QuorumAcksOk(leads, acks, n)
    requires CallOk(leads, acks, n, AppendCall(i, a)) && a.term == nd.term && Matches(r, nd.log, a)
    ensures var nd' := Persist(AdvanceCommit(nd.(log := Merge(nd.log, a.prevLogIndex + 1, a.entries)), a.leaderCommit));
      NodeOk(r, leads, acks, n, nd', i) && Merged(leads, nd, nd', a)
  {
    hide Merge, Rooted, Settled, BooksOk, DiskOk, LeadsOk, QuorumAcksOk;
    var m := Merge(nd.log, a.prevLogIndex + 1, a.entries);
    var lead := leads[a.term].log;
    assert KeepsShared(nd, nd.(log := m), lead) && Agree(m, lead, LastSent(a) + 1) && Rooted(leads, m)
      && (m == nd.log || m == lead[..LastSent(a) + 1]) by {
      MergeShares(r, leads, acks, n, nd, a);
    }
    assert Agree(m, nd.log, nd.commitIndex + 1) by {
      SettledShared(leads, acks, n, nd.log, nd.commitIndex + 1, nd.term, a.term);
    }
    MergedTerms(leads, nd.log, m, a.term, LastSent(a) + 1);
    MergedCommit(leads, acks, n, nd, m, a);
    MergedSent(nd, m, a.leaderCommit);
    FollowerParts(r, leads, acks, n, AdvanceCommit(nd.(log := m), a.leaderCommit), i);
  }

  lemma PersistedOk(r: Repairs, leads: Leads, acks: set<Ack>, n: nat, nd: Node, i: nat)
    requires NodeOk(r, leads, acks, n, nd, i)
    ensures NodeOk(r, leads, acks, n, Persist(nd), i)
  {
    SameBooks(acks, n, nd, Persist(nd), i);
  }

  lemma YieldOk(r: Repairs, leads: Leads, acks: set<Ack>, n: nat, nd: Node, i: nat, term: nat)
    requires NodeOk(r, leads, acks, n, nd, i) && term >= nd.term
    ensures NodeOk(r, leads, acks, n, Yield(r, nd, term), i)
    ensures Yield(r, nd, term).role == Follower && Yield(r, nd, term).term == term
    ensures Yield(r, nd, term).log == nd.log && Yield(r, nd, term).commitIndex == nd.commitIndex
  {
    FollowerOk(r, leads, acks, n, nd, i, term);
  }

  /** Everything the cluster needs to know about the receiving node. */
  ghost predicate Received(leads: Leads, nd: Node, nd': Node, a: AppendArgs, reply: AppendReply) {
    && a.term in leads
    && nd.term <= nd'.term
    && (nd'.log == nd.log || (nd'.term == a.term && KeepsShared(nd, nd', leads[a.term].log)))
    && (reply.success ==> reply.term == a.term == nd'.term && Agree(nd'.log, leads[a.term].log, LastSent(a) + 1))
    && (reply.term == a.term && !reply.success ==> reply.conflictIndex <= a.prevLogIndex + 1)
    && nd.commitIndex <= nd'.commitIndex
    && (nd'.role != Follower || nd'.term != a.term ==> nd' == nd.(disk := nd'.disk))
  }

  lemma HandleCurrentOk(r: Repairs, leads: Leads, acks: set<Ack>, n: nat, nd: Node, i: nat, a: AppendArgs)
    requires r.mergeAtStart && NodeOk(r, leads, acks, n, nd, i) && nd.role == Follower
    requires LeadsOk(leads) && QuorumAcksOk(leads, acks, n)
    requires CallOk(leads, acks, n, AppendCall(i, a)) && a.term == nd.term
    ensures var (nd', reply) := AppendCurrent(r, nd, a);
      NodeOk(r, leads, acks, n, nd', i) && Received(leads, nd, nd', a, reply)
  {
    if Matches(r, nd.log, a) {
      MergedOk(r, leads, acks, n, nd, i, a);
    } else {
      PersistedOk(r, leads, acks, n, nd, i);
    }
  }

  lemma HandleYieldedOk(r: Repairs, leads: Leads, acks: set<Ack>, n: nat, nd: Node, i: nat, a: AppendArgs)
    requires r.mergeAtStart && NodeOk(r, leads, acks, n, nd, i) && a.term >= nd.term
    requires LeadsOk(leads) && QuorumAcksOk(leads, acks, n)
    requires CallOk(leads, acks, n, AppendCall(i, a))
    ensures var (nd', reply) := AppendCurrent(r, Yield(r, nd, a.term), a);
      NodeOk(r, leads, acks, n, nd', i) && Received(leads, nd, nd', a, reply)
  {
    hide AppendCurrent, NodeOk, Settled, LeadsOk, QuorumAcksOk, Excerpt, Yield, Agree;
    YieldOk(r, leads, acks, n, nd, i, a.term);
    HandleCurrentOk(r, leads, acks, n, Yield(r, nd, a.term), i, a);
  }

  lemma HandleAppendOk(r: Repairs, leads: Leads, acks: set<Ack>, n: nat, nd: Node, i: nat, a: AppendArgs)
    requires r.mergeAtStart && NodeOk(r, leads, acks, n, nd, i)
    requires LeadsOk(leads) && QuorumAcksOk(leads, acks, n)
    requires CallOk(leads, acks, n, AppendCall(i, a))
    ensures var (nd', reply) := HandleAppend(r, nd, a);
      NodeOk(r, leads, acks, n, nd', i) && Received(leads, nd, nd', a, reply)
  {
    hide AppendCurrent, NodeOk, Settled, LeadsOk, QuorumAcksOk, Excerpt, Hint, Yield;
    if nd.role != Dead && a.term >= nd.term {
      HandleYieldedOk(r, leads, acks, n, nd, i, a);
    } else {
      PersistedOk(r, leads, acks, n, nd, i);
    }
  }

  // ---------------------------------------------------------------- the cluster

  lemma HoldsReceived(leads: Leads, nd: Node, nd': Node, a: AppendArgs, reply: AppendReply, t: nat, m: nat)
    requires LeadsOk(leads) && Received(leads, nd, nd', a, reply)
    requires t in leads && m < |leads[t].log| && t <= nd.term && Holds(leads, nd, t, m)
    ensures Holds(leads, nd', t, m)
  {
    if nd'.log == nd.log {
      HoldsLater(leads, nd, nd', t, m);
    } else if Overtaken(leads, t, m, nd.term) {
      HoldsLater(leads, nd, nd'.(log := nd.log), t, m);
      assert Overtaken(leads, t, m, nd'.term);
    } else if t < a.term && !Carries(leads, a.term, t, m) {
      assert Overtaken(leads, t, m, nd'.term);
    } else {
      assert Agree(nd.log, leads[a.term].log, m + 1);
    }
  }

  lemma DeliveryReceived(s: State, i: nat, nd': Node, a: AppendArgs, reply: AppendReply, d: Delivery)
    requires LeadsOk(s.leads) && QuorumAcksOk(s.leads, s.acks, |s.nodes|)
    requires i < |s.nodes| && Received(s.leads, s.nodes[i], nd', a, reply)
    requires DeliveryOk(s.leads, s.acks, s.nodes, d) && d.node == i
    ensures Agree(nd'.log, d.prefix, |d.prefix|)
  {
    if nd'.log != s.nodes[i].log {
      SettledCarried(s.leads, s.acks, |s.nodes|, d.prefix, d.entry.term, a.term);
      assert Agree(s.nodes[i].log, s.leads[a.term].log, |d.prefix|);
    }
  }

  lemma ReceiveMessages(s: State, s': State, x: AppendAnswer)
    requires MessageInv(s) && x.call in s.appendCalls && |s'.nodes| == |s.nodes|
    requires s'.leads == s.leads && s.acks <= s'.acks && s'.rounds == s.rounds && s'.appendCalls == s.appendCalls
    requires s'.appendAnswers == s.appendAnswers + {x} && AnswerOk(s.appendCalls, s'.acks, x)
    ensures MessageInv(s')
  {
    ExtendsSelf(s.leads);
    forall c | c in s'.appendCalls ensures CallOk(s'.leads, s'.acks, |s'.nodes|, c) {
      CallMono(s.leads, s.acks, s'.leads, s'.acks, |s.nodes|, c);
    }
    forall y | y in s'.appendAnswers ensures AnswerOk(s'.appendCalls, s'.acks, y) {
      if y in s.appendAnswers { assert AnswerOk(s.appendCalls, s.acks, y); }
    }
  }

  lemma ReceiveAcks(r: Repairs, s: State, s': State, i: nat, a: AppendArgs, reply: AppendReply)
    requires Inv(r, s) && Moves(s, s', i) && s'.leads == s.leads && s'.grants == s.grants
    requires Received(s.leads, s.nodes[i], s'.nodes[i], a, reply) && LastSent(a) < |s.leads[a.term].log|
    requires s'.acks == s.acks + if reply.success then AcksThrough(i, a.term, LastSent(a)) else {}
    ensures AckInv(s')
  {
    forall b | b in s.acks && b.node == i ensures Holds(s'.leads, s'.nodes[i], b.term, b.index) {
      assert AckOk(s, b);
      HoldsReceived(s.leads, s.nodes[i], s'.nodes[i], a, reply, b.term, b.index);
    }
    forall b | b in s'.acks && b !in s.acks
      ensures b.node == i && s.nodes[i].term <= b.term && AckOk(s', b)
    {
      AgreeShorter(s'.nodes[i].log, s.leads[a.term].log, LastSent(a) + 1, b.index + 1);
    }
    AcksGrow(r, s, s', i);
  }

  lemma ReceiveDeliveries(s: State, s': State, i: nat, a: AppendArgs, reply: AppendReply)
    requires LeadsOk(s.leads) && QuorumAcksOk(s.leads, s.acks, |s.nodes|) && DeliveryInv(s)
    requires Moves(s, s', i) && s'.delivered == s.delivered
    requires Received(s.leads, s.nodes[i], s'.nodes[i], a, reply)
    ensures DeliveryInv(s')
  {
    forall d | d in s'.delivered ensures DeliveryOk(s'.leads, s'.acks, s'.nodes, d) {
      if d.node == i { DeliveryReceived(s, i, s'.nodes[i], a, reply, d); }
      DeliveryMove(s, s', i, d);
    }
  }

  lemma ReceiveAppendInv(r: Repairs, s: State, call: AppendCall)
    requires Inv(r, s) && r.mergeAtStart
    ensures Inv(r, DoReceiveAppend(r, s, call))
  {
    if call in s.appendCalls && call.to < |s.nodes| {
      var i, a, n := call.to, call.args, |s.nodes|;
      var s' := DoReceiveAppend(r, s, call);
      var reply := HandleAppend(r, s.nodes[i], a).1;
      ReceiveAppendKeeps(r, s, call);
      NodeOf(r, s, i);
      QuorumsOf(r, s);
      assert CallOk(s.leads, s.acks, n, call);
      HandleAppendOk(r, s.leads, s.acks, n, s.nodes[i], i, a);
      SelfMoves(s, s', i);
      NoRerunOf(r, s, i);
      NodeMono(r, s.leads, s.acks, s'.leads, s'.acks, n, s'.nodes[i], i);
      NodesMove(r, s, s', i);
      ElectionsMove(s, s', i);
      ReceiveMessages(s, s', AppendAnswer(call, reply));
      ReceiveAcks(r, s, s', i, a, reply);
      ReceiveDeliveries(s, s', i, a, reply);
    }
  }
}

/** What a step that changes one node leaves of the invariant. */
module Preservation {
  import opened RaftTypes
  import opened Cluster
  import opened LogHistory
  import opened Votes
  import opened Invariants
  import opened Commitment

  /** From s to s', only node i and the leaderships of node i change; everything else grows. */
  ghost predicate Moves(s: State, s': State, i: nat) {
    && i < |s.nodes| == |s'.nodes|
    && s'.nodes == s.nodes[i := s'.nodes[i]]
    && s.nodes[i].term <= s'.nodes[i].term
    && Extends(s.leads, s'.leads)
    && (forall t :: t in s.leads && s.leads[t].id != i ==> s'.leads[t] == s.leads[t])
    && s.acks <= s'.acks
    && s.grants <= s'.grants
    && s.appendCalls <= s'.appendCalls
  }

  /** Node i stands as candidate only in a new term, or with the log it already stood with. */
  ghost predicate StandsStill(nd: Node, nd': Node) {
    nd'.role == Candidate ==> nd'.term > nd.term || (nd.role == Candidate && nd'.log == nd.log)
  }

  /** Node i does not stand again in a term it has led. */
  ghost predicate NoRerun(leads: Leads, nd: Node, i: nat) {
    forall t :: t in leads && leads[t].id == i && t == nd.term ==> nd.votedFor == i && nd.role != Candidate
  }

  // ---------------------------------------------------------------- nodes

  lemma NodeMono(r: Repairs, leads: Leads, acks: set<Ack>, leads': Leads, acks': set<Ack>, n: nat, nd: Node, i: nat)
    requires NodeOk(r, leads, acks, n, nd, i)
    requires Extends(leads, leads') && acks <= acks'
    requires forall t :: t in leads && leads[t].id == i ==> leads'[t] == leads[t]
    ensures NodeOk(r, leads', acks', n, nd, i)
  {
    RootedGrows(leads, leads', nd.log);
    SettledKept(leads, acks, leads', acks', n, nd.log[..nd.commitIndex + 1], nd.term, nd.term);
    assert BooksOk(acks', n, nd, i) by {
      if nd.role == Leader {
        forall p | p in Peers(n, i) ensures PeerOk(acks', nd, p) { assert PeerOk(acks, nd, p); }
      }
    }
  }

  lemma NodesMove(r: Repairs, s: State, s': State, i: nat)
    requires NodesInv(r, s) && Moves(s, s', i)
    requires NodeOk(r, s'.leads, s'.acks, |s'.nodes|, s'.nodes[i], i)
    ensures NodesInv(r, s')
  {
    forall j | 0 <= j < |s'.nodes| ensures NodeOk(r, s'.leads, s'.acks, |s'.nodes|, s'.nodes[j], j) {
      if j != i {
        NodeMono(r, s.leads, s.acks, s'.leads, s'.acks, |s.nodes|, s.nodes[j], j);
      }
    }
  }

  // ---------------------------------------------------------------- elections

  lemma VotedForKept(grants: set<Grant>, grants': set<Grant>, p: nat, t: nat, c: nat)
    requires VotedFor(grants, p, t, c) && grants <= grants'
    ensures VotedFor(grants', p, t, c)
  {}

  lemma LeaderMove(s: State, s': State, i: nat, t: nat)
    requires Moves(s, s', i) && NoRerun(s.leads, s'.nodes[i], i)
    requires t in s.leads && LeaderOk(s, t)
    ensures t in s'.leads && LeaderOk(s', t)
  {
    assert Grows(s.leads, s'.leads, t);
    var l := s.leads[t];
    forall p | p in l.quorum ensures VotedFor(s'.grants, p, t, l.id) {
      VotedForKept(s.grants, s'.grants, p, t, l.id);
    }
  }

  lemma ClaimMove(s: State, s': State, i: nat, c: nat, t: nat, lastIndex: Index, lastTerm: int)
    requires Moves(s, s', i) && StandsStill(s.nodes[i], s'.nodes[i])
    requires ClaimOk(s, c, t, lastIndex, lastTerm)
    ensures ClaimOk(s', c, t, lastIndex, lastTerm)
  {}

  lemma TallyMove(s: State, s': State, i: nat, e: nat)
    requires Moves(s, s', i)
    requires e < |s.elections| && TallyOk(s, e)
    requires e < |s'.elections| && s'.elections[e] == s.elections[e]
    ensures TallyOk(s', e)
  {
    var el := s.elections[e];
    forall p | p in el.granted + {el.id} ensures VotedFor(s'.grants, p, el.tally.term, el.id) {
      VotedForKept(s.grants, s'.grants, p, el.tally.term, el.id);
    }
  }

  // ---------------------------------------------------------------- messages

  lemma CallMono(leads: Leads, acks: set<Ack>, leads': Leads, acks': set<Ack>, n: nat, c: AppendCall)
    requires CallOk(leads, acks, n, c) && Extends(leads, leads') && acks <= acks'
    ensures CallOk(leads', acks', n, c)
  {
    var a := c.args;
    var log, log' := leads[a.term].log, leads'[a.term].log;
    assert Grows(leads, leads', a.term);
    AgreeShorter(log, log', |log|, LastSent(a) + 1);
    AgreeSlice(log, log', LastSent(a) + 1, a.prevLogIndex + 1);
    if a.prevLogIndex >= 0 { AgreeAt(log, log', |log|, a.prevLogIndex); }
    AgreeShorter(log, log', |log|, a.leaderCommit + 1);
    SettledKept(leads, acks, leads', acks', n, log[..a.leaderCommit + 1], a.term, a.term);
  }

  lemma MessagesMove(s: State, s': State, i: nat)
    requires Moves(s, s', i) && MessageInv(s)
    requires s'.rounds <= s.rounds
    requires s'.appendCalls == s.appendCalls && s'.appendAnswers == s.appendAnswers
    ensures MessageInv(s')
  {
    forall x | x in s'.rounds ensures RoundOk(|s'.nodes|, x) {}
    forall c | c in s'.appendCalls ensures CallOk(s'.leads, s'.acks, |s'.nodes|, c) {
      CallMono(s.leads, s.acks, s'.leads, s'.acks, |s.nodes|, c);
    }
    forall x | x in s'.appendAnswers ensures AnswerOk(s'.appendCalls, s'.acks, x) {
      assert AnswerOk(s.appendCalls, s.acks, x);
    }
  }

  // ---------------------------------------------------------------- acknowledgements

  lemma HoldsMono(leads: Leads, leads': Leads, nd: Node, t: nat, m: nat)
    requires LeadsOk(leads) && Extends(leads, leads')
    requires t in leads && m < |leads[t].log| && Holds(leads, nd, t, m)
    ensures Holds(leads', nd, t, m)
  {
    GrownAgree(leads, leads', t, nd.log, m + 1);
    if Overtaken(leads, t, m, nd.term) { OvertakenKept(leads, leads', t, m, nd.term, nd.term); }
  }

  lemma HoldsLater(leads: Leads, nd: Node, nd': Node, t: nat, m: nat)
    requires LeadsOk(leads)
    requires t in leads && m < |leads[t].log| && Holds(leads, nd, t, m)
    requires nd'.log == nd.log && nd.term <= nd'.term
    ensures Holds(leads, nd', t, m)
  {
    if Overtaken(leads, t, m, nd.term) {
      ExtendsSelf(leads);
      OvertakenKept(leads, leads, t, m, nd.term, nd'.term);
    }
  }

  lemma AckMove(s: State, s': State, i: nat, a: Ack)
    requires LeadsOk(s.leads) && Moves(s, s', i) && AckOk(s, a)
    requires a.node == i ==> Holds(s'.leads, s'.nodes[i], a.term, a.index)
    ensures AckOk(s', a)
  {
    assert Grows(s.leads, s'.leads, a.term);
    if a.node != i { HoldsMono(s.leads, s'.leads, s.nodes[a.node], a.term, a.index); }
  }

  lemma GrantAckMono(leads: Leads, leads': Leads, g: Grant, a: Ack)
    requires LeadsOk(leads) && Extends(leads, leads')
    requires a.term in leads && a.index < |leads[a.term].log|
    requires GrantAckOk(leads, g, a)
    ensures GrantAckOk(leads', g, a)
  {
    assert Grows(leads, leads', a.term);
    AgreeAt(leads[a.term].log, leads'[a.term].log, |leads[a.term].log|, a.index);
    if g.term !in leads' && Overtaken(leads, a.term, a.index, g.term) {
      OvertakenKept(leads, leads', a.term, a.index, g.term, g.term);
    }
  }

  lemma QuorumAckMono(leads: Leads, leads': Leads, u: nat, a: Ack)
    requires LeadsOk(leads) && Extends(leads, leads')
    requires a.term in leads && a.index < |leads[a.term].log|
    requires u in leads && QuorumAckOk(leads, u, a)
    ensures u in leads' && QuorumAckOk(leads', u, a)
  {
    assert Grows(leads, leads', a.term) && Grows(leads, leads', u);
    AgreeAt(leads[a.term].log, leads'[a.term].log, |leads[a.term].log|, a.index);
    AgreeShorter(leads[u].log, leads'[u].log, |leads[u].log|, leads[u].base);
    if a.term < u && Overtaken(leads, a.term, a.index, u - 1) {
      OvertakenKept(leads, leads', a.term, a.index, u - 1, u - 1);
    }
  }

  /** With no new grants, acknowledgements or leaders, only node i's own log matters. */
  lemma AcksMove(s: State, s': State, i: nat)
    requires LeadsOk(s.leads) && Moves(s, s', i) && AckInv(s)
    requires s'.acks == s.acks && s'.grants == s.grants && s'.leads == s.leads
    requires s'.nodes[i].log == s.nodes[i].log
    ensures AckInv(s')
  {
    forall a | a in s'.acks ensures AckOk(s', a) {
      assert AckOk(s, a);
      if a.node == i { HoldsLater(s.leads, s.nodes[i], s'.nodes[i], a.term, a.index); }
      AckMove(s, s', i, a);
    }
  }

  // ---------------------------------------------------------------- deliveries

  lemma DeliveryMove(s: State, s': State, i: nat, d: Delivery)
    requires Moves(s, s', i) && DeliveryOk(s.leads, s.acks, s.nodes, d)
    requires d.node == i ==> Agree(s'.nodes[i].log, d.prefix, |d.prefix|)
    ensures DeliveryOk(s'.leads, s'.acks, s'.nodes, d)
  {
    SettledKept(s.leads, s.acks, s'.leads, s'.acks, |s.nodes|, d.prefix, d.entry.term, d.entry.term);
  }

  lemma DeliveriesMove(s: State, s': State, i: nat)
    requires Moves(s, s', i) && DeliveryInv(s)
    requires s'.delivered == s.delivered
    requires s.nodes[i].log <= s'.nodes[i].log
    ensures DeliveryInv(s')
  {
    forall d | d in s'.delivered ensures DeliveryOk(s'.leads, s'.acks, s'.nodes, d) {
      assert DeliveryOk(s.leads, s.acks, s.nodes, d);
      if d.node == i {
        assert s'.nodes[i].log[..|d.prefix|] == s.nodes[i].log[..|d.prefix|];
      }
      DeliveryMove(s, s', i, d);
    }
  }

  // ---------------------------------------------------------------- quiet steps

  /** Node i changes, but its log does not, and no message or history is added. */
  lemma QuietStep(r: Repairs, s: State, s': State, i: nat)
    requires Inv(r, s) && VotesInv(s') && Moves(s, s', i)
    requires StandsStill(s.nodes[i], s'.nodes[i]) && NoRerun(s.leads, s'.nodes[i], i)
    requires NodeOk(r, s.leads, s.acks, |s.nodes|, s'.nodes[i], i)
    requires s'.nodes[i].log == s.nodes[i].log
    requires s'.leads == s.leads && s'.acks == s.acks && s'.grants == s.grants
    requires s'.rounds <= s.rounds
    requires s'.appendCalls == s.appendCalls && s'.appendAnswers == s.appendAnswers
    requires s'.voteCalls == s.voteCalls && s'.wins == s.wins && s'.delivered == s.delivered
    requires forall e :: 0 <= e < |s'.elections| ==> TallyOk(s', e)
    ensures Inv(r, s')
  {
    NodesMove(r, s, s', i);
    QuietElections(s, s', i);
    MessagesMove(s, s', i);
    AcksMove(s, s', i);
    DeliveriesMove(s, s', i);
  }

  lemma QuietElections(s: State, s': State, i: nat)
    requires ElectionInv(s) && Moves(s, s', i)
    requires StandsStill(s.nodes[i], s'.nodes[i]) && NoRerun(s.leads, s'.nodes[i], i)
    requires s'.leads == s.leads && s'.grants == s.grants
    requires s'.voteCalls == s.voteCalls && s'.wins == s.wins
    requires forall e :: 0 <= e < |s'.elections| ==> TallyOk(s', e)
    ensures ElectionInv(s')
  {
    forall t | t in s'.leads ensures LeaderOk(s', t) { LeaderMove(s, s', i, t); }
    forall g | g in s'.grants ensures GrantClaimOk(s', g) {
      assert GrantClaimOk(s, g);
      ClaimMove(s, s', i, g.candidate, g.term, g.lastIndex, g.lastTerm);
    }
    forall c | c in s'.voteCalls ensures VoteCallClaimOk(s', c) {
      assert VoteCallClaimOk(s, c);
      ClaimMove(s, s', i, c.args.candidateId, c.args.term, c.args.lastLogIndex, c.args.lastLogTerm);
    }
  }
}

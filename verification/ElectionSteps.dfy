/** Timeouts, votes and vote replies keep the invariant, and a term is won at most once. */
module ElectionSteps {
  import opened RaftTypes
  import opened NodeSteps
  import opened Cluster
  import opened Commands
  import opened LogHistory
  import opened Votes
  import opened Invariants
  import opened Commitment
  import opened Preservation
  import opened Steps

  /** A log that holds an acknowledged entry is beaten only by logs that beat the entry. */
  lemma UpToDateBeats(leads: Leads, nd: Node, lastTerm: int, lastIndex: int, a: Ack)
    requires LeadsOk(leads) && Rooted(leads, nd.log) && OwnTerm(leads, a)
    requires UpToDate(lastTerm, lastIndex, nd.log)
    requires Agree(nd.log, leads[a.term].log, a.index + 1)
    ensures Beats(lastTerm, lastIndex, a.term, a.index)
  {
    AgreeAt(nd.log, leads[a.term].log, a.index + 1, a.index);
    TermsSorted(leads, nd.log, a.index, |nd.log| - 1);
  }

  /** The acknowledgement part of the invariant when node i votes in term g.term. */
  lemma VoteAcks(r: Repairs, s: State, s': State, i: nat, g: Grant)
    requires LeadsOk(s.leads) && NodesInv(r, s) && AckInv(s) && Moves(s, s', i)
    requires s'.leads == s.leads && s'.acks == s.acks && s'.nodes[i].log == s.nodes[i].log
    requires s'.grants == s.grants || s'.grants == s.grants + {g}
    requires g.voter == i && s.nodes[i].term <= g.term && UpToDate(g.lastTerm, g.lastIndex, s.nodes[i].log)
    ensures AckInv(s')
  {
    NodeOf(r, s, i);
    forall a | a in s'.acks ensures AckOk(s', a) {
      assert AckOk(s, a);
      if a.node == i { HoldsLater(s.leads, s.nodes[i], s'.nodes[i], a.term, a.index); }
      AckMove(s, s', i, a);
    }
    forall h, a | h in s'.grants && a in s'.acks ensures GrantAckOk(s'.leads, h, a) {
      if h !in s.grants { VoteAck(s, i, g, a); }
    }
  }

  lemma VoteAck(s: State, i: nat, g: Grant, a: Ack)
    requires LeadsOk(s.leads) && i < |s.nodes| && Rooted(s.leads, s.nodes[i].log) && AckOk(s, a)
    requires g.voter == i && s.nodes[i].term <= g.term && UpToDate(g.lastTerm, g.lastIndex, s.nodes[i].log)
    ensures GrantAckOk(s.leads, g, a)
  {
    if a.node == i && OwnTerm(s.leads, a) {
      if Agree(s.nodes[i].log, s.leads[a.term].log, a.index + 1) {
        UpToDateBeats(s.leads, s.nodes[i], g.lastTerm, g.lastIndex, a);
      } else {
        ExtendsSelf(s.leads);
        OvertakenKept(s.leads, s.leads, a.term, a.index, s.nodes[i].term, g.term);
      }
    }
  }

  /** The election part of the invariant when node i votes. */
  lemma VoteElections(s: State, s': State, i: nat, g: Grant)
    requires ElectionInv(s) && Moves(s, s', i)
    requires StandsStill(s.nodes[i], s'.nodes[i]) && NoRerun(s.leads, s'.nodes[i], i)
    requires s'.leads == s.leads && s'.voteCalls == s.voteCalls && s'.wins == s.wins
    requires s'.grants == s.grants || (s'.grants == s.grants + {g} && GrantClaimOk(s', g))
    requires forall e :: 0 <= e < |s'.elections| ==> TallyOk(s', e)
    ensures ElectionInv(s')
  {
    forall t | t in s'.leads ensures LeaderOk(s', t) { LeaderMove(s, s', i, t); }
    forall h | h in s'.grants ensures GrantClaimOk(s', h) {
      if h in s.grants {
        assert GrantClaimOk(s, h);
        ClaimMove(s, s', i, h.candidate, h.term, h.lastIndex, h.lastTerm);
      }
    }
    forall c | c in s'.voteCalls ensures VoteCallClaimOk(s', c) {
      assert VoteCallClaimOk(s, c);
      ClaimMove(s, s', i, c.args.candidateId, c.args.term, c.args.lastLogIndex, c.args.lastLogTerm);
    }
  }

  // ---------------------------------------------------------------- timeouts

  lemma CandidateOk(r: Repairs, leads: Leads, acks: set<Ack>, n: nat, nd: Node, i: nat)
    requires NodeOk(r, leads, acks, n, nd, i)
    ensures NodeOk(r, leads, acks, n, StartElection(r, i, nd), i)
  {
    hide Settled, Rooted;
    ExtendsSelf(leads);
    SettledKept(leads, acks, leads, acks, n, nd.log[..nd.commitIndex + 1], nd.term, nd.term + 1);
  }

  lemma TimeoutTallies(r: Repairs, s: State, id: nat)
    requires forall e :: 0 <= e < |s.elections| ==> TallyOk(s, e)
    requires id < |s.nodes| && s.nodes[id].role in {Follower, Candidate}
    requires Moves(s, DoTimeout(r, s, id), id)
    ensures var s' := DoTimeout(r, s, id); forall e :: 0 <= e < |s'.elections| ==> TallyOk(s', e)
  {
    var s' := DoTimeout(r, s, id);
    forall e | 0 <= e < |s'.elections| ensures TallyOk(s', e) {
      if e < |s.elections| {
        TallyMove(s, s', id, e);
      } else {
        var nd := s'.nodes[id];
        assert Grant(id, nd.term, id, LastIndex(nd.log), LastTerm(nd.log)) in s'.grants;
        assert VotedFor(s'.grants, id, nd.term, id);
      }
    }
  }

  lemma TimeoutInv(r: Repairs, s: State, id: nat)
    requires Inv(r, s)
    ensures Inv(r, DoTimeout(r, s, id))
  {
    hide NodeOk, NodesInv, LeadsOk, AckInv, MessageInv, DeliveryInv, Moves, VotesInv, TallyOk, LeaderOk;
    if id < |s.nodes| && s.nodes[id].role in {Follower, Candidate} {
      var s' := DoTimeout(r, s, id);
      var nd := s'.nodes[id];
      var g := Grant(id, nd.term, id, LastIndex(nd.log), LastTerm(nd.log));
      TimeoutKeeps(r, s, id);
      SelfMoves(s, s', id);
      NodeOf(r, s, id);
      CandidateOk(r, s.leads, s.acks, |s.nodes|, s.nodes[id], id);
      NodesMove(r, s, s', id);
      NoRerunOf(r, s, id);
      TimeoutTallies(r, s, id);
      VoteElections(s, s', id, g);
      MessagesMove(s, s', id);
      VoteAcks(r, s, s', id, g);
      DeliveriesMove(s, s', id);
    }
  }

  // ---------------------------------------------------------------- vote requests

  lemma SendVoteInv(r: Repairs, s: State, e: nat, p: nat)
    requires Inv(r, s)
    ensures Inv(r, DoSendVote(s, e, p))
  {
    var s' := DoSendVote(s, e, p);
    SendVoteKeeps(s, e, p);
    SendVoteElections(s, e, p);
    forall a | a in s'.acks ensures AckOk(s', a) { assert AckOk(s, a); }
  }

  lemma SendVoteElections(s: State, e: nat, p: nat)
    requires ElectionInv(s)
    ensures ElectionInv(DoSendVote(s, e, p))
  {
    hide IsMajority, VotedFor;
    var s' := DoSendVote(s, e, p);
    forall t | t in s'.leads ensures LeaderOk(s', t) { assert LeaderOk(s, t); }
    forall g | g in s'.grants ensures GrantClaimOk(s', g) { assert GrantClaimOk(s, g); }
    forall c | c in s'.voteCalls ensures VoteCallClaimOk(s', c) {
      if c in s.voteCalls { assert VoteCallClaimOk(s, c); } else { assert TallyOk(s, e); }
    }
    forall k | 0 <= k < |s'.elections| ensures TallyOk(s', k) { assert TallyOk(s, k); }
  }

  /** Writing a vote, or the vote there already was. */
  lemma RevotedOk(r: Repairs, leads: Leads, acks: set<Ack>, n: nat, nd: Node, i: nat, vote: int)
    requires NodeOk(r, leads, acks, n, nd, i)
    ensures NodeOk(r, leads, acks, n, Persist(nd.(votedFor := vote)), i)
  {
    SameBooks(acks, n, nd, Persist(nd.(votedFor := vote)), i);
  }

  lemma HandleVoteOk(r: Repairs, leads: Leads, acks: set<Ack>, n: nat, nd: Node, i: nat, a: VoteArgs)
    requires NodeOk(r, leads, acks, n, nd, i)
    ensures NodeOk(r, leads, acks, n, HandleVote(r, nd, a).0, i)
  {
    if nd.role != Dead {
      var nd1 := SeeTerm(r, nd, a.term);
      if a.term > nd.term { FollowerOk(r, leads, acks, n, nd, i, a.term); }
      RevotedOk(r, leads, acks, n, nd1, i, if Grants(r, nd, a) then a.candidateId else nd1.votedFor);
    }
  }

  lemma HandleVoteSame(r: Repairs, nd: Node, a: VoteArgs)
    ensures nd.term <= HandleVote(r, nd, a).0.term && HandleVote(r, nd, a).0.log == nd.log
    ensures HandleVote(r, nd, a).1.voteGranted ==> nd.term <= a.term && UpToDate(a.lastLogTerm, a.lastLogIndex, nd.log)
  {}

  lemma ReceiveVoteInv(r: Repairs, s: State, call: VoteCall)
    requires Inv(r, s)
    ensures Inv(r, DoReceiveVote(r, s, call))
  {
    hide LeadsOk, NodesInv, MessageInv, AckInv, DeliveryInv, Moves, NodeOk, HandleVote, TallyOk, LeaderOk;
    if call in s.voteCalls && call.to < |s.nodes| {
      var i := call.to;
      var s' := DoReceiveVote(r, s, call);
      ReceiveVoteKeeps(r, s, call);
      assert VoteCallOk(s, call) && VoteCallClaimOk(s, call);
      NodeOf(r, s, i);
      HandleVoteSame(r, s.nodes[i], call.args);
      HandleVoteOk(r, s.leads, s.acks, |s.nodes|, s.nodes[i], i, call.args);
      SelfMoves(s, s', i);
      NodesMove(r, s, s', i);
      NoRerunOf(r, s, i);
      ReceiveVoteElections(r, s, call);
      MessagesMove(s, s', i);
      ReceiveVoteAcks(r, s, call);
      DeliveriesMove(s, s', i);
    }
  }

  lemma ReceiveVoteAcks(r: Repairs, s: State, call: VoteCall)
    requires LeadsOk(s.leads) && NodesInv(r, s) && AckInv(s)
    requires call in s.voteCalls && call.to < |s.nodes|
    requires Moves(s, DoReceiveVote(r, s, call), call.to)
    ensures AckInv(DoReceiveVote(r, s, call))
  {
    hide HandleVote, UpToDate, NodesInv, LeadsOk, AckInv, Moves;
    HandleVoteSame(r, s.nodes[call.to], call.args);
    var s' := DoReceiveVote(r, s, call);
    if HandleVote(r, s.nodes[call.to], call.args).1.voteGranted {
      VoteAcks(r, s, s', call.to, GrantOf(call));
    } else {
      AcksMove(s, s', call.to);
    }
  }

  lemma ReceiveVoteElections(r: Repairs, s: State, call: VoteCall)
    requires ElectionInv(s) && call in s.voteCalls && call.to < |s.nodes|
    requires VoterOk(s.nodes[call.to], call.to) && call.args.candidateId != call.to
    requires Moves(s, DoReceiveVote(r, s, call), call.to)
    requires NoRerun(s.leads, s.nodes[call.to], call.to)
    requires forall t :: t in s.leads && s.leads[t].id == call.to ==> t <= s.nodes[call.to].term
    ensures ElectionInv(DoReceiveVote(r, s, call))
  {
    hide TallyOk, LeaderOk;
    var i, a := call.to, call.args;
    var s' := DoReceiveVote(r, s, call);
    assert VoteCallClaimOk(s, call);
    assert StandsStill(s.nodes[i], s'.nodes[i]) && NoRerun(s.leads, s'.nodes[i], i);
    ClaimMove(s, s', i, a.candidateId, a.term, a.lastLogIndex, a.lastLogTerm);
    forall e | 0 <= e < |s'.elections| ensures TallyOk(s', e) { TallyMove(s, s', i, e); }
    VoteElections(s, s', i, GrantOf(call));
  }

  // ---------------------------------------------------------------- vote replies

  /** One node voted both for a standing candidate and for the leader of that term. */
  lemma SameCandidate(s: State, id: nat, g: Grant, h: Grant)
    requires id < |s.nodes| && s.nodes[id].role == Candidate
    requires g.voter == h.voter && g.term == h.term == s.nodes[id].term && g.candidate == id
    requires h.term in s.leads && s.leads[h.term].id == h.candidate
    requires GrantOk(s, h) && Loyal(s.leads, g) && SameVote(g, h)
    ensures h.candidate == id
  {}

  /** A candidate with a majority of the votes of its term is the first to have one. */
  lemma NotLedYet(s: State, id: nat, q: set<nat>)
    requires VotesInv(s) && id < |s.nodes| && s.nodes[id].role == Candidate
    requires forall t :: t in s.leads ==> LeaderOk(s, t)
    requires forall g :: g in s.grants ==> Loyal(s.leads, g)
    requires IsMajority(q, |s.nodes|)
    requires forall p :: p in q ==> VotedFor(s.grants, p, s.nodes[id].term, id)
    ensures s.nodes[id].term !in s.leads
  {
    var u := s.nodes[id].term;
    if u in s.leads {
      assert LeaderOk(s, u);
      var l := s.leads[u].id;
      var p := QuorumsMeet(q, s.leads[u].quorum, |s.nodes|);
      assert VotedFor(s.grants, p, u, id) && VotedFor(s.grants, p, u, l);
      var g :| g in s.grants && g.voter == p && g.term == u && g.candidate == id;
      var h :| h in s.grants && h.voter == p && h.term == u && h.candidate == l;
      SameCandidate(s, id, g, h);
    }
  }

  lemma TallyReturn(r: Repairs, s: State, s': State, e: nat, p: nat, reply: Option<VoteReply>)
    requires forall k :: 0 <= k < |s.elections| ==> TallyOk(s, k)
    requires e < |s.elections| && p in s.elections[e].pending && ElectionOk(s, e)
    requires s' == DoVoteReturn(r, s, e, p, reply)
    requires s.elections[e].id < |s.nodes| && Moves(s, s', s.elections[e].id)
    requires Counts(r, s.nodes[s.elections[e].id], s.elections[e].tally, reply) ==>
      VotedFor(s.grants, p, s.elections[e].tally.term, s.elections[e].id)
    ensures forall k :: 0 <= k < |s'.elections| ==> TallyOk(s', k)
  {
    forall k | 0 <= k < |s'.elections| ensures TallyOk(s', k) {
      if k != e { TallyMove(s, s', s.elections[e].id, k); } else { assert TallyOk(s, e); }
    }
  }

  lemma AfterReplyOk(r: Repairs, leads: Leads, acks: set<Ack>, n: nat, nd: Node, i: nat, t: Tally, reply: Option<VoteReply>)
    requires r.sameElection && NodeOk(r, leads, acks, n, nd, i)
    ensures var nd' := AfterReply(r, nd, t, reply);
      NodeOk(r, leads, acks, n, nd', i) && nd'.log == nd.log && (nd' == nd || (nd'.role == Follower && nd'.term > nd.term))
  {
    if AfterReply(r, nd, t, reply) != nd {
      FollowerOk(r, leads, acks, n, nd, i, reply.value.term);
    }
  }

  /** The reply is one vote more or less; the election goes on or is lost. */
  lemma NoWinInv(r: Repairs, s: State, e: nat, p: nat, reply: Option<VoteReply>)
    requires Inv(r, s) && r.sameElection
    requires e < |s.elections| && p in s.elections[e].pending && s.elections[e].id < |s.nodes|
    requires Counts(r, s.nodes[s.elections[e].id], s.elections[e].tally, reply) ==>
      VotedFor(s.grants, p, s.elections[e].tally.term, s.elections[e].id)
    requires !Wins(r, PeersOf(s, s.elections[e].id), s.nodes[s.elections[e].id], s.elections[e].tally, reply)
    ensures Inv(r, DoVoteReturn(r, s, e, p, reply))
    ensures Extends(s.leads, DoVoteReturn(r, s, e, p, reply).leads)
  {
    var el := s.elections[e];
    var id := el.id;
    var s' := DoVoteReturn(r, s, e, p, reply);
    VoteReturnKeeps(r, s, e, p, reply);
    NodeOf(r, s, id);
    AfterReplyOk(r, s.leads, s.acks, |s.nodes|, s.nodes[id], id, el.tally, reply);
    SelfMoves(s, s', id);
    NoRerunOf(r, s, id);
    assert ElectionOk(s, e);
    TallyReturn(r, s, s', e, p, reply);
    QuietStep(r, s, s', id);
  }

  // ---------------------------------------------------------------- winning

  lemma WinLeads(leads: Leads, u: nat, id: nat, log: Log, q: set<nat>)
    requires LeadsOk(leads) && u !in leads && Rooted(leads, log) && TermsBelow(log, u)
    ensures var leads' := leads[u := Lead(id, |log|, log, q)];
      Extends(leads, leads') && LeadsOk(leads')
  {
    var leads' := leads[u := Lead(id, |log|, log, q)];
    forall t | t in leads ensures Grows(leads, leads', t) {}
    RootedGrows(leads, leads', log);
    forall t | t in leads' ensures LeadOk(leads', t) {
      if t != u {
        assert LeadOk(leads, t);
        RootedGrows(leads, leads', leads[t].log);
      }
    }
  }

  lemma WinNode(r: Repairs, leads: Leads, acks: set<Ack>, n: nat, nd: Node, i: nat, q: set<nat>)
    requires NodeOk(r, leads, acks, n, nd, i) && nd.role == Candidate
    requires LeadsOk(leads) && nd.term !in leads
    ensures var leads' := leads[nd.term := Lead(i, |nd.log|, nd.log, q)];
      NodeOk(r, leads', acks, n, StartLeader(nd, Peers(n, i)), i)
  {
    hide Settled, LeadsOk, Rooted;
    var leads' := leads[nd.term := Lead(i, |nd.log|, nd.log, q)];
    var nd' := StartLeader(nd, Peers(n, i));
    WinLeads(leads, nd.term, i, nd.log, q);
    RootedGrows(leads, leads', nd.log);
    SettledKept(leads, acks, leads', acks, n, nd.log[..nd.commitIndex + 1], nd.term, nd.term);
    forall p | p in Peers(n, i) ensures PeerOk(acks, nd', p) {}
  }

  /** The winner's log beats everything its voters acknowledged in earlier terms. */
  lemma WinQuorumAck(s: State, leads': Leads, id: nat, a: Ack)
    requires LeadsOk(s.leads) && Extends(s.leads, leads') && id < |s.nodes| && a in s.acks && AckOk(s, a)
    requires s.nodes[id].role == Candidate
    requires var u := s.nodes[id].term;
      && u !in s.leads && u in leads'
      && leads'[u].log == s.nodes[id].log && leads'[u].base == |leads'[u].log|
      && forall p :: p in leads'[u].quorum ==> VotedFor(s.grants, p, u, id)
    requires forall g :: g in s.grants ==> GrantClaimOk(s, g) && GrantAckOk(s.leads, g, a)
    ensures QuorumAckOk(leads', s.nodes[id].term, a)
  {
    var u := s.nodes[id].term;
    assert Grows(s.leads, leads', a.term);
    AgreeAt(s.leads[a.term].log, leads'[a.term].log, |s.leads[a.term].log|, a.index);
    if a.node in leads'[u].quorum && a.term < u && OwnTerm(s.leads, a) {
      assert VotedFor(s.grants, a.node, u, id);
      var g :| g in s.grants && g.voter == a.node && g.term == u && g.candidate == id;
      assert GrantClaimOk(s, g) && GrantAckOk(s.leads, g, a);
      assert leads'[u].log[..leads'[u].base] == leads'[u].log;
      if Overtaken(s.leads, a.term, a.index, u) {
        assert Overtaken(s.leads, a.term, a.index, u - 1);
        OvertakenKept(s.leads, leads', a.term, a.index, u - 1, u - 1);
      }
    }
  }

  lemma WinAcks(s: State, s': State, id: nat)
    requires LeadsOk(s.leads) && AckInv(s) && ElectionInv(s) && Moves(s, s', id)
    requires s.nodes[id].role == Candidate && s'.acks == s.acks && s'.grants == s.grants
    requires s'.nodes[id].log == s.nodes[id].log && s'.nodes[id].term == s.nodes[id].term
    requires var u := s.nodes[id].term;
      && u !in s.leads && s'.leads.Keys == s.leads.Keys + {u}
      && s'.leads[u].log == s.nodes[id].log && s'.leads[u].base == |s'.leads[u].log|
      && forall p :: p in s'.leads[u].quorum ==> VotedFor(s.grants, p, u, id)
    ensures AckInv(s')
  {
    forall a | a in s'.acks ensures AckOk(s', a) {
      assert AckOk(s, a);
      HoldsMono(s.leads, s'.leads, s.nodes[a.node], a.term, a.index);
      if a.node == id { HoldsLater(s.leads, s.nodes[id], s'.nodes[id], a.term, a.index); }
      HoldsMono(s.leads, s'.leads, s'.nodes[a.node], a.term, a.index);
      AckMove(s, s', id, a);
    }
    forall g, a | g in s'.grants && a in s'.acks ensures GrantAckOk(s'.leads, g, a) {
      assert AckOk(s, a) && GrantAckOk(s.leads, g, a);
      GrantAckMono(s.leads, s'.leads, g, a);
    }
    forall u, a | u in s'.leads && a in s'.acks ensures QuorumAckOk(s'.leads, u, a) {
      assert AckOk(s, a);
      if u in s.leads { QuorumAckMono(s.leads, s'.leads, u, a); } else { WinQuorumAck(s, s'.leads, id, a); }
    }
  }

  lemma WinElections(r: Repairs, s: State, s': State, id: nat)
    requires ElectionInv(s) && VotesInv(s) && Moves(s, s', id) && VoterOk(s'.nodes[id], id)
    requires s.nodes[id].role == Candidate && s'.nodes[id].role == Leader
    requires s'.nodes[id].term == s.nodes[id].term && s'.grants == s.grants && s'.voteCalls == s.voteCalls
    requires var u := s.nodes[id].term;
      && u !in s.leads && s'.leads.Keys == s.leads.Keys + {u}
      && s'.leads[u].id == id && IsMajority(s'.leads[u].quorum, |s.nodes|)
      && (forall p :: p in s'.leads[u].quorum ==> VotedFor(s.grants, p, u, id))
      && s'.wins == s.wins + {Win(id, u)}
    requires NoRerun(s.leads, s.nodes[id], id)
    requires forall e :: 0 <= e < |s'.elections| ==> TallyOk(s', e)
    ensures ElectionInv(s')
  {
    var u := s.nodes[id].term;
    forall t | t in s'.leads ensures LeaderOk(s', t) {
      if t in s.leads { LeaderMove(s, s', id, t); }
    }
    forall g | g in s'.grants ensures GrantClaimOk(s', g) {
      assert GrantClaimOk(s, g) && GrantOk(s, g);
      ClaimMove(s, s', id, g.candidate, g.term, g.lastIndex, g.lastTerm);
      if g.term in s.leads { assert Grows(s.leads, s'.leads, g.term); }
    }
    forall c | c in s'.voteCalls ensures VoteCallClaimOk(s', c) {
      assert VoteCallClaimOk(s, c);
      ClaimMove(s, s', id, c.args.candidateId, c.args.term, c.args.lastLogIndex, c.args.lastLogTerm);
    }
    forall w | w in s'.wins ensures WinOk(s'.leads, w) {
      if w in s.wins {
        assert WinOk(s.leads, w);
        assert Grows(s.leads, s'.leads, w.term);
      }
    }
  }

  /** The votes counted in an election that is won, with the winner's own. */
  lemma WinnersQuorum(r: Repairs, s: State, e: nat, p: nat, reply: Option<VoteReply>)
    requires r.sameElection && e < |s.elections| && p in s.elections[e].pending
    requires TallyOk(s, e) && ElectionOk(s, e)
    requires var el := s.elections[e];
      && Wins(r, PeersOf(s, el.id), s.nodes[el.id], el.tally, reply)
      && (Counts(r, s.nodes[el.id], el.tally, reply) ==> VotedFor(s.grants, p, el.tally.term, el.id))
    ensures var el := s.elections[e]; var nd := s.nodes[el.id];
      var q := el.granted + (if Counts(r, nd, el.tally, reply) then {p} else {}) + {el.id};
      && nd.role == Candidate && nd.term == el.tally.term && AfterReply(r, nd, el.tally, reply) == nd
      && IsMajority(q, |s.nodes|)
      && forall v :: v in q ==> VotedFor(s.grants, v, nd.term, el.id)
  {
    var el := s.elections[e];
    var nd := s.nodes[el.id];
    var granted := el.granted + if Counts(r, nd, el.tally, reply) then {p} else {};
    assert |granted| == |el.granted| + if Counts(r, nd, el.tally, reply) then 1 else 0;
    assert |granted + {el.id}| == |granted| + 1;
  }

  /** From s to s', candidate id becomes the leader of its term with the votes of q. */
  ghost predicate Crowned(s: State, s': State, id: nat, q: set<nat>)
    requires id < |s.nodes|
  {
    var nd := s.nodes[id];
    && nd.role == Candidate
    && IsMajority(q, |s.nodes|)
    && (forall v :: v in q ==> VotedFor(s.grants, v, nd.term, id))
    && s'.nodes == s.nodes[id := StartLeader(nd, Peers(|s.nodes|, id))]
    && s'.leads == s.leads[nd.term := Lead(id, |nd.log|, nd.log, q)]
    && s'.wins == s.wins + {Win(id, nd.term)}
    && s'.acks == s.acks && s'.grants == s.grants && s'.voteCalls == s.voteCalls && s'.rounds == s.rounds
    && s'.appendCalls == s.appendCalls && s'.appendAnswers == s.appendAnswers && s'.delivered == s.delivered
  }

  lemma CrownedMoves(s: State, s': State, id: nat, q: set<nat>)
    requires id < |s.nodes| && Crowned(s, s', id, q)
    requires LeadsOk(s.leads) && Rooted(s.leads, s.nodes[id].log) && RoleOk(s.leads, s.nodes[id], id)
    requires s.nodes[id].term !in s.leads
    ensures Moves(s, s', id) && LeadsOk(s'.leads)
  {
    WinLeads(s.leads, s.nodes[id].term, id, s.nodes[id].log, q);
  }

  lemma CrownedInv(r: Repairs, s: State, s': State, id: nat, q: set<nat>)
    requires Inv(r, s) && VotesInv(s') && id < |s.nodes| && Crowned(s, s', id, q)
    requires s.nodes[id].term !in s.leads && Moves(s, s', id) && LeadsOk(s'.leads)
    requires forall e :: 0 <= e < |s'.elections| ==> TallyOk(s', e)
    ensures Inv(r, s')
  {
    hide NodeOk, NodesInv, LeadsOk, AckInv, MessageInv, DeliveryInv, Moves, TallyOk;
    NodeOf(r, s, id);
    WinNode(r, s.leads, s.acks, |s.nodes|, s.nodes[id], id, q);
    NodesMove(r, s, s', id);
    NoRerunOf(r, s, id);
    WinElections(r, s, s', id);
    MessagesMove(s, s', id);
    WinAcks(s, s', id);
    DeliveriesMove(s, s', id);
  }

  lemma WinInv(r: Repairs, s: State, e: nat, p: nat, reply: Option<VoteReply>)
    requires Inv(r, s) && r.sameElection
    requires e < |s.elections| && p in s.elections[e].pending && s.elections[e].id < |s.nodes|
    requires Counts(r, s.nodes[s.elections[e].id], s.elections[e].tally, reply) ==>
      VotedFor(s.grants, p, s.elections[e].tally.term, s.elections[e].id)
    requires Wins(r, PeersOf(s, s.elections[e].id), s.nodes[s.elections[e].id], s.elections[e].tally, reply)
    ensures Inv(r, DoVoteReturn(r, s, e, p, reply))
    ensures Extends(s.leads, DoVoteReturn(r, s, e, p, reply).leads)
  {
    var el := s.elections[e];
    var id := el.id;
    var s' := DoVoteReturn(r, s, e, p, reply);
    var q := el.granted + (if Counts(r, s.nodes[id], el.tally, reply) then {p} else {}) + {id};
    assert TallyOk(s, e) && ElectionOk(s, e);
    WinnersQuorum(r, s, e, p, reply);
    forall g | g in s.grants ensures Loyal(s.leads, g) { assert GrantClaimOk(s, g); }
    NotLedYet(s, id, q);
    NodeOf(r, s, id);
    assert Crowned(s, s', id, q);
    CrownedMoves(s, s', id, q);
    VoteReturnKeeps(r, s, e, p, reply);
    TallyReturn(r, s, s', e, p, reply);
    CrownedInv(r, s, s', id, q);
  }

  lemma VoteReturnInv(r: Repairs, s: State, e: nat, p: nat, reply: Option<VoteReply>)
    requires Inv(r, s) && r.sameElection
    requires reply.Some? ==>
      exists x :: x in s.voteAnswers && x.call.election == e && x.call.to == p && x.reply == reply.value
    ensures Inv(r, DoVoteReturn(r, s, e, p, reply))
    ensures Extends(s.leads, DoVoteReturn(r, s, e, p, reply).leads)
  {
    ExtendsSelf(s.leads);
    if e < |s.elections| && p in s.elections[e].pending && s.elections[e].id < |s.nodes| {
      var el := s.elections[e];
      if Counts(r, s.nodes[el.id], el.tally, reply) {
        var x :| x in s.voteAnswers && x.call.election == e && x.call.to == p && x.reply == reply.value;
        assert VoteAnswerOk(s, x) && VoteCallOk(s, x.call);
        assert GrantOf(x.call) in s.grants;
        assert VotedFor(s.grants, p, el.tally.term, el.id);
      }
      if Wins(r, PeersOf(s, el.id), s.nodes[el.id], el.tally, reply) {
        WinInv(r, s, e, p, reply);
      } else {
        NoWinInv(r, s, e, p, reply);
      }
    }
  }
}

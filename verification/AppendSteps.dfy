/** Submitting, sending and receiving entries keep the invariant. */
module AppendSteps {
  import opened RaftTypes
  import opened NodeSteps
  import opened Cluster
  import opened Commands
  import opened LogHistory
  import opened Votes
  import opened Invariants
  import opened Commitment
  import opened Preservation
  import opened Steps

  /** Elections are not touched by a step that keeps grants, vote requests, wins and elections. */
  lemma ElectionsMove(s: State, s': State, i: nat)
    requires ElectionInv(s) && Moves(s, s', i)
    requires StandsStill(s.nodes[i], s'.nodes[i]) && NoRerun(s.leads, s'.nodes[i], i)
    requires s'.leads.Keys == s.leads.Keys && s'.grants == s.grants
    requires s'.voteCalls == s.voteCalls && s'.wins == s.wins && s'.elections == s.elections
    ensures ElectionInv(s')
  {
    forall t | t in s'.leads ensures LeaderOk(s', t) { LeaderMove(s, s', i, t); }
    forall g | g in s'.grants ensures GrantClaimOk(s', g) {
      assert GrantClaimOk(s, g);
      ClaimMove(s, s', i, g.candidate, g.term, g.lastIndex, g.lastTerm);
      if g.term in s.leads { assert Grows(s.leads, s'.leads, g.term); }
    }
    forall c | c in s'.voteCalls ensures VoteCallClaimOk(s', c) {
      assert VoteCallClaimOk(s, c);
      ClaimMove(s, s', i, c.args.candidateId, c.args.term, c.args.lastLogIndex, c.args.lastLogTerm);
    }
    forall e | 0 <= e < |s'.elections| ensures TallyOk(s', e) { TallyMove(s, s', i, e); }
    forall w | w in s'.wins ensures WinOk(s'.leads, w) {
      assert WinOk(s.leads, w);
      assert Grows(s.leads, s'.leads, w.term);
    }
  }

  /** New acknowledgements by node i in its own current term concern no vote it has given. */
  lemma NewAckOk(r: Repairs, s: State, leads': Leads, i: nat, a: Ack)
    requires Inv(r, s) && i < |s.nodes| && a.node == i && s.nodes[i].term <= a.term
    requires Extends(s.leads, leads') && leads'.Keys == s.leads.Keys
    ensures forall g :: g in s.grants ==> GrantAckOk(leads', g, a)
    ensures forall u :: u in leads' ==> QuorumAckOk(leads', u, a)
  {
    forall g | g in s.grants ensures GrantAckOk(leads', g, a) { GrantBound(r, s, g); }
    forall u | u in leads' ensures QuorumAckOk(leads', u, a) {
      assert Grows(s.leads, leads', u);
      assert LeadOk(s.leads, u);
      if i in s.leads[u].quorum { QuorumBound(r, s, u, i); }
    }
  }

  /** The acknowledgement part of the invariant when node i moves and acknowledges more. */
  lemma AcksGrow(r: Repairs, s: State, s': State, i: nat)
    requires Inv(r, s) && Moves(s, s', i)
    requires s'.grants == s.grants && s'.leads.Keys == s.leads.Keys
    requires forall a :: a in s.acks && a.node == i ==> Holds(s'.leads, s'.nodes[i], a.term, a.index)
    requires forall a :: a in s'.acks && a !in s.acks ==>
      a.node == i && s.nodes[i].term <= a.term && AckOk(s', a)
    ensures AckInv(s')
  {
    forall a | a in s'.acks ensures AckOk(s', a) {
      if a in s.acks { AckMove(s, s', i, a); }
    }
    forall g, a | g in s'.grants && a in s'.acks ensures GrantAckOk(s'.leads, g, a) {
      if a in s.acks {
        assert AckOk(s, a);
        GrantAckMono(s.leads, s'.leads, g, a);
      } else {
        NewAckOk(r, s, s'.leads, i, a);
      }
    }
    forall u, a | u in s'.leads && a in s'.acks ensures QuorumAckOk(s'.leads, u, a) {
      if a in s.acks {
        assert AckOk(s, a);
        QuorumAckMono(s.leads, s'.leads, u, a);
      } else {
        NewAckOk(r, s, s'.leads, i, a);
      }
    }
  }

  // ---------------------------------------------------------------- submit

  lemma SubmitLeads(leads: Leads, t: nat, e: LogEntry)
    requires LeadsOk(leads) && t in leads && e.term == t
    ensures var leads' := leads[t := leads[t].(log := leads[t].log + [e])];
      Extends(leads, leads') && LeadsOk(leads')
  {
    var log := leads[t].log;
    var leads' := leads[t := leads[t].(log := log + [e])];
    assert (log + [e])[..|log|] == log[..|log|];
    forall u | u in leads ensures Grows(leads, leads', u) {}
    forall u | u in leads' ensures LeadOk(leads', u) {
      assert LeadOk(leads, u);
      RootedGrows(leads, leads', leads[u].log);
      if u == t {
        forall k: nat | k < |log + [e]| ensures AtRoot(leads', log + [e], k) {
          if k < |log| {
            assert AtRoot(leads', log, k);
            assert (log + [e])[..k + 1] == log[..k + 1];
          }
        }
      }
    }
  }

  lemma SubmitNode(r: Repairs, leads: Leads, acks: set<Ack>, n: nat, nd: Node, i: nat, command: Command)
    requires NodeOk(r, leads, acks, n, nd, i) && nd.role == Leader && LeadsOk(leads)
    ensures var nd' := Submit(nd, command).0;
      NodeOk(r, leads[nd.term := leads[nd.term].(log := nd'.log)], acks + {Ack(i, nd.term, |nd.log|)}, n, nd', i)
  {
    hide Settled, Rooted, BooksOk;
    var e := LogEntry(command, nd.term);
    var nd' := Submit(nd, command).0;
    var leads' := leads[nd.term := leads[nd.term].(log := nd'.log)];
    var acks' := acks + {Ack(i, nd.term, |nd.log|)};
    SubmitLeads(leads, nd.term, e);
    assert LeadOk(leads', nd.term);
    assert nd'.log[..nd.commitIndex + 1] == nd.log[..nd.commitIndex + 1];
    SettledKept(leads, acks, leads', acks', n, nd.log[..nd.commitIndex + 1], nd.term, nd.term);
    SubmitBooks(acks, n, nd, i, command);
  }

  lemma SubmitBooks(acks: set<Ack>, n: nat, nd: Node, i: nat, command: Command)
    requires BooksOk(acks, n, nd, i) && nd.role == Leader
    ensures BooksOk(acks + {Ack(i, nd.term, |nd.log|)}, n, Submit(nd, command).0, i)
  {
    var nd' := Submit(nd, command).0;
    var acks' := acks + {Ack(i, nd.term, |nd.log|)};
    forall p | p in Peers(n, i) ensures PeerOk(acks', nd', p) { assert PeerOk(acks, nd, p); }
  }

  lemma SubmitMoves(s: State, id: nat, command: Command)
    requires LeadsOk(s.leads) && id < |s.nodes| && s.nodes[id].role == Leader
    requires RoleOk(s.leads, s.nodes[id], id)
    ensures Moves(s, DoSubmit(s, id, command), id) && LeadsOk(DoSubmit(s, id, command).leads)
  {
    SubmitLeads(s.leads, s.nodes[id].term, LogEntry(command, s.nodes[id].term));
  }

  lemma SubmitRefused(s: State, id: nat, command: Command)
    requires id >= |s.nodes| || s.nodes[id].role != Leader
    ensures DoSubmit(s, id, command) == s
  {
    if id < |s.nodes| { assert s.nodes[id := s.nodes[id]] == s.nodes; }
  }

  lemma SubmitInv(r: Repairs, s: State, id: nat, command: Command)
    requires Inv(r, s)
    ensures Inv(r, DoSubmit(s, id, command))
  {
    hide VotesInv, LeadsOk, NodesInv, ElectionInv, MessageInv, AckInv, DeliveryInv, Moves;
    if id < |s.nodes| && s.nodes[id].role == Leader {
      var s' := DoSubmit(s, id, command);
      var nd, t := s.nodes[id], s.nodes[id].term;
      NodeOf(r, s, id);
      SubmitKeeps(s, id, command);
      SubmitMoves(s, id, command);
      NoRerunOf(r, s, id);
      SubmitNode(r, s.leads, s.acks, |s.nodes|, nd, id, command);
      NodesMove(r, s, s', id);
      ElectionsMove(s, s', id);
      MessagesMove(s, s', id);
      SubmitAcks(r, s, id, command);
      DeliveriesMove(s, s', id);
    } else {
      SubmitRefused(s, id, command);
    }
  }

  lemma MovesExtends(s: State, s': State, i: nat)
    requires Moves(s, s', i)
    ensures Extends(s.leads, s'.leads)
  {}

  lemma SubmitHolds(leads: Leads, leads': Leads, nd: Node, nd': Node, t: nat, m: nat)
    requires LeadsOk(leads) && Extends(leads, leads')
    requires t in leads && m < |leads[t].log| && Holds(leads, nd, t, m)
    requires nd.log <= nd'.log && nd'.term == nd.term
    ensures Holds(leads', nd', t, m)
  {
    HoldsMono(leads, leads', nd, t, m);
    if Agree(nd.log, leads'[t].log, m + 1) {
      assert nd'.log[..m + 1] == nd.log[..m + 1];
    }
  }

  /** The submitted entry is held by its leader. */
  lemma NewEntryHeld(s: State, id: nat, command: Command)
    requires id < |s.nodes| && s.nodes[id].role == Leader && s.nodes[id].term in s.leads
    ensures var s' := DoSubmit(s, id, command);
      AckOk(s', Ack(id, s.nodes[id].term, |s.nodes[id].log|))
  {}

  lemma SubmitAcks(r: Repairs, s: State, id: nat, command: Command)
    requires Inv(r, s) && id < |s.nodes| && s.nodes[id].role == Leader && s.nodes[id].term in s.leads
    requires Moves(s, DoSubmit(s, id, command), id)
    ensures AckInv(DoSubmit(s, id, command))
  {
    hide NodesInv, VotesInv, MessageInv, DeliveryInv, LeadsOk, Moves, Agree, Holds;
    MovesExtends(s, DoSubmit(s, id, command), id);
    var s' := DoSubmit(s, id, command);
    var nd, nd' := s.nodes[id], s'.nodes[id];
    forall a | a in s.acks && a.node == id ensures Holds(s'.leads, nd', a.term, a.index) {
      assert AckOk(s, a);
      SubmitHolds(s.leads, s'.leads, nd, nd', a.term, a.index);
    }
    NewEntryHeld(s, id, command);
    AcksGrow(r, s, s', id);
  }

  // ---------------------------------------------------------------- heartbeats

  lemma HeartbeatInv(r: Repairs, s: State, id: nat)
    requires Inv(r, s)
    ensures Inv(r, DoHeartbeat(s, id))
  {
    HeartbeatKeeps(r, s, id, Round(id, 0, 0));
    SameButMessages(r, s, DoHeartbeat(s, id));
  }

  lemma SameButMessages(r: Repairs, s: State, s': State)
    requires Inv(r, s) && VotesInv(s') && MessageInv(s')
    requires s' == s.(rounds := s'.rounds, appendCalls := s'.appendCalls)
    ensures Inv(r, s')
  {
    forall t | t in s'.leads ensures LeaderOk(s', t) { assert LeaderOk(s, t); }
    forall g | g in s'.grants ensures GrantClaimOk(s', g) { assert GrantClaimOk(s, g); }
    forall c | c in s'.voteCalls ensures VoteCallClaimOk(s', c) { assert VoteCallClaimOk(s, c); }
    forall e | 0 <= e < |s'.elections| ensures TallyOk(s', e) { assert TallyOk(s, e); }
    forall a | a in s'.acks ensures AckOk(s', a) { assert AckOk(s, a); }
  }

  lemma SnapshotOk(r: Repairs, leads: Leads, acks: set<Ack>, n: nat, nd: Node, i: nat, t: nat, p: nat)
    requires r.freshSnapshot && NodeOk(r, leads, acks, n, nd, i) && i < n && p < n && p != i
    requires Snapshot(r, i, nd, t, p).Some?
    ensures CallOk(leads, acks, n, AppendCall(p, Snapshot(r, i, nd, t, p).value))
  {}

  lemma SendAppendMessages(r: Repairs, s: State, round: Round)
    requires r.freshSnapshot && MessageInv(s) && round in s.rounds && round.id < |s.nodes|
    requires NodeOk(r, s.leads, s.acks, |s.nodes|, s.nodes[round.id], round.id)
    ensures MessageInv(DoSendAppend(r, s, round))
  {
    hide CallOk, NodeOk, Snapshot, AcksThrough;
    assert RoundOk(|s.nodes|, round);
    var s' := DoSendAppend(r, s, round);
    if Snapshot(r, round.id, s.nodes[round.id], round.term, round.peer).Some? {
      SnapshotOk(r, s.leads, s.acks, |s.nodes|, s.nodes[round.id], round.id, round.term, round.peer);
    }
    forall c | c in s'.appendCalls ensures CallOk(s'.leads, s'.acks, |s'.nodes|, c) {}
    forall x | x in s'.appendAnswers ensures AnswerOk(s'.appendCalls, s'.acks, x) {
      assert AnswerOk(s.appendCalls, s.acks, x);
    }
  }

  lemma SendAppendInv(r: Repairs, s: State, round: Round)
    requires Inv(r, s) && r.freshSnapshot
    ensures Inv(r, DoSendAppend(r, s, round))
  {
    var s' := DoSendAppend(r, s, round);
    HeartbeatKeeps(r, s, 0, round);
    if round in s.rounds && round.id < |s.nodes| {
      NodeOf(r, s, round.id);
      SendAppendMessages(r, s, round);
      SameButMessages(r, s, s');
    }
  }
}

/** Every step of the repaired cluster keeps the invariant. */
module Steps {
  import opened RaftTypes
  import opened NodeSteps
  import opened Cluster
  import opened LogHistory
  import opened Votes
  import opened Invariants
  import opened Commitment
  import opened Preservation

  lemma SelfMoves(s: State, s': State, i: nat)
    requires i < |s.nodes| == |s'.nodes|
    requires s'.nodes == s.nodes[i := s'.nodes[i]]
    requires s.nodes[i].term <= s'.nodes[i].term
    requires s'.leads == s.leads && s.acks <= s'.acks && s.grants <= s'.grants && s.appendCalls <= s'.appendCalls
    ensures Moves(s, s', i)
  {
    forall t | t in s.leads ensures Grows(s.leads, s'.leads, t) {}
  }

  lemma QuorumsOf(r: Repairs, s: State)
    requires Inv(r, s)
    ensures QuorumAcksOk(s.leads, s.acks, |s.nodes|)
  {
    forall u | u in s.leads ensures IsMajority(s.leads[u].quorum, |s.nodes|) {
      assert LeaderOk(s, u);
    }
  }

  lemma GrantBound(r: Repairs, s: State, g: Grant)
    requires Inv(r, s) && g in s.grants
    ensures g.voter < |s.nodes| && g.term <= s.nodes[g.voter].term
  {
    assert GrantOk(s, g) && GrantClaimOk(s, g);
  }

  lemma QuorumBound(r: Repairs, s: State, u: nat, p: nat)
    requires Inv(r, s) && u in s.leads && p in s.leads[u].quorum
    ensures p < |s.nodes| && u <= s.nodes[p].term
  {
    assert LeaderOk(s, u);
    assert VotedFor(s.grants, p, u, s.leads[u].id);
    var g :| g in s.grants && g.voter == p && g.term == u;
    GrantBound(r, s, g);
  }

  lemma NoRerunOf(r: Repairs, s: State, i: nat)
    requires Inv(r, s) && i < |s.nodes|
    ensures NoRerun(s.leads, s.nodes[i], i)
    ensures forall t :: t in s.leads && s.leads[t].id == i ==> t <= s.nodes[i].term
  {
    forall t | t in s.leads && s.leads[t].id == i
      ensures t <= s.nodes[i].term
      ensures t == s.nodes[i].term ==> s.nodes[i].votedFor == i && s.nodes[i].role != Candidate
    {
      assert LeaderOk(s, t);
    }
  }

  // ---------------------------------------------------------------- one node

  lemma NodeOf(r: Repairs, s: State, i: nat)
    requires NodesInv(r, s) && i < |s.nodes|
    ensures NodeOk(r, s.leads, s.acks, |s.nodes|, s.nodes[i], i)
  {}

  lemma SameBooks(acks: set<Ack>, n: nat, nd: Node, nd': Node, i: nat)
    requires BooksOk(acks, n, nd, i)
    requires nd'.role == Leader ==> nd.role == Leader
    requires nd'.role == Leader ==> nd'.term == nd.term && nd'.log == nd.log
    requires nd'.role == Leader ==> nd'.nextIndex == nd.nextIndex && nd'.matchIndex == nd.matchIndex
    ensures BooksOk(acks, n, nd', i)
  {
    if nd'.role == Leader {
      forall p | p in Peers(n, i) ensures PeerOk(acks, nd', p) { assert PeerOk(acks, nd, p); }
    }
  }

  /** Stepping down, possibly to a later term. */
  lemma FollowerOk(r: Repairs, leads: Leads, acks: set<Ack>, n: nat, nd: Node, i: nat, term: nat)
    requires NodeOk(r, leads, acks, n, nd, i) && term >= nd.term
    ensures NodeOk(r, leads, acks, n, BecomeFollower(r, nd, term), i)
  {
    hide Settled, Rooted;
    ExtendsSelf(leads);
    SettledKept(leads, acks, leads, acks, n, nd.log[..nd.commitIndex + 1], nd.term, term);
  }

  lemma DeliverOk(r: Repairs, leads: Leads, acks: set<Ack>, n: nat, nd: Node, i: nat)
    requires NodeOk(r, leads, acks, n, nd, i)
    ensures NodeOk(r, leads, acks, n, Deliver(nd).0, i)
  {
    hide Settled, Rooted, BooksOk, SentOk;
    SameBooks(acks, n, nd, Deliver(nd).0, i);
    DeliverSent(nd);
  }

  lemma DeliverSent(nd: Node)
    requires SentOk(nd)
    ensures SentOk(Deliver(nd).0)
  {}

  // ---------------------------------------------------------------- kill, restart

  lemma KilledOk(r: Repairs, leads: Leads, acks: set<Ack>, n: nat, nd: Node, i: nat)
    requires NodeOk(r, leads, acks, n, nd, i)
    ensures NodeOk(r, leads, acks, n, Kill(nd), i)
  {
    SameBooks(acks, n, nd, Kill(nd), i);
  }

  lemma KillKeeps(r: Repairs, s: State, id: nat)
    requires Inv(r, s)
    ensures Inv(r, DoKill(s, id))
  {
    if id < |s.nodes| {
      var s' := DoKill(s, id);
      ProcessKeeps(s, id);
      SelfMoves(s, s', id);
      NoRerunOf(r, s, id);
      NodeOf(r, s, id);
      KilledOk(r, s.leads, s.acks, |s.nodes|, s.nodes[id], id);
      forall e | 0 <= e < |s'.elections| ensures TallyOk(s', e) { TallyMove(s, s', id, e); }
      QuietStep(r, s, s', id);
    }
  }

  lemma RestartedOk(r: Repairs, leads: Leads, acks: set<Ack>, n: nat, nd: Node, i: nat)
    requires NodeOk(r, leads, acks, n, nd, i) && r.persistAlways
    ensures NodeOk(r, leads, acks, n, Restart(nd), i)
    ensures Restart(nd).term == nd.term && Restart(nd).votedFor == nd.votedFor && Restart(nd).log == nd.log
    ensures Restart(nd).role == Follower
  {
    hide Rooted;
    assert nd.log[..0] == [];
  }

  lemma RestartKeeps(r: Repairs, s: State, id: nat)
    requires Inv(r, s) && r.persistAlways
    ensures Inv(r, DoRestart(s, id))
  {
    hide NodeOk, NodesInv, LeadsOk, AckInv, MessageInv, DeliveryInv, Moves, VotesInv, Restart;
    if id < |s.nodes| {
      var s' := DoRestart(s, id);
      ProcessKeeps(s, id);
      NoRerunOf(r, s, id);
      NodeOf(r, s, id);
      RestartedOk(r, s.leads, s.acks, |s.nodes|, s.nodes[id], id);
      SelfMoves(s, s', id);
      forall e | 0 <= e < |s'.elections| ensures TallyOk(s', e) {
        assert TallyOk(s, e);
        forall p | p in s.elections[e].granted + {s.elections[e].id}
          ensures VotedFor(s'.grants, p, s.elections[e].tally.term, s.elections[e].id) {}
      }
      QuietStep(r, s, s', id);
    }
  }

  // ---------------------------------------------------------------- delivery

  lemma DeliverKeeps(r: Repairs, s: State, id: nat)
    requires Inv(r, s)
    ensures Inv(r, DoDeliver(s, id))
  {
    hide LeadsOk, AckInv, MessageInv, DeliveryInv, Moves, TallyOk, Deliveries, Rooted, Settled;
    if id < |s.nodes| {
      var s' := DoDeliver(s, id);
      var quiet := s'.(delivered := s.delivered);
      ProcessKeeps(s, id);
      SelfMoves(s, quiet, id);
      NoRerunOf(r, s, id);
      NodeOf(r, s, id);
      NodeChanged(s, quiet, id);
      DeliverOk(r, s.leads, s.acks, |s.nodes|, s.nodes[id], id);
      forall e | 0 <= e < |quiet.elections| ensures TallyOk(quiet, e) { TallyMove(s, quiet, id, e); }
      QuietStep(r, s, quiet, id);
      DeliverHistory(s, id);
      SameButDelivered(r, quiet, s');
    }
  }

  lemma DeliverHistory(s: State, i: nat)
    requires DeliveryInv(s) && i < |s.nodes| && CommitOk(s.leads, s.acks, |s.nodes|, s.nodes[i])
    ensures DeliveryInv(DoDeliver(s, i))
  {
    var s' := DoDeliver(s, i);
    var nd, out := s.nodes[i], Deliver(s.nodes[i]).1;
    SelfMoves(s, s', i);
    forall d | d in s'.delivered ensures DeliveryOk(s'.leads, s'.acks, s'.nodes, d) {
      if d in s.delivered {
        DeliveryMove(s, s', i, d);
      } else {
        var e :| e in out && d == Delivery(i, nd.log[..e.index + 1], e);
        NewDelivery(s.leads, s.acks, |s.nodes|, nd, e);
      }
    }
  }

  lemma NewDelivery(leads: Leads, acks: set<Ack>, n: nat, nd: Node, e: CommitEntry)
    requires CommitOk(leads, acks, n, nd) && e in Deliver(nd).1
    ensures e.index <= nd.commitIndex && nd.log[e.index].command == e.command && e.term == nd.term
    ensures Settled(leads, acks, n, nd.log[..e.index + 1], nd.term)
  {
    SettledPrefix(leads, acks, n, nd.log[..nd.commitIndex + 1], nd.term, e.index + 1);
    assert nd.log[..nd.commitIndex + 1][..e.index + 1] == nd.log[..e.index + 1];
  }

  lemma SameButDelivered(r: Repairs, s: State, s': State)
    requires Inv(r, s) && VotesInv(s') && s' == s.(delivered := s'.delivered) && DeliveryInv(s')
    ensures Inv(r, s')
  {
    forall t | t in s'.leads ensures LeaderOk(s', t) { assert LeaderOk(s, t); }
    forall g | g in s'.grants ensures GrantClaimOk(s', g) { assert GrantClaimOk(s, g); }
    forall c | c in s'.voteCalls ensures VoteCallClaimOk(s', c) { assert VoteCallClaimOk(s, c); }
    forall e | 0 <= e < |s'.elections| ensures TallyOk(s', e) { assert TallyOk(s, e); }
    forall a | a in s'.acks ensures AckOk(s', a) { assert AckOk(s, a); }
  }

  // ---------------------------------------------------------------- append replies

  /** A majority of match indices at or above an entry of the leader's term commits it. */
  lemma CommittableCommits(leads: Leads, acks: set<Ack>, n: nat, nd: Node, i: nat, k: nat)
    requires i < n && RoleOk(leads, nd, i) && BooksOk(acks, n, nd, i) && nd.role == Leader
    requires k < |nd.log| && Committable(Peers(n, i), nd, k)
    ensures Committed(leads, acks, n, nd.term, k)
  {
    var holders := Holders(Peers(n, i), nd.matchIndex, k);
    forall p | p in holders ensures Ack(p, nd.term, k) in acks {
      assert PeerOk(acks, nd, p);
      assert Ack(p, nd.term, k) in AcksThrough(p, nd.term, nd.matchIndex[p]);
    }
    assert |holders + {i}| == |holders| + 1;
    SubsetSize(holders + {i}, Ackers(acks, n, nd.term, k));
  }

  lemma ScanOk(r: Repairs, leads: Leads, acks: set<Ack>, n: nat, nd: Node, i: nat)
    requires i < n && NodeOk(r, leads, acks, n, nd, i) && nd.role == Leader
    ensures NodeOk(r, leads, acks, n, ScanCommit(Peers(n, i), nd), i)
  {
    var k := Scan(Peers(n, i), nd, |nd.log|);
    SameBooks(acks, n, nd, ScanCommit(Peers(n, i), nd), i);
    if k > nd.commitIndex {
      CommittableCommits(leads, acks, n, nd, i, k);
      assert nd.log[..k + 1][..k + 1] == nd.log[..k + 1];
    }
  }

  /** The leader's book entries for peer p change. */
  lemma BooksUpdated(acks: set<Ack>, n: nat, nd: Node, i: nat, p: nat, nd': Node)
    requires BooksOk(acks, n, nd, i) && nd.role == Leader
    requires nd'.term == nd.term && nd'.log == nd.log
    requires forall q :: q in Peers(n, i) && q != p && PeerOk(acks, nd, q) ==> PeerOk(acks, nd', q)
    requires PeerOk(acks, nd', p)
    ensures BooksOk(acks, n, nd', i)
  {
    forall q | q in Peers(n, i) ensures PeerOk(acks, nd', q) { assert PeerOk(acks, nd, q); }
  }

  lemma SuccessOk(r: Repairs, leads: Leads, acks: set<Ack>, n: nat, nd: Node, i: nat, p: nat, next: nat)
    requires i < n && NodeOk(r, leads, acks, n, nd, i) && nd.role == Leader
    requires next <= |nd.log| && AcksThrough(p, nd.term, next - 1) <= acks
    ensures NodeOk(r, leads, acks, n, ScanCommit(Peers(n, i), Recorded(nd, p, next)), i)
  {
    var nd' := Recorded(nd, p, next);
    assert PeerOk(acks, nd', p);
    BooksUpdated(acks, n, nd, i, p, nd');
    ScanOk(r, leads, acks, n, nd', i);
  }

  lemma BackOffOk(r: Repairs, leads: Leads, acks: set<Ack>, n: nat, nd: Node, i: nat, p: nat, next: nat)
    requires NodeOk(r, leads, acks, n, nd, i) && nd.role == Leader && p in Peers(n, i) && next <= |nd.log|
    ensures NodeOk(r, leads, acks, n, nd.(nextIndex := nd.nextIndex[p := next]), i)
  {
    var nd' := nd.(nextIndex := nd.nextIndex[p := next]);
    assert PeerOk(acks, nd, p);
    BooksUpdated(acks, n, nd, i, p, nd');
  }

  /** What an answer in its own term tells the leader. */
  ghost predicate AnswerUseful(leads: Leads, acks: set<Ack>, x: AppendAnswer) {
    var a := x.call.args;
    && a.term in leads && LastSent(a) < |leads[a.term].log|
    && (x.reply.success ==> AcksThrough(x.call.to, a.term, LastSent(a)) <= acks)
    && (x.reply.term == a.term && !x.reply.success ==> x.reply.conflictIndex <= |leads[a.term].log|)
  }

  lemma AppendReplyNode(r: Repairs, leads: Leads, acks: set<Ack>, n: nat, nd: Node, x: AppendAnswer)
    requires r.sameTermReply && x.call.args.leaderId < n
    requires NodeOk(r, leads, acks, n, nd, x.call.args.leaderId)
    requires x.call.to < n && x.call.to != x.call.args.leaderId
    requires AnswerUseful(leads, acks, x)
    ensures var i := x.call.args.leaderId;
      NodeOk(r, leads, acks, n, OnAppendReply(r, Peers(n, i), nd, x.call.to, x.call.args, x.reply), i)
  {
    var a, p := x.call.args, x.call.to;
    var i := a.leaderId;
    if x.reply.term > nd.term {
      FollowerOk(r, leads, acks, n, nd, i, x.reply.term);
    } else if Heeds(r, nd, a, x.reply) {
      assert nd.log == leads[a.term].log;
      if x.reply.success {
        SuccessOk(r, leads, acks, n, nd, i, p, LastSent(a) + 1);
      } else {
        BackOffOk(r, leads, acks, n, nd, i, p, BackOff(nd.log, x.reply.conflictIndex, x.reply.conflictTerm));
      }
    }
  }

  /** An append reply keeps the log, and at most steps the node down to a later term. */
  lemma ReplyStands(r: Repairs, leads: Leads, peers: set<nat>, nd: Node, i: nat, x: AppendAnswer)
    requires NoRerun(leads, nd, i)
    requires forall t :: t in leads && leads[t].id == i ==> t <= nd.term
    ensures var nd' := OnAppendReply(r, peers, nd, x.call.to, x.call.args, x.reply);
      && nd.term <= nd'.term && nd'.log == nd.log
      && StandsStill(nd, nd') && NoRerun(leads, nd', i)
  {
    hide Scan, BackOff;
  }

  lemma AppendReturnInv(r: Repairs, s: State, x: AppendAnswer)
    requires Inv(r, s) && r.sameTermReply
    ensures Inv(r, DoAppendReturn(r, s, x))
  {
    hide NodeOk, NodesInv, LeadsOk, AckInv, DeliveryInv, OnAppendReply, Moves, TallyOk, StandsStill, NoRerun, VotesInv;
    var i := x.call.args.leaderId;
    if x in s.appendAnswers && i < |s.nodes| {
      var s' := DoAppendReturn(r, s, x);
      AppendReturnKeeps(r, s, x);
      NoRerunOf(r, s, i);
      ReplyStands(r, s.leads, PeersOf(s, i), s.nodes[i], i, x);
      SelfMoves(s, s', i);
      NodeOf(r, s, i);
      assert AnswerOk(s.appendCalls, s.acks, x) && CallOk(s.leads, s.acks, |s.nodes|, x.call);
      AppendReplyNode(r, s.leads, s.acks, |s.nodes|, s.nodes[i], x);
      forall e | 0 <= e < |s'.elections| ensures TallyOk(s', e) { TallyMove(s, s', i, e); }
      QuietStep(r, s, s', i);
    }
  }
}

/** What rests on the first repair alone (a vote reply counts only in the term of its election): at
    most one leader per term, leaders only append, and log matching. None of it needs the repairs to
    replication, and none of it is lost in a crash when elections write to storage. */
module Leaders {
  import opened RaftTypes
  import opened NodeSteps
  import opened Cluster
  import opened Commands
  import opened LogHistory
  import opened Votes
  import opened Invariants
  import opened Preservation
  import opened Steps
  import opened ElectionSteps

  predicate Electing(r: Repairs, steps: seq<Step>) {
    r.sameElection && (r.persistAlways || CrashFree(steps))
  }

  predicate ElectingStep(r: Repairs, step: Step) {
    r.sameElection && (r.persistAlways || !step.RestartNode?)
  }

  // ---------------------------------------------------------------- the invariant

  ghost predicate RootOk(r: Repairs, leads: Leads, nd: Node, i: nat) {
    && Rooted(leads, nd.log)
    && (nd.role == Leader ==> nd.term in leads && leads[nd.term].id == i && leads[nd.term].log == nd.log)
    && DiskOk(r, nd)
  }

  ghost predicate LeadRooted(leads: Leads, t: nat)
    requires t in leads
  {
    leads[t].base <= |leads[t].log| && Rooted(leads, leads[t].log)
  }

  /** A heartbeat goroutine belongs to the leader of its term. */
  ghost predicate RoundLed(leads: Leads, n: nat, x: Round) {
    x.term in leads && leads[x.term].id == x.id && x.peer in Peers(n, x.id)
  }

  /** The request ships the end of the log `log`. */
  ghost predicate Ships(log: Log, a: AppendArgs) {
    && |log| == a.prevLogIndex + 1 + |a.entries|
    && a.entries == log[a.prevLogIndex + 1..]
    && (a.prevLogIndex >= 0 ==> a.prevLogTerm == log[a.prevLogIndex].term)
  }

  ghost predicate CallRooted(leads: Leads, n: nat, c: AppendCall) {
    && c.args.term in leads && leads[c.args.term].id == c.args.leaderId
    && c.to < n && c.to != c.args.leaderId
    && exists log: Log :: Rooted(leads, log) && Ships(log, c.args)
  }

  ghost predicate LeadsInv(s: State) {
    && (forall t :: t in s.leads ==> LeadRooted(s.leads, t))
    && (forall t :: t in s.leads ==> LeaderOk(s, t))
    && (forall w :: w in s.wins ==> WinOk(s.leads, w))
  }

  ghost predicate BallotInv(s: State) {
    && (forall g :: g in s.grants ==> Loyal(s.leads, g))
    && (forall e :: 0 <= e < |s.elections| ==> TallyOk(s, e))
  }

  ghost predicate RequestInv(s: State) {
    && (forall x :: x in s.rounds ==> RoundLed(s.leads, |s.nodes|, x))
    && (forall c :: c in s.appendCalls ==> CallRooted(s.leads, |s.nodes|, c))
  }

  ghost predicate RootInv(r: Repairs, s: State) {
    forall i :: 0 <= i < |s.nodes| ==> RootOk(r, s.leads, s.nodes[i], i)
  }

  ghost predicate CoreInv(r: Repairs, s: State) {
    VotesInv(s) && LeadsInv(s) && BallotInv(s) && RequestInv(s) && RootInv(r, s)
  }

  // ---------------------------------------------------------------- a step of one node

  lemma RootsMove(r: Repairs, s: State, s': State, i: nat)
    requires RootInv(r, s) && Moves(s, s', i) && RootOk(r, s'.leads, s'.nodes[i], i)
    ensures RootInv(r, s')
  {
    forall j | 0 <= j < |s'.nodes| ensures RootOk(r, s'.leads, s'.nodes[j], j) {
      if j != i {
        assert RootOk(r, s.leads, s.nodes[j], j);
        RootedGrows(s.leads, s'.leads, s.nodes[j].log);
      }
    }
  }

  lemma RequestsMove(s: State, s': State, i: nat)
    requires RequestInv(s) && Moves(s, s', i)
    requires forall x :: x in s'.rounds && x !in s.rounds ==> RoundLed(s'.leads, |s'.nodes|, x)
    requires forall c :: c in s'.appendCalls && c !in s.appendCalls ==> CallRooted(s'.leads, |s'.nodes|, c)
    ensures RequestInv(s')
  {
    forall x | x in s'.rounds ensures RoundLed(s'.leads, |s'.nodes|, x) {
      if x in s.rounds {
        assert RoundLed(s.leads, |s.nodes|, x);
        assert Grows(s.leads, s'.leads, x.term);
      }
    }
    forall c | c in s'.appendCalls ensures CallRooted(s'.leads, |s'.nodes|, c) {
      if c in s.appendCalls { CallKept(s.leads, s'.leads, |s.nodes|, c); }
    }
  }

  lemma CallKept(leads: Leads, leads': Leads, n: nat, c: AppendCall)
    requires CallRooted(leads, n, c) && Extends(leads, leads')
    ensures CallRooted(leads', n, c)
  {
    assert Grows(leads, leads', c.args.term);
    var log: Log :| Rooted(leads, log) && Ships(log, c.args);
    RootedGrows(leads, leads', log);
  }

  /** Node i changes without winning; its leadership, if it has one, may append. */
  lemma LeadsMove(s: State, s': State, i: nat)
    requires LeadsInv(s) && Moves(s, s', i) && NoRerun(s.leads, s'.nodes[i], i)
    requires s'.leads.Keys == s.leads.Keys && s'.wins == s.wins
    requires forall t :: t in s.leads && s'.leads[t] != s.leads[t] ==> LeadRooted(s'.leads, t)
    ensures LeadsInv(s')
  {
    forall t | t in s'.leads ensures LeadRooted(s'.leads, t) {
      assert LeadRooted(s.leads, t);
      if s'.leads[t] == s.leads[t] { RootedGrows(s.leads, s'.leads, s.leads[t].log); }
    }
    forall t | t in s'.leads ensures LeaderOk(s', t) { LeaderMove(s, s', i, t); }
    forall w | w in s'.wins ensures WinOk(s'.leads, w) {
      assert WinOk(s.leads, w);
      assert Grows(s.leads, s'.leads, w.term);
    }
  }

  lemma BallotsMove(s: State, s': State, i: nat)
    requires BallotInv(s) && Moves(s, s', i)
    requires s'.leads.Keys == s.leads.Keys
    requires forall g :: g in s'.grants && g !in s.grants ==> Loyal(s'.leads, g)
    requires forall e :: 0 <= e < |s'.elections| ==>
      (e < |s.elections| && s'.elections[e] == s.elections[e]) || TallyOk(s', e)
    ensures BallotInv(s')
  {
    forall g | g in s'.grants ensures Loyal(s'.leads, g) {
      if g in s.grants {
        assert Loyal(s.leads, g);
        if g.term in s.leads { assert Grows(s.leads, s'.leads, g.term); }
      }
    }
    forall e | 0 <= e < |s'.elections| ensures TallyOk(s', e) {
      if e < |s.elections| && s'.elections[e] == s.elections[e] { TallyMove(s, s', i, e); }
    }
  }

  /** Node i changes, with nothing added to any message or history. */
  lemma PlainMove(r: Repairs, s: State, s': State, i: nat)
    requires CoreInv(r, s) && VotesInv(s') && Moves(s, s', i)
    requires RootOk(r, s.leads, s'.nodes[i], i) && NoRerun(s.leads, s'.nodes[i], i)
    requires s'.leads == s.leads && s'.wins == s.wins && s'.grants == s.grants && s'.elections == s.elections
    requires s'.rounds == s.rounds && s'.appendCalls == s.appendCalls
    ensures CoreInv(r, s')
  {
    hide VotesInv, LeadsInv, BallotInv, RequestInv, RootInv, RootOk, NoRerun, Moves;
    RootsMove(r, s, s', i);
    RequestsMove(s, s', i);
    LeadsMove(s, s', i);
    BallotsMove(s, s', i);
  }

  lemma CoreOf(r: Repairs, s: State, i: nat)
    requires LeadsInv(s) && RootInv(r, s) && i < |s.nodes|
    ensures RootOk(r, s.leads, s.nodes[i], i) && NoRerun(s.leads, s.nodes[i], i)
    ensures forall t :: t in s.leads && s.leads[t].id == i ==> t <= s.nodes[i].term
  {
    forall t | t in s.leads && s.leads[t].id == i
      ensures t <= s.nodes[i].term
      ensures t == s.nodes[i].term ==> s.nodes[i].votedFor == i && s.nodes[i].role != Candidate
    {
      assert LeaderOk(s, t);
    }
  }

  // ---------------------------------------------------------------- elections

  lemma TimeoutCore(r: Repairs, s: State, id: nat)
    requires CoreInv(r, s)
    ensures CoreInv(r, DoTimeout(r, s, id)) && Extends(s.leads, DoTimeout(r, s, id).leads)
  {
    hide VotesInv, LeadsInv, BallotInv, RequestInv, RootInv, Moves, NoRerun, RootOk;
    ExtendsSelf(s.leads);
    if id < |s.nodes| && s.nodes[id].role in {Follower, Candidate} {
      var s' := DoTimeout(r, s, id);
      TimeoutKeeps(r, s, id);
      SelfMoves(s, s', id);
      CoreOf(r, s, id);
      StartRoot(r, s.leads, s.nodes[id], id);
      RootsMove(r, s, s', id);
      RequestsMove(s, s', id);
      LeadsMove(s, s', id);
      TimeoutBallots(r, s, id);
      BallotsMove(s, s', id);
    }
  }

  lemma TimeoutBallots(r: Repairs, s: State, id: nat)
    requires BallotInv(s) && id < |s.nodes| && s.nodes[id].role in {Follower, Candidate}
    requires Moves(s, DoTimeout(r, s, id), id)
    ensures var s' := DoTimeout(r, s, id); forall e :: 0 <= e < |s'.elections| ==> TallyOk(s', e)
  {
    hide TallyOk, Moves;
    TimeoutTallies(r, s, id);
  }

  lemma StartRoot(r: Repairs, leads: Leads, nd: Node, i: nat)
    requires RootOk(r, leads, nd, i)
    requires forall t :: t in leads && leads[t].id == i ==> t <= nd.term
    ensures RootOk(r, leads, StartElection(r, i, nd), i) && NoRerun(leads, StartElection(r, i, nd), i)
  {}

  lemma SendVoteCore(r: Repairs, s: State, e: nat, p: nat)
    requires CoreInv(r, s)
    ensures CoreInv(r, DoSendVote(s, e, p)) && Extends(s.leads, DoSendVote(s, e, p).leads)
  {
    hide VotesInv, Moves, NoRerun, RootOk;
    ExtendsSelf(s.leads);
    var s' := DoSendVote(s, e, p);
    SendVoteKeeps(s, e, p);
    if s' != s {
      var i := s.elections[e].id;
      SelfMoves(s, s', i);
      CoreOf(r, s, i);
      PlainMove(r, s, s', i);
    }
  }

  /** A vote for another node is no vote of a term that the voter leads. */
  lemma VoteRoot(r: Repairs, leads: Leads, nd: Node, i: nat, a: VoteArgs)
    requires RootOk(r, leads, nd, i) && NoRerun(leads, nd, i) && a.candidateId != i
    requires forall t :: t in leads && leads[t].id == i ==> t <= nd.term
    ensures var (nd', reply) := HandleVote(r, nd, a);
      && RootOk(r, leads, nd', i) && NoRerun(leads, nd', i)
      && (reply.voteGranted && a.term in leads ==> leads[a.term].id != i)
  {
    hide Rooted;
  }

  lemma ReceiveVoteCore(r: Repairs, s: State, call: VoteCall)
    requires CoreInv(r, s)
    ensures CoreInv(r, DoReceiveVote(r, s, call)) && Extends(s.leads, DoReceiveVote(r, s, call).leads)
  {
    hide LeadsInv, BallotInv, RequestInv, RootInv, Moves, NoRerun, RootOk, HandleVote;
    ExtendsSelf(s.leads);
    if call in s.voteCalls && call.to < |s.nodes| {
      var i, s' := call.to, DoReceiveVote(r, s, call);
      ReceiveVoteKeeps(r, s, call);
      assert VoteCallOk(s, call);
      HandleVoteTerm(r, s.nodes[i], call.args);
      SelfMoves(s, s', i);
      CoreOf(r, s, i);
      VoteRoot(r, s.leads, s.nodes[i], i, call.args);
      RootsMove(r, s, s', i);
      RequestsMove(s, s', i);
      LeadsMove(s, s', i);
      BallotsMove(s, s', i);
    }
  }

  lemma HandleVoteTerm(r: Repairs, nd: Node, a: VoteArgs)
    ensures nd.term <= HandleVote(r, nd, a).0.term
  {}

  // ---------------------------------------------------------------- vote replies

  lemma NoWinRoot(r: Repairs, leads: Leads, nd: Node, i: nat, t: Tally, reply: Option<VoteReply>)
    requires r.sameElection && RootOk(r, leads, nd, i) && NoRerun(leads, nd, i)
    requires forall u :: u in leads && leads[u].id == i ==> u <= nd.term
    ensures var nd' := AfterReply(r, nd, t, reply);
      RootOk(r, leads, nd', i) && NoRerun(leads, nd', i) && nd.term <= nd'.term
  {}

  lemma NoWinCore(r: Repairs, s: State, e: nat, p: nat, reply: Option<VoteReply>)
    requires CoreInv(r, s) && r.sameElection
    requires e < |s.elections| && p in s.elections[e].pending && s.elections[e].id < |s.nodes|
    requires Counts(r, s.nodes[s.elections[e].id], s.elections[e].tally, reply) ==>
      VotedFor(s.grants, p, s.elections[e].tally.term, s.elections[e].id)
    requires !Wins(r, PeersOf(s, s.elections[e].id), s.nodes[s.elections[e].id], s.elections[e].tally, reply)
    ensures CoreInv(r, DoVoteReturn(r, s, e, p, reply))
    ensures Extends(s.leads, DoVoteReturn(r, s, e, p, reply).leads)
  {
    hide LeadsInv, RequestInv, RootInv, Moves, NoRerun, RootOk, Counts, Wins, AfterReply, TallyAfter, TallyOk, VotedFor;
    ExtendsSelf(s.leads);
    var id := s.elections[e].id;
    var s' := DoVoteReturn(r, s, e, p, reply);
    VoteReturnKeeps(r, s, e, p, reply);
    CoreOf(r, s, id);
    NoWinRoot(r, s.leads, s.nodes[id], id, s.elections[e].tally, reply);
    SelfMoves(s, s', id);
    assert ElectionOk(s, e);
    TallyReturn(r, s, s', e, p, reply);
    RootsMove(r, s, s', id);
    RequestsMove(s, s', id);
    LeadsMove(s, s', id);
    BallotsMove(s, s', id);
  }

  /** A new leadership with the winner's log. */
  lemma CrownedCore(r: Repairs, s: State, s': State, id: nat, q: set<nat>)
    requires CoreInv(r, s) && VotesInv(s') && id < |s.nodes| && Crowned(s, s', id, q)
    requires s.nodes[id].term !in s.leads
    requires Extends(s.leads, s'.leads) && Moves(s, s', id)
    requires forall e :: 0 <= e < |s'.elections| ==> TallyOk(s', e)
    ensures CoreInv(r, s')
  {
    hide TallyOk;
    var u := s.nodes[id].term;
    CoreOf(r, s, id);
    RootedGrows(s.leads, s'.leads, s.nodes[id].log);
    RootsMove(r, s, s', id);
    RequestsMove(s, s', id);
    CrownedLeads(s, s', id, q);
    forall g | g in s'.grants ensures Loyal(s'.leads, g) {
      assert Loyal(s.leads, g) && GrantOk(s, g);
      if g.term in s.leads { assert Grows(s.leads, s'.leads, g.term); }
    }
  }

  lemma CrownedLeads(s: State, s': State, id: nat, q: set<nat>)
    requires LeadsInv(s) && VotesInv(s') && id < |s.nodes| && Crowned(s, s', id, q)
    requires s.nodes[id].term !in s.leads && Rooted(s'.leads, s.nodes[id].log)
    requires Extends(s.leads, s'.leads) && Moves(s, s', id) && NoRerun(s.leads, s.nodes[id], id)
    ensures LeadsInv(s')
  {
    var u := s.nodes[id].term;
    forall t | t in s'.leads ensures LeadRooted(s'.leads, t) {
      if t != u {
        assert LeadRooted(s.leads, t);
        RootedGrows(s.leads, s'.leads, s.leads[t].log);
      }
    }
    assert VoterOk(s'.nodes[id], id);
    forall t | t in s'.leads ensures LeaderOk(s', t) {
      if t != u { LeaderMove(s, s', id, t); }
    }
    forall w | w in s'.wins ensures WinOk(s'.leads, w) {
      if w in s.wins {
        assert WinOk(s.leads, w);
        assert Grows(s.leads, s'.leads, w.term);
      }
    }
  }

  lemma CrownExtends(leads: Leads, u: nat, l: Lead)
    requires u !in leads
    ensures Extends(leads, leads[u := l])
  {
    forall t | t in leads ensures Grows(leads, leads[u := l], t) {}
  }

  lemma WinCore(r: Repairs, s: State, e: nat, p: nat, reply: Option<VoteReply>)
    requires CoreInv(r, s) && r.sameElection
    requires e < |s.elections| && p in s.elections[e].pending && s.elections[e].id < |s.nodes|
    requires Counts(r, s.nodes[s.elections[e].id], s.elections[e].tally, reply) ==>
      VotedFor(s.grants, p, s.elections[e].tally.term, s.elections[e].id)
    requires Wins(r, PeersOf(s, s.elections[e].id), s.nodes[s.elections[e].id], s.elections[e].tally, reply)
    ensures CoreInv(r, DoVoteReturn(r, s, e, p, reply))
    ensures Extends(s.leads, DoVoteReturn(r, s, e, p, reply).leads)
  {
    hide RequestInv, RootInv, Rooted, CoreInv, Wins, Counts, TallyAfter, AfterReply, Crowned, OnVoteReply;
    CoreParts(r, s);
    var el := s.elections[e];
    var id := el.id;
    var s' := DoVoteReturn(r, s, e, p, reply);
    var q := el.granted + (if Counts(r, s.nodes[id], el.tally, reply) then {p} else {}) + {id};
    assert TallyOk(s, e) && ElectionOk(s, e);
    WinnersQuorum(r, s, e, p, reply);
    NotLedYet(s, id, q);
    WinCrowns(r, s, e, p, reply, q);
    CrownMoves(s, s', id, q);
    VoteReturnKeeps(r, s, e, p, reply);
    TallyReturn(r, s, s', e, p, reply);
    CrownedCore(r, s, s', id, q);
  }

  lemma WinCrowns(r: Repairs, s: State, e: nat, p: nat, reply: Option<VoteReply>, q: set<nat>)
    requires e < |s.elections| && p in s.elections[e].pending && s.elections[e].id < |s.nodes|
    requires var el := s.elections[e]; var nd := s.nodes[el.id];
      && Wins(r, PeersOf(s, el.id), nd, el.tally, reply)
      && nd.role == Candidate && nd.term !in s.leads && AfterReply(r, nd, el.tally, reply) == nd
      && q == el.granted + (if Counts(r, nd, el.tally, reply) then {p} else {}) + {el.id}
      && IsMajority(q, |s.nodes|)
      && forall v :: v in q ==> VotedFor(s.grants, v, nd.term, el.id)
    ensures var s' := DoVoteReturn(r, s, e, p, reply);
      Crowned(s, s', s.elections[e].id, q)
  {
    hide Wins, Counts, TallyAfter, AfterReply, VotedFor, IsMajority;
  }

  lemma CrownMoves(s: State, s': State, id: nat, q: set<nat>)
    requires id < |s.nodes| && Crowned(s, s', id, q) && s.nodes[id].term !in s.leads
    ensures Extends(s.leads, s'.leads) && Moves(s, s', id)
  {
    hide VotedFor, IsMajority;
    CrownExtends(s.leads, s.nodes[id].term, Lead(id, |s.nodes[id].log|, s.nodes[id].log, q));
  }

  lemma CoreParts(r: Repairs, s: State)
    requires CoreInv(r, s)
    ensures VotesInv(s) && LeadsInv(s) && BallotInv(s)
  {}

  lemma VoteReturnCore(r: Repairs, s: State, e: nat, p: nat, reply: Option<VoteReply>)
    requires CoreInv(r, s) && r.sameElection
    requires reply.Some? ==>
      exists x :: x in s.voteAnswers && x.call.election == e && x.call.to == p && x.reply == reply.value
    ensures CoreInv(r, DoVoteReturn(r, s, e, p, reply))
    ensures Extends(s.leads, DoVoteReturn(r, s, e, p, reply).leads)
  {
    hide LeadsInv, BallotInv, RequestInv, RootInv;
    ExtendsSelf(s.leads);
    if e < |s.elections| && p in s.elections[e].pending && s.elections[e].id < |s.nodes| {
      var el := s.elections[e];
      if Counts(r, s.nodes[el.id], el.tally, reply) {
        var x :| x in s.voteAnswers && x.call.election == e && x.call.to == p && x.reply == reply.value;
        assert VoteAnswerOk(s, x) && VoteCallOk(s, x.call);
        assert GrantOf(x.call) in s.grants;
        assert VotedFor(s.grants, p, el.tally.term, el.id);
      }
      if Wins(r, PeersOf(s, el.id), s.nodes[el.id], el.tally, reply) {
        WinCore(r, s, e, p, reply);
      } else {
        NoWinCore(r, s, e, p, reply);
      }
    }
  }

  // ---------------------------------------------------------------- replication

  lemma AppendedRoot(leads: Leads, leads': Leads, t: nat, log: Log, e: LogEntry)
    requires t in leads && leads[t].log == log && e.term == t && Rooted(leads, log)
    requires leads' == leads[t := leads[t].(log := log + [e])]
    ensures Extends(leads, leads') && Rooted(leads', log + [e])
  {
    var log' := log + [e];
    forall u | u in leads ensures Grows(leads, leads', u) { assert log'[..|log|] == log; }
    RootedGrows(leads, leads', log);
    forall k: nat | k < |log'| ensures AtRoot(leads', log', k) {
      if k < |log| {
        assert AtRoot(leads', log, k);
        assert log'[..k + 1] == log[..k + 1];
      }
    }
  }

  lemma SubmitCore(r: Repairs, s: State, id: nat, command: Command)
    requires CoreInv(r, s)
    ensures CoreInv(r, DoSubmit(s, id, command)) && Extends(s.leads, DoSubmit(s, id, command).leads)
  {
    hide VotesInv, BallotInv, RequestInv, RootInv, LeadsInv, NoRerun, Rooted;
    ExtendsSelf(s.leads);
    if id < |s.nodes| {
      var s', nd := DoSubmit(s, id, command), s.nodes[id];
      SubmitKeeps(s, id, command);
      CoreOf(r, s, id);
      if nd.role == Leader {
        AppendedRoot(s.leads, s'.leads, nd.term, nd.log, LogEntry(command, nd.term));
        AppendMoves(s, id, command);
        RootsMove(r, s, s', id);
        RequestsMove(s, s', id);
        AppendLeads(s, s', id);
        BallotsMove(s, s', id);
      } else {
        SelfMoves(s, s', id);
        PlainMove(r, s, s', id);
      }
    }
  }

  lemma AppendMoves(s: State, id: nat, command: Command)
    requires id < |s.nodes| && s.nodes[id].role == Leader
    requires s.nodes[id].term in s.leads && s.leads[s.nodes[id].term].id == id
    requires Extends(s.leads, DoSubmit(s, id, command).leads)
    ensures Moves(s, DoSubmit(s, id, command), id)
  {}

  lemma AppendLeads(s: State, s': State, id: nat)
    requires LeadsInv(s) && Moves(s, s', id) && NoRerun(s.leads, s.nodes[id], id)
    requires s'.nodes[id].term == s.nodes[id].term && s'.nodes[id].votedFor == s.nodes[id].votedFor
    requires s'.nodes[id].role == s.nodes[id].role == Leader && s'.wins == s.wins
    requires var t := s.nodes[id].term;
      t in s.leads && s'.leads == s.leads[t := s.leads[t].(log := s'.nodes[id].log)]
      && |s.leads[t].log| <= |s'.nodes[id].log| && Rooted(s'.leads, s'.nodes[id].log)
    ensures LeadsInv(s')
  {
    assert LeadRooted(s.leads, s.nodes[id].term);
    LeadsMove(s, s', id);
  }

  lemma HeartbeatCore(r: Repairs, s: State, id: nat)
    requires CoreInv(r, s)
    ensures CoreInv(r, DoHeartbeat(s, id)) && Extends(s.leads, DoHeartbeat(s, id).leads)
  {
    hide VotesInv, BallotInv, LeadsInv, RequestInv, RootInv, NoRerun, Moves, Rooted;
    ExtendsSelf(s.leads);
    if id < |s.nodes| {
      var s' := DoHeartbeat(s, id);
      HeartbeatKeeps(r, s, id, Round(id, 0, 0));
      SelfMoves(s, s', id);
      CoreOf(r, s, id);
      RootsMove(r, s, s', id);
      RequestsMove(s, s', id);
      LeadsMove(s, s', id);
      BallotsMove(s, s', id);
    }
  }

  lemma SnapshotShips(r: Repairs, id: nat, nd: Node, term: nat, peer: nat)
    ensures var a := Snapshot(r, id, nd, term, peer);
      a.Some? ==> a.value.term == term && a.value.leaderId == id && Ships(nd.log, a.value)
  {}

  lemma SendAppendCore(r: Repairs, s: State, x: Round)
    requires CoreInv(r, s)
    ensures CoreInv(r, DoSendAppend(r, s, x)) && Extends(s.leads, DoSendAppend(r, s, x).leads)
  {
    hide VotesInv, BallotInv, LeadsInv, RootInv, NoRerun, Moves, Rooted, Snapshot, Ships;
    ExtendsSelf(s.leads);
    var s' := DoSendAppend(r, s, x);
    if s' != s {
      var nd := s.nodes[x.id];
      HeartbeatKeeps(r, s, x.id, x);
      SelfMoves(s, s', x.id);
      CoreOf(r, s, x.id);
      SnapshotShips(r, x.id, nd, x.term, x.peer);
      assert RoundLed(s.leads, |s.nodes|, x);
      RootsMove(r, s, s', x.id);
      RequestsMove(s, s', x.id);
      LeadsMove(s, s', x.id);
      BallotsMove(s, s', x.id);
    }
  }

  /** A merge with the end of a rooted log is rooted. */
  lemma MergedRoot(leads: Leads, log: Log, lead: Log, r: Repairs, a: AppendArgs)
    requires Rooted(leads, log) && Rooted(leads, lead) && Ships(lead, a) && Matches(r, log, a)
    ensures Rooted(leads, Merge(log, a.prevLogIndex + 1, a.entries))
  {
    if a.prevLogIndex >= 0 {
      EqualTermsAgree(leads, log, lead, a.prevLogIndex);
    }
    MergeAgrees(leads, log, lead, a.prevLogIndex + 1, a.entries);
  }

  lemma CurrentRoot(r: Repairs, leads: Leads, nd: Node, i: nat, a: AppendArgs, lead: Log)
    requires Rooted(leads, nd.log) && nd.role == Follower
    requires Rooted(leads, lead) && Ships(lead, a)
    ensures var nd' := AppendCurrent(r, nd, a).0;
      && RootOk(r, leads, nd', i) && nd'.role == Follower && nd'.term == nd.term
  {
    hide Merge, Rooted, Hint, Ships;
    if Matches(r, nd.log, a) { MergedRoot(leads, nd.log, lead, r, a); }
  }

  lemma AppendRoot(r: Repairs, leads: Leads, nd: Node, i: nat, a: AppendArgs, lead: Log)
    requires RootOk(r, leads, nd, i) && NoRerun(leads, nd, i) && VoterOk(nd, i)
    requires forall t :: t in leads && leads[t].id == i ==> t <= nd.term
    requires a.term in leads && leads[a.term].id != i
    requires Rooted(leads, lead) && Ships(lead, a)
    ensures var nd' := HandleAppend(r, nd, a).0;
      RootOk(r, leads, nd', i) && NoRerun(leads, nd', i) && nd.term <= nd'.term
  {
    hide Rooted, Hint, Ships, AppendCurrent;
    if nd.role != Dead && a.term >= nd.term {
      CurrentRoot(r, leads, Yield(r, nd, a.term), i, a, lead);
    }
  }

  lemma ReceiveAppendCore(r: Repairs, s: State, c: AppendCall)
    requires CoreInv(r, s)
    ensures CoreInv(r, DoReceiveAppend(r, s, c)) && Extends(s.leads, DoReceiveAppend(r, s, c).leads)
  {
    hide BallotInv, LeadsInv, RootInv, NoRerun, Moves, Rooted, HandleAppend, RootOk, Ships;
    ExtendsSelf(s.leads);
    if c in s.appendCalls && c.to < |s.nodes| {
      var i, s' := c.to, DoReceiveAppend(r, s, c);
      ReceiveAppendKeeps(r, s, c);
      CoreOf(r, s, i);
      assert CallRooted(s.leads, |s.nodes|, c);
      assert VoterOk(s.nodes[i], i);
      var lead: Log :| Rooted(s.leads, lead) && Ships(lead, c.args);
      AppendRoot(r, s.leads, s.nodes[i], i, c.args, lead);
      SelfMoves(s, s', i);
      PlainMove(r, s, s', i);
    }
  }

  lemma ReplyRoot(r: Repairs, leads: Leads, nd: Node, i: nat, peers: set<nat>, p: nat, a: AppendArgs, reply: AppendReply)
    requires RootOk(r, leads, nd, i) && NoRerun(leads, nd, i)
    requires forall t :: t in leads && leads[t].id == i ==> t <= nd.term
    ensures var nd' := OnAppendReply(r, peers, nd, p, a, reply);
      RootOk(r, leads, nd', i) && NoRerun(leads, nd', i) && nd.term <= nd'.term
  {
    hide Rooted, Scan, BackOff;
  }

  lemma AppendReturnCore(r: Repairs, s: State, x: AppendAnswer)
    requires CoreInv(r, s)
    ensures CoreInv(r, DoAppendReturn(r, s, x)) && Extends(s.leads, DoAppendReturn(r, s, x).leads)
  {
    hide VotesInv, BallotInv, LeadsInv, RequestInv, RootInv, NoRerun, Moves, RootOk, OnAppendReply;
    ExtendsSelf(s.leads);
    var id, s' := x.call.args.leaderId, DoAppendReturn(r, s, x);
    AppendReturnKeeps(r, s, x);
    if s' != s {
      CoreOf(r, s, id);
      ReplyRoot(r, s.leads, s.nodes[id], id, PeersOf(s, id), x.call.to, x.call.args, x.reply);
      SelfMoves(s, s', id);
      PlainMove(r, s, s', id);
    }
  }

  // ---------------------------------------------------------------- the process

  lemma DeliverCore(r: Repairs, s: State, id: nat)
    requires CoreInv(r, s)
    ensures CoreInv(r, DoDeliver(s, id)) && Extends(s.leads, DoDeliver(s, id).leads)
    ensures CoreInv(r, DoKill(s, id)) && Extends(s.leads, DoKill(s, id).leads)
  {
    hide VotesInv, BallotInv, LeadsInv, RequestInv, RootInv, Moves, Rooted, Deliveries;
    ExtendsSelf(s.leads);
    if id < |s.nodes| {
      ProcessKeeps(s, id);
      CoreOf(r, s, id);
      SelfMoves(s, DoDeliver(s, id), id);
      PlainMove(r, s, DoDeliver(s, id), id);
      SelfMoves(s, DoKill(s, id), id);
      PlainMove(r, s, DoKill(s, id), id);
    }
  }

  lemma RestartRoot(r: Repairs, leads: Leads, nd: Node, i: nat)
    requires RootOk(r, leads, nd, i) && NoRerun(leads, nd, i) && r.persistAlways
    ensures RootOk(r, leads, Restart(nd), i) && NoRerun(leads, Restart(nd), i) && Restart(nd).term == nd.term
  {}

  lemma RestartCore(r: Repairs, s: State, id: nat)
    requires CoreInv(r, s) && r.persistAlways
    ensures CoreInv(r, DoRestart(s, id)) && Extends(s.leads, DoRestart(s, id).leads)
  {
    hide VotesInv, LeadsInv, RequestInv, RootInv, Moves, NoRerun, RootOk, Restart;
    ExtendsSelf(s.leads);
    if id < |s.nodes| {
      var s' := DoRestart(s, id);
      ProcessKeeps(s, id);
      CoreOf(r, s, id);
      RestartRoot(r, s.leads, s.nodes[id], id);
      SelfMoves(s, s', id);
      forall e | 0 <= e < |s'.elections| ensures TallyOk(s', e) { HaltedTally(s, s', id, e); }
      RootsMove(r, s, s', id);
      RequestsMove(s, s', id);
      LeadsMove(s, s', id);
      BallotsMove(s, s', id);
    }
  }

  lemma HaltedTally(s: State, s': State, id: nat, e: nat)
    requires e < |s.elections| && TallyOk(s, e) && Moves(s, s', id)
    requires s'.elections == Halt(s.elections, id) && s'.grants == s.grants
    ensures TallyOk(s', e)
  {
    var el := s.elections[e];
    forall p | p in el.granted + {el.id} ensures VotedFor(s'.grants, p, el.tally.term, el.id) {}
  }

  // ---------------------------------------------------------------- all steps, all runs

  lemma NextCore(r: Repairs, s: State, step: Step)
    requires CoreInv(r, s) && ElectingStep(r, step)
    ensures CoreInv(r, Next(r, s, step)) && Extends(s.leads, Next(r, s, step).leads)
  {
    hide CoreInv, Extends, DoTimeout, DoSendVote, DoReceiveVote, DoVoteReturn, DoSubmit, DoHeartbeat, DoSendAppend,
      DoReceiveAppend, DoAppendReturn, DoDeliver, DoKill, DoRestart;
    ExtendsSelf(s.leads);
    match step
    case Timeout(id) => TimeoutCore(r, s, id);
    case SendVote(e, p) => SendVoteCore(r, s, e, p);
    case ReceiveVote(call) => ReceiveVoteCore(r, s, call);
    case VoteReturn(x) =>
      if x in s.voteAnswers { VoteReturnCore(r, s, x.call.election, x.call.to, Some(x.reply)); }
    case VoteFail(e, p) => VoteReturnCore(r, s, e, p, None);
    case ClientSubmit(id, command) => SubmitCore(r, s, id, command);
    case Heartbeat(id) => HeartbeatCore(r, s, id);
    case SendAppend(round) => SendAppendCore(r, s, round);
    case ReceiveAppend(call) => ReceiveAppendCore(r, s, call);
    case AppendReturn(x) => AppendReturnCore(r, s, x);
    case DeliverReady(id) => DeliverCore(r, s, id);
    case KillNode(id) => DeliverCore(r, s, id);
    case RestartNode(id) => RestartCore(r, s, id);
  }

  lemma {:induction false} CoreReached(r: Repairs, n: nat, steps: seq<Step>)
    requires Electing(r, steps)
    ensures CoreInv(r, Exec(r, n, steps)) && |Exec(r, n, steps).nodes| == n
  {
    hide Next;
    if steps != [] {
      var before, step := steps[..|steps| - 1], steps[|steps| - 1];
      CoreReached(r, n, before);
      NextCore(r, Exec(r, n, before), step);
    }
  }

  lemma {:induction false} LeadsContinue(r: Repairs, n: nat, steps: seq<Step>, more: seq<Step>)
    requires Electing(r, steps + more)
    ensures Electing(r, steps)
    ensures Extends(Exec(r, n, steps).leads, Exec(r, n, steps + more).leads)
  {
    hide Next, Extends;
    ExtendsSelf(Exec(r, n, steps).leads);
    assert forall k :: 0 <= k < |steps| ==> (steps + more)[k] == steps[k];
    if more == [] {
      assert steps + more == steps;
    } else {
      var before, step := steps + more[..|more| - 1], more[|more| - 1];
      assert (steps + more)[..|steps + more| - 1] == before;
      assert forall k :: 0 <= k < |before| ==> (steps + more)[k] == before[k];
      assert (steps + more)[|steps + more| - 1] == step;
      LeadsContinue(r, n, steps, more[..|more| - 1]);
      CoreReached(r, n, before);
      NextCore(r, Exec(r, n, before), step);
      ExtendsTrans(Exec(r, n, steps).leads, Exec(r, n, before).leads, Exec(r, n, steps + more).leads);
    }
  }

  // ---------------------------------------------------------------- results

  /** At most one node is ever elected in a term. */
  lemma ElectionSafety(r: Repairs, n: nat, steps: seq<Step>, v: Win, w: Win)
    requires Electing(r, steps)
    requires v in Exec(r, n, steps).wins && w in Exec(r, n, steps).wins && v.term == w.term
    ensures v.id == w.id
  {
    hide Exec;
    CoreReached(r, n, steps);
    assert WinOk(Exec(r, n, steps).leads, v) && WinOk(Exec(r, n, steps).leads, w);
  }

  lemma LeaderOf(r: Repairs, s: State, i: nat)
    requires CoreInv(r, s) && i < |s.nodes|
    ensures RootOk(r, s.leads, s.nodes[i], i)
  {}

  /** Two leaders of the same term, at two moments of one run, are the same node. */
  lemma OneLeaderPerTerm(r: Repairs, n: nat, steps: seq<Step>, more: seq<Step>, i: nat, j: nat)
    requires Electing(r, steps + more) && i < n && j < n
    requires var s, s' := Exec(r, n, steps), Exec(r, n, steps + more);
      && |s.nodes| == n && |s'.nodes| == n
      && s.nodes[i].role == Leader && s'.nodes[j].role == Leader && s.nodes[i].term == s'.nodes[j].term
    ensures i == j
  {
    hide Exec, CoreInv, Rooted;
    var s, s' := Exec(r, n, steps), Exec(r, n, steps + more);
    LeadsContinue(r, n, steps, more);
    CoreReached(r, n, steps);
    CoreReached(r, n, steps + more);
    LeaderOf(r, s, i);
    LeaderOf(r, s', j);
    assert Grows(s.leads, s'.leads, s.nodes[i].term);
  }

  /** A leader's log only grows at its end for as long as it leads its term. */
  lemma LeaderAppendOnly(r: Repairs, n: nat, steps: seq<Step>, more: seq<Step>, i: nat)
    requires Electing(r, steps + more) && i < n
    requires var s, s' := Exec(r, n, steps), Exec(r, n, steps + more);
      && |s.nodes| == n && |s'.nodes| == n
      && s.nodes[i].role == Leader && s'.nodes[i].role == Leader && s.nodes[i].term == s'.nodes[i].term
    ensures Exec(r, n, steps).nodes[i].log <= Exec(r, n, steps + more).nodes[i].log
  {
    hide Exec, CoreInv, Rooted;
    var s, s' := Exec(r, n, steps), Exec(r, n, steps + more);
    LeadsContinue(r, n, steps, more);
    CoreReached(r, n, steps);
    CoreReached(r, n, steps + more);
    LeaderOf(r, s, i);
    LeaderOf(r, s', i);
    var t := s.nodes[i].term;
    assert Grows(s.leads, s'.leads, t);
    assert s.leads[t].log == s.leads[t].log[..|s.leads[t].log|] == s'.leads[t].log[..|s.leads[t].log|];
  }

  /** Logs with equal terms at an index are the same up to that index. */
  lemma LogMatching(r: Repairs, n: nat, steps: seq<Step>, i: nat, j: nat, k: nat)
    requires Electing(r, steps) && i < n && j < n
    requires var s := Exec(r, n, steps);
      && |s.nodes| == n && k < |s.nodes[i].log| && k < |s.nodes[j].log|
      && s.nodes[i].log[k].term == s.nodes[j].log[k].term
    ensures Exec(r, n, steps).nodes[i].log[..k + 1] == Exec(r, n, steps).nodes[j].log[..k + 1]
  {
    hide Exec, CoreInv, Rooted;
    var s := Exec(r, n, steps);
    CoreReached(r, n, steps);
    LeaderOf(r, s, i);
    LeaderOf(r, s, j);
    EqualTermsAgree(s.leads, s.nodes[i].log, s.nodes[j].log, k);
  }
}

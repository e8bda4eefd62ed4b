/** A node answers at most one candidate with a vote per term, whatever crashes in between. */
module Votes {
  import opened RaftTypes
  import opened NodeSteps
  import opened Cluster
  import opened Commands

  ghost predicate VoterOk(nd: Node, i: nat) {
    && (nd.role in {Candidate, Leader} ==> nd.votedFor == i)
    && (nd.disk.Saved? ==> nd.disk.term <= nd.term)
  }

  /** What a vote for another node leaves behind in the voter and in its storage. */
  ghost predicate BoundTo(nd: Node, g: Grant) {
    && g.term <= nd.term
    && (g.term == nd.term ==> nd.votedFor == g.candidate && nd.role in {Follower, Dead})
    && nd.disk.Saved? && g.term <= nd.disk.term
    && (g.term == nd.disk.term ==> nd.disk.votedFor == g.candidate)
  }

  ghost predicate ElectionOk(s: State, e: nat)
    requires e < |s.elections|
  {
    var el := s.elections[e];
    el.id < |s.nodes| && el.pending <= PeersOf(s, el.id)
  }

  ghost predicate VoteCallOk(s: State, c: VoteCall) {
    && c.election < |s.elections|
    && c.args.candidateId == s.elections[c.election].id
    && c.args.term == s.elections[c.election].tally.term
    && c.to != c.args.candidateId
  }

  function GrantOf(c: VoteCall): Grant {
    Grant(c.to, c.args.term, c.args.candidateId, c.args.lastLogIndex, c.args.lastLogTerm)
  }

  ghost predicate VoteAnswerOk(s: State, x: VoteAnswer) {
    && x.call in s.voteCalls
    && (x.reply.voteGranted ==> x.reply.term == x.call.args.term && GrantOf(x.call) in s.grants)
  }

  ghost predicate GrantOk(s: State, g: Grant) {
    && g.voter < |s.nodes|
    && (g.voter != g.candidate ==> BoundTo(s.nodes[g.voter], g))
  }

  ghost predicate SameVote(g: Grant, h: Grant) {
    g.voter == h.voter && g.term == h.term && g.voter != g.candidate && h.voter != h.candidate
    ==> g.candidate == h.candidate
  }

  ghost predicate VotesInv(s: State) {
    && (forall i :: 0 <= i < |s.nodes| ==> VoterOk(s.nodes[i], i))
    && (forall e :: 0 <= e < |s.elections| ==> ElectionOk(s, e))
    && (forall c :: c in s.voteCalls ==> VoteCallOk(s, c))
    && (forall x :: x in s.voteAnswers ==> VoteAnswerOk(s, x))
    && (forall g :: g in s.grants ==> GrantOk(s, g))
    && (forall g, h :: g in s.grants && h in s.grants ==> SameVote(g, h))
  }

  // ---------------------------------------------------------------- one node

  /** A change of node i that breaks no vote it has given. */
  ghost predicate KeepsVotes(nd: Node, nd': Node, i: nat) {
    && VoterOk(nd', i)
    && forall g :: BoundTo(nd, g) ==> BoundTo(nd', g)
  }

  lemma HandleVoteKeeps(r: Repairs, nd: Node, a: VoteArgs, i: nat)
    requires VoterOk(nd, i) && a.candidateId != i
    ensures KeepsVotes(nd, HandleVote(r, nd, a).0, i)
    ensures HandleVote(r, nd, a).1.voteGranted ==> BoundTo(HandleVote(r, nd, a).0,
      Grant(i, a.term, a.candidateId, a.lastLogIndex, a.lastLogTerm))
  {}

  lemma OnVoteReplyKeeps(r: Repairs, peers: set<nat>, nd: Node, t: Tally, reply: Option<VoteReply>, i: nat)
    requires r.sameElection && VoterOk(nd, i)
    ensures KeepsVotes(nd, OnVoteReply(r, peers, nd, t, reply), i)
  {
    assert KeepsVotes(nd, AfterReply(r, nd, t, reply), i);
  }

  lemma AppendCurrentKeeps(r: Repairs, nd: Node, a: AppendArgs)
    ensures var nd' := AppendCurrent(r, nd, a).0;
      && nd'.term == nd.term && nd'.votedFor == nd.votedFor && nd'.role == nd.role
      && nd'.disk == Saved(nd.term, nd.votedFor, nd'.log)
  {}

  lemma HandleAppendKeeps(r: Repairs, nd: Node, a: AppendArgs, i: nat)
    requires VoterOk(nd, i)
    ensures KeepsVotes(nd, HandleAppend(r, nd, a).0, i)
  {
    hide AppendCurrent;
    if nd.role != Dead && a.term >= nd.term {
      var y := Yield(r, nd, a.term);
      assert KeepsVotes(nd, y, i);
      AppendCurrentKeeps(r, y, a);
    }
  }

  lemma OnAppendReplyKeeps(r: Repairs, peers: set<nat>, nd: Node, x: AppendAnswer, i: nat)
    requires VoterOk(nd, i)
    ensures KeepsVotes(nd, OnAppendReply(r, peers, nd, x.call.to, x.call.args, x.reply), i)
  {}

  // ---------------------------------------------------------------- the cluster

  /** A step that changes node i and sends nothing that carries a vote. */
  lemma NodeChanged(s: State, s': State, i: nat)
    requires VotesInv(s) && i < |s.nodes| == |s'.nodes|
    requires s'.nodes == s.nodes[i := s'.nodes[i]] && KeepsVotes(s.nodes[i], s'.nodes[i], i)
    requires s'.grants == s.grants && s'.voteCalls == s.voteCalls && s'.voteAnswers == s.voteAnswers
    requires |s'.elections| == |s.elections|
    requires forall e :: 0 <= e < |s.elections| ==>
      && s'.elections[e].id == s.elections[e].id
      && s'.elections[e].tally.term == s.elections[e].tally.term
      && s'.elections[e].pending <= s.elections[e].pending
    ensures VotesInv(s')
  {
    forall e | 0 <= e < |s'.elections| ensures ElectionOk(s', e) { assert ElectionOk(s, e); }
    forall c | c in s'.voteCalls ensures VoteCallOk(s', c) { assert VoteCallOk(s, c); }
    forall x | x in s'.voteAnswers ensures VoteAnswerOk(s', x) { assert VoteAnswerOk(s, x); }
    forall g | g in s'.grants ensures GrantOk(s', g) { assert GrantOk(s, g); }
    forall g, h | g in s'.grants && h in s'.grants ensures SameVote(g, h) {}
  }

  lemma TimeoutKeeps(r: Repairs, s: State, id: nat)
    requires VotesInv(s)
    ensures VotesInv(DoTimeout(r, s, id))
  {
    hide Peers, Ids;
    var s' := DoTimeout(r, s, id);
    if s' != s {
      assert KeepsVotes(s.nodes[id], s'.nodes[id], id);
      forall e | 0 <= e < |s'.elections| ensures ElectionOk(s', e) {
        if e < |s.elections| { assert ElectionOk(s, e); }
      }
      forall c | c in s'.voteCalls ensures VoteCallOk(s', c) { assert VoteCallOk(s, c); }
      forall x | x in s'.voteAnswers ensures VoteAnswerOk(s', x) { assert VoteAnswerOk(s, x); }
      forall g | g in s'.grants ensures GrantOk(s', g) {
        if g in s.grants { assert GrantOk(s, g); }
      }
      forall g, h | g in s'.grants && h in s'.grants ensures SameVote(g, h) {
        if g in s.grants && h in s.grants { assert SameVote(g, h); }
      }
    }
  }

  lemma GrantSaysTerm(r: Repairs, nd: Node, a: VoteArgs)
    ensures var (nd', reply) := HandleVote(r, nd, a); reply.voteGranted ==> nd'.term == reply.term == a.term
  {}

  lemma BoundOnce(nd: Node, g: Grant, h: Grant)
    requires BoundTo(nd, g) && BoundTo(nd, h) && g.term == h.term == nd.term
    ensures g.candidate == h.candidate
  {}

  lemma ReceiveVoteKeeps(r: Repairs, s: State, call: VoteCall)
    requires VotesInv(s)
    ensures VotesInv(DoReceiveVote(r, s, call))
  {
    hide HandleVote, BoundTo, VoterOk;
    var s' := DoReceiveVote(r, s, call);
    if s' != s {
      var i := call.to;
      var nd := s.nodes[i];
      assert VoteCallOk(s, call);
      HandleVoteKeeps(r, nd, call.args, i);
      GrantSaysTerm(r, nd, call.args);
      var granted := HandleVote(r, nd, call.args).1.voteGranted;
      forall e | 0 <= e < |s'.elections| ensures ElectionOk(s', e) { assert ElectionOk(s, e); }
      forall c | c in s'.voteCalls ensures VoteCallOk(s', c) { assert VoteCallOk(s, c); }
      forall x | x in s'.voteAnswers ensures VoteAnswerOk(s', x) {
        if x in s.voteAnswers { assert VoteAnswerOk(s, x); }
      }
      forall g | g in s'.grants ensures GrantOk(s', g) {
        if g in s.grants { assert GrantOk(s, g); }
      }
      forall g, h | g in s'.grants && h in s'.grants ensures SameVote(g, h) {
        if g in s.grants && h in s.grants {
          assert SameVote(g, h);
        } else if g.voter == h.voter && g.term == h.term && g.voter != g.candidate && h.voter != h.candidate {
          assert GrantOk(s', g) && GrantOk(s', h);
          BoundOnce(s'.nodes[i], g, h);
        }
      }
    }
  }

  lemma VoteReturnKeeps(r: Repairs, s: State, e: nat, p: nat, reply: Option<VoteReply>)
    requires VotesInv(s) && r.sameElection
    ensures VotesInv(DoVoteReturn(r, s, e, p, reply))
  {
    hide Peers, Ids;
    var s' := DoVoteReturn(r, s, e, p, reply);
    if e < |s.elections| && p in s.elections[e].pending && s.elections[e].id < |s.nodes| {
      var el := s.elections[e];
      OnVoteReplyKeeps(r, PeersOf(s, el.id), s.nodes[el.id], el.tally, reply, el.id);
      NodeChanged(s, s', el.id);
    }
  }

  lemma SendVoteKeeps(s: State, e: nat, p: nat)
    requires VotesInv(s)
    ensures VotesInv(DoSendVote(s, e, p))
  {
    var s' := DoSendVote(s, e, p);
    forall k | 0 <= k < |s'.elections| ensures ElectionOk(s', k) { assert ElectionOk(s, k); }
    forall c | c in s'.voteCalls ensures VoteCallOk(s', c) {
      if c in s.voteCalls { assert VoteCallOk(s, c); } else { assert ElectionOk(s, e); }
    }
    forall x | x in s'.voteAnswers ensures VoteAnswerOk(s', x) { assert VoteAnswerOk(s, x); }
    forall g | g in s'.grants ensures GrantOk(s', g) { assert GrantOk(s, g); }
  }

  lemma ReceiveAppendKeeps(r: Repairs, s: State, call: AppendCall)
    requires VotesInv(s)
    ensures VotesInv(DoReceiveAppend(r, s, call))
  {
    if call.to < |s.nodes| {
      HandleAppendKeeps(r, s.nodes[call.to], call.args, call.to);
      NodeChanged(s, DoReceiveAppend(r, s, call), call.to);
    }
  }

  lemma AppendReturnKeeps(r: Repairs, s: State, answer: AppendAnswer)
    requires VotesInv(s)
    ensures VotesInv(DoAppendReturn(r, s, answer))
  {
    var id := answer.call.args.leaderId;
    if id < |s.nodes| {
      OnAppendReplyKeeps(r, PeersOf(s, id), s.nodes[id], answer, id);
      hide OnAppendReply, KeepsVotes;
      NodeChanged(s, DoAppendReturn(r, s, answer), id);
    }
  }

  lemma SubmitKeeps(s: State, id: nat, command: Command)
    requires VotesInv(s)
    ensures VotesInv(DoSubmit(s, id, command))
  {
    if id < |s.nodes| { NodeChanged(s, DoSubmit(s, id, command), id); }
  }

  lemma HeartbeatKeeps(r: Repairs, s: State, id: nat, round: Round)
    requires VotesInv(s)
    ensures VotesInv(DoHeartbeat(s, id)) && VotesInv(DoSendAppend(r, s, round))
  {
    if id < |s.nodes| { NodeChanged(s, DoHeartbeat(s, id), id); }
    if round.id < |s.nodes| { NodeChanged(s, DoSendAppend(r, s, round), round.id); }
  }

  lemma ProcessKeeps(s: State, id: nat)
    requires VotesInv(s)
    ensures VotesInv(DoDeliver(s, id)) && VotesInv(DoKill(s, id)) && VotesInv(DoRestart(s, id))
  {
    hide Peers, Ids;
    if id < |s.nodes| {
      NodeChanged(s, DoDeliver(s, id), id);
      NodeChanged(s, DoKill(s, id), id);
      NodeChanged(s, DoRestart(s, id), id);
    }
  }

  lemma VotesKept(r: Repairs, s: State, step: Step)
    requires VotesInv(s) && r.sameElection
    ensures VotesInv(Next(r, s, step))
  {
    hide VotesInv, DoTimeout, DoSendVote, DoReceiveVote, DoVoteReturn, DoSubmit, DoHeartbeat, DoSendAppend,
      DoReceiveAppend, DoAppendReturn, DoDeliver, DoKill, DoRestart;
    match step
    case Timeout(id) => TimeoutKeeps(r, s, id);
    case SendVote(e, p) => SendVoteKeeps(s, e, p);
    case ReceiveVote(call) => ReceiveVoteKeeps(r, s, call);
    case VoteReturn(x) => VoteReturnKeeps(r, s, x.call.election, x.call.to, Some(x.reply));
    case VoteFail(e, p) => VoteReturnKeeps(r, s, e, p, None);
    case ClientSubmit(id, command) => SubmitKeeps(s, id, command);
    case Heartbeat(id) => HeartbeatKeeps(r, s, id, Round(id, 0, 0));
    case SendAppend(round) => HeartbeatKeeps(r, s, 0, round);
    case ReceiveAppend(call) => ReceiveAppendKeeps(r, s, call);
    case AppendReturn(answer) => AppendReturnKeeps(r, s, answer);
    case DeliverReady(id) => ProcessKeeps(s, id);
    case KillNode(id) => ProcessKeeps(s, id);
    case RestartNode(id) => ProcessKeeps(s, id);
  }

  lemma {:induction false} VotesReached(r: Repairs, n: nat, steps: seq<Step>)
    requires r.sameElection
    ensures VotesInv(Exec(r, n, steps))
  {
    if steps != [] {
      VotesReached(r, n, steps[..|steps| - 1]);
      VotesKept(r, Exec(r, n, steps[..|steps| - 1]), steps[|steps| - 1]);
    }
  }

  /** Votes to peers are durable: over any run, crashes and restarts included, a node never grants
      two different candidates in one term. */
  lemma OneVotePerTerm(r: Repairs, n: nat, steps: seq<Step>, x: VoteAnswer, y: VoteAnswer)
    requires r.sameElection
    requires x in Exec(r, n, steps).voteAnswers && y in Exec(r, n, steps).voteAnswers
    requires x.reply.voteGranted && y.reply.voteGranted
    requires x.call.to == y.call.to && x.reply.term == y.reply.term
    ensures x.call.args.candidateId == y.call.args.candidateId
  {
    var s := Exec(r, n, steps);
    VotesReached(r, n, steps);
    assert VoteAnswerOk(s, x) && VoteAnswerOk(s, y);
    assert VoteCallOk(s, x.call) && VoteCallOk(s, y.call);
    assert SameVote(GrantOf(x.call), GrantOf(y.call));
  }
}

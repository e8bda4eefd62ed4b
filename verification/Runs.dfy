/** Building runs: which states the steps of a cluster lead to. */
module Runs {
  import opened RaftTypes
  import opened NodeSteps
  import opened Commands
  import opened Cluster

  // ---------------------------------------------------------------- running on from a state

  function RunFrom(r: Repairs, s: State, steps: seq<Step>): State {
    if steps == [] then s else Next(r, RunFrom(r, s, steps[..|steps| - 1]), steps[|steps| - 1])
  }

  lemma {:induction false} RunOn(r: Repairs, s: State, a: seq<Step>, b: seq<Step>)
    ensures RunFrom(r, RunFrom(r, s, a), b) == RunFrom(r, s, a + b)
  {
    hide Next;
    if b == [] {
      assert a + b == a;
    } else {
      RunOn(r, s, a, b[..|b| - 1]);
      assert (a + b)[..|a + b| - 1] == a + b[..|b| - 1];
    }
  }

  lemma {:induction false} RunIsExec(r: Repairs, n: nat, steps: seq<Step>)
    ensures RunFrom(r, Init(n), steps) == Exec(r, n, steps)
  {
    hide Next;
    if steps != [] { RunIsExec(r, n, steps[..|steps| - 1]); }
  }

  /** Some steps lead from s to s'; there are restarts among them only if `crashes`. */
  ghost predicate Reaches(r: Repairs, s: State, s': State, crashes: bool) {
    exists steps :: (crashes || CrashFree(steps)) && RunFrom(r, s, steps) == s'
  }

  lemma Onward(r: Repairs, a: State, b: State, c: State, crashes: bool)
    requires Reaches(r, a, b, crashes) && Reaches(r, b, c, crashes)
    ensures Reaches(r, a, c, crashes)
  {
    hide Next, RunFrom;
    var p :| (crashes || CrashFree(p)) && RunFrom(r, a, p) == b;
    var q :| (crashes || CrashFree(q)) && RunFrom(r, b, q) == c;
    RunOn(r, a, p, q);
    assert crashes || CrashFree(p + q);
  }

  lemma Stays(r: Repairs, s: State)
    ensures Reaches(r, s, s, false)
  {
    assert RunFrom(r, s, []) == s;
  }

  lemma WithCrashes(r: Repairs, s: State, s': State)
    requires Reaches(r, s, s', false)
    ensures Reaches(r, s, s', true)
  {}

  lemma OneStep(r: Repairs, s: State, step: Step)
    ensures Reaches(r, s, Next(r, s, step), step.RestartNode?)
  {
    hide Next;
    assert [step][..0] == [];
    assert RunFrom(r, s, []) == s;
    assert RunFrom(r, s, [step]) == Next(r, s, step);
  }

  /** A state that is reached is the state after a run. */
  lemma ReachedBy(r: Repairs, n: nat, s: State, crashes: bool) returns (steps: seq<Step>)
    requires Reaches(r, Init(n), s, crashes)
    ensures Exec(r, n, steps) == s && (crashes || CrashFree(steps))
  {
    hide Next, RunFrom, Exec;
    steps :| (crashes || CrashFree(steps)) && RunFrom(r, Init(n), steps) == s;
    RunIsExec(r, n, steps);
  }

  /** From s to s', nothing sent, won or delivered is lost. */
  ghost predicate Grown(s: State, s': State) {
    && |s'.nodes| == |s.nodes|
    && s.voteAnswers <= s'.voteAnswers && s.rounds <= s'.rounds
    && s.appendCalls <= s'.appendCalls && s.appendAnswers <= s'.appendAnswers
    && s.grants <= s'.grants && s.wins <= s'.wins && s.delivered <= s'.delivered
  }

  // ---------------------------------------------------------------- single steps of an election

  function ArgsOf(s: State, i: nat, term: nat): VoteArgs
    requires i < |s.nodes|
  {
    VoteArgs(term, i, LastIndex(s.nodes[i].log), LastTerm(s.nodes[i].log))
  }

  lemma TimesOut(r: Repairs, s: State, i: nat) returns (s': State)
    requires i < |s.nodes| && s.nodes[i].role in {Follower, Candidate}
    ensures Reaches(r, s, s', false) && Grown(s, s') && s'.wins == s.wins
    ensures s'.nodes == s.nodes[i := StartElection(r, i, s.nodes[i])]
    ensures var nd, nd' := s.nodes[i], s'.nodes[i];
      && nd'.role == Candidate && nd'.term == nd.term + 1 && nd'.log == nd.log
      && nd'.commitIndex == nd.commitIndex && nd'.lastApplied == nd.lastApplied && nd'.ready == nd.ready
    ensures Grant(i, s.nodes[i].term + 1, i, LastIndex(s.nodes[i].log), LastTerm(s.nodes[i].log)) in s'.grants
    ensures s'.elections
      == s.elections + [Election(i, Tally(s.nodes[i].term + 1, 0, |s.nodes| - 1), PeersOf(s, i), {})]
  {
    hide Peers, Ids, Reaches;
    OneStep(r, s, Timeout(i));
    s' := Next(r, s, Timeout(i));
  }

  /** Peer p of election e is asked and answers; the answer is held back. */
  lemma Asks(r: Repairs, s: State, e: nat, p: nat) returns (s': State, answer: VoteAnswer)
    requires e < |s.elections| && p in s.elections[e].pending && p < |s.nodes| && s.elections[e].id < |s.nodes|
    ensures Reaches(r, s, s', false) && Grown(s, s') && s'.wins == s.wins && s'.elections == s.elections
    ensures var args := ArgsOf(s, s.elections[e].id, s.elections[e].tally.term);
      && answer == VoteAnswer(VoteCall(e, p, args), HandleVote(r, s.nodes[p], args).1)
      && s'.nodes == s.nodes[p := HandleVote(r, s.nodes[p], args).0]
    ensures answer in s'.voteAnswers
    ensures answer.reply.voteGranted ==>
      Grant(p, answer.call.args.term, answer.call.args.candidateId, answer.call.args.lastLogIndex, answer.call.args.lastLogTerm) in s'.grants
  {
    hide HandleVote, Reaches;
    var call := VoteCall(e, p, ArgsOf(s, s.elections[e].id, s.elections[e].tally.term));
    OneStep(r, s, SendVote(e, p));
    var m := Next(r, s, SendVote(e, p));
    OneStep(r, m, ReceiveVote(call));
    s' := Next(r, m, ReceiveVote(call));
    Onward(r, s, m, s', false);
    answer := VoteAnswer(call, HandleVote(r, s.nodes[p], call.args).1);
  }

  /** A peer's reply, or the failure of its call, reaches the candidate. */
  lemma Hears(r: Repairs, s: State, e: nat, p: nat, reply: Option<VoteReply>) returns (s': State)
    requires reply.Some? ==>
      exists x :: x in s.voteAnswers && x.call.election == e && x.call.to == p && x.reply == reply.value
    ensures Reaches(r, s, s', false) && s' == DoVoteReturn(r, s, e, p, reply)
  {
    hide Peers, Ids, Reaches, DoVoteReturn;
    var step := VoteFail(e, p);
    if reply.Some? {
      var x :| x in s.voteAnswers && x.call.election == e && x.call.to == p && x.reply == reply.value;
      step := VoteReturn(x);
    }
    OneStep(r, s, step);
    s' := Next(r, s, step);
  }

  // ---------------------------------------------------------------- a whole election

  /** Candidate i of election e is still standing, and the peers in `pending` have not been heard. */
  ghost predicate Standing(s: State, e: nat) {
    && e < |s.elections| && s.elections[e].id < |s.nodes|
    && var el := s.elections[e];
    && s.nodes[el.id].role == Candidate && s.nodes[el.id].term == el.tally.term
    && el.pending <= PeersOf(s, el.id) && el.tally.repliesNeeded == |el.pending|
  }

  /** The peers among `ps` that would grant the vote. */
  ghost function Granters(r: Repairs, nodes: seq<Node>, ps: set<nat>, a: VoteArgs): set<nat> {
    set p | p in ps && p < |nodes| && Grants(r, nodes[p], a)
  }

  /** Every node of `ps` is alive and not ahead of the term. */
  ghost predicate Free(nodes: seq<Node>, ps: set<nat>, term: nat) {
    forall p :: p in ps ==> p < |nodes| && nodes[p].role != Dead && nodes[p].term <= term
  }

  lemma Replies(r: Repairs, nd: Node, a: VoteArgs)
    requires nd.role != Dead && nd.term <= a.term
    ensures HandleVote(r, nd, a).1 == VoteReply(a.term, Grants(r, nd, a))
  {}

  lemma Tallied(r: Repairs, peers: set<nat>, nd: Node, t: Tally, reply: Option<VoteReply>)
    requires nd.role == Candidate && (r.sameElection ==> nd.term == t.term)
    requires reply.Some? ==> reply.value.term == t.term
    ensures AfterReply(r, nd, t, reply) == nd
    ensures Counts(r, nd, t, reply) <==> reply.Some? && reply.value.voteGranted
    ensures var votes := t.votesReceived + if Counts(r, nd, t, reply) then 1 else 0;
      && TallyAfter(r, nd, t, reply).term == t.term && TallyAfter(r, nd, t, reply).repliesNeeded == t.repliesNeeded - 1
      && (t.repliesNeeded != 1 ==> TallyAfter(r, nd, t, reply).votesReceived == votes)
      && (Wins(r, peers, nd, t, reply) <==> t.repliesNeeded == 1 && (votes + 1) * 2 > |peers| + 1)
  {}

  /** One peer is heard: it is asked first, or its call fails. */
  lemma OnePeer(r: Repairs, s: State, e: nat, p: nat, asked: bool) returns (s': State)
    requires Standing(s, e) && p in s.elections[e].pending
    requires asked ==> Free(s.nodes, {p}, s.elections[e].tally.term)
    ensures Reaches(r, s, s', false) && Grown(s, s')
    ensures var el := s.elections[e]; var a := ArgsOf(s, el.id, el.tally.term);
      var votes := el.tally.votesReceived + if asked && Grants(r, s.nodes[p], a) then 1 else 0;
      var nodes := if asked then s.nodes[p := HandleVote(r, s.nodes[p], a).0] else s.nodes;
      && |s'.elections| == |s.elections|
      && (forall k :: 0 <= k < |s.elections| && k != e ==> s'.elections[k] == s.elections[k])
      && (|el.pending| > 1 ==>
            && s'.nodes == nodes && Standing(s', e) && s'.wins == s.wins
            && s'.elections[e].id == el.id && s'.elections[e].pending == el.pending - {p}
            && s'.elections[e].tally.term == el.tally.term && s'.elections[e].tally.votesReceived == votes)
      && (|el.pending| == 1 && (votes + 1) * 2 > |s.nodes| ==>
            && s'.nodes == nodes[el.id := StartLeader(nodes[el.id], PeersOf(s, el.id))]
            && s'.wins == s.wins + {Win(el.id, el.tally.term)})
  {
    hide Peers, Ids, Reaches, HandleVote, StartLeader, Grants, AfterReply, Counts, TallyAfter, Wins;
    var el := s.elections[e];
    var a := ArgsOf(s, el.id, el.tally.term);
    var m, reply := s, None;
    Stays(r, s);
    if asked {
      var answer: VoteAnswer;
      m, answer := Asks(r, s, e, p);
      reply := Some(answer.reply);
      Replies(r, s.nodes[p], a);
    }
    s' := Hears(r, m, e, p, reply);
    Onward(r, s, m, s', false);
    Tallied(r, PeersOf(s, el.id), s.nodes[el.id], el.tally, reply);
    OneHeard(r, m, s', e, p, reply);
  }

  lemma OneHeard(r: Repairs, m: State, s': State, e: nat, p: nat, reply: Option<VoteReply>)
    requires e < |m.elections| && m.elections[e].id < |m.nodes| && p in m.elections[e].pending
    requires s' == DoVoteReturn(r, m, e, p, reply)
    requires AfterReply(r, m.nodes[m.elections[e].id], m.elections[e].tally, reply) == m.nodes[m.elections[e].id]
    ensures var el := m.elections[e]; var nd, peers := m.nodes[el.id], PeersOf(m, el.id);
      && Grown(m, s') && |s'.elections| == |m.elections|
      && (forall k :: 0 <= k < |m.elections| && k != e ==> s'.elections[k] == m.elections[k])
      && s'.elections[e].id == el.id && s'.elections[e].pending == el.pending - {p}
      && s'.elections[e].tally == TallyAfter(r, nd, el.tally, reply)
      && s'.nodes == (if Wins(r, peers, nd, el.tally, reply) then m.nodes[el.id := StartLeader(nd, peers)] else m.nodes)
      && s'.wins == (if Wins(r, peers, nd, el.tally, reply) then m.wins + {Win(el.id, StartLeader(nd, peers).term)} else m.wins)
      && StartLeader(nd, peers).term == nd.term
  {
    hide AfterReply, Counts, TallyAfter, Wins;
  }

  /** The nodes after the peers in `ps` have voted. */
  ghost predicate Voted(r: Repairs, nodes: seq<Node>, nodes': seq<Node>, ps: set<nat>, a: VoteArgs) {
    |nodes'| == |nodes| && forall k :: 0 <= k < |nodes| ==>
      nodes'[k] == if k in ps then HandleVote(r, nodes[k], a).0 else nodes[k]
  }

  lemma GrantersLess(r: Repairs, nodes: seq<Node>, nodes': seq<Node>, ps: set<nat>, a: VoteArgs, p: nat)
    requires p !in ps && |nodes'| == |nodes|
    requires forall k :: 0 <= k < |nodes| && k != p ==> nodes'[k] == nodes[k]
    ensures Granters(r, nodes', ps, a) == Granters(r, nodes, ps, a)
    ensures |Granters(r, nodes, ps + {p}, a)|
      == |Granters(r, nodes, ps, a)| + if p < |nodes| && Grants(r, nodes[p], a) then 1 else 0
  {
    hide Grants;
    var one := if p < |nodes| && Grants(r, nodes[p], a) then {p} else {};
    assert Granters(r, nodes, ps + {p}, a) == Granters(r, nodes, ps, a) + one;
  }

  /** From s to s', election e is held to its end and won, with the votes of `asked`. */
  ghost predicate Held(r: Repairs, s: State, s': State, e: nat, asked: set<nat>)
    requires e < |s.elections| && s.elections[e].id < |s.nodes|
  {
    var el := s.elections[e]; var nd := s.nodes[el.id];
    && Reaches(r, s, s', false) && Grown(s, s')
    && |s'.elections| == |s.elections|
    && (forall k :: 0 <= k < |s.elections| && k != e ==> s'.elections[k] == s.elections[k])
    && s'.wins == s.wins + {Win(el.id, el.tally.term)}
    && s'.nodes[el.id] == StartLeader(nd, PeersOf(s, el.id))
    && Voted(r, s.nodes, s'.nodes[el.id := nd], asked, ArgsOf(s, el.id, el.tally.term))
  }

  /** Peer p was heard first, and the others after it. */
  lemma HeldAfter(r: Repairs, s: State, m: State, s': State, e: nat, p: nat, asked: set<nat>)
    requires Standing(s, e) && Standing(m, e) && p in s.elections[e].pending && asked <= s.elections[e].pending
    requires Reaches(r, s, m, false) && Grown(s, m) && m.wins == s.wins
    requires |m.elections| == |s.elections|
    requires forall k :: 0 <= k < |s.elections| && k != e ==> m.elections[k] == s.elections[k]
    requires m.elections[e].id == s.elections[e].id && m.elections[e].tally.term == s.elections[e].tally.term
    requires var el := s.elections[e]; var a := ArgsOf(s, el.id, el.tally.term);
      m.nodes == if p in asked then s.nodes[p := HandleVote(r, s.nodes[p], a).0] else s.nodes
    requires Held(r, m, s', e, asked - {p})
    ensures Held(r, s, s', e, asked)
  {
    hide Peers, Ids, Reaches, HandleVote, StartLeader;
    Onward(r, s, m, s', false);
    var id := s.elections[e].id;
    assert p != id;
    assert m.nodes[id] == s.nodes[id];
  }

  /** The peers still pending are heard one by one, those in `asked` with their votes, the others
      with failed calls; the votes make a majority. */
  lemma {:induction false} Ballot(r: Repairs, s: State, e: nat, asked: set<nat>) returns (s': State)
    requires Standing(s, e) && s.elections[e].pending != {} && asked <= s.elections[e].pending
    requires Free(s.nodes, asked, s.elections[e].tally.term)
    requires var el := s.elections[e];
      (el.tally.votesReceived + |Granters(r, s.nodes, asked, ArgsOf(s, el.id, el.tally.term))| + 1) * 2 > |s.nodes|
    ensures Held(r, s, s', e, asked)
    decreases |s.elections[e].pending|
  {
    hide Peers, Ids, Reaches, HandleVote, StartLeader, Grants, Granters, Held, Grown, Free;
    var el := s.elections[e];
    var a := ArgsOf(s, el.id, el.tally.term);
    var p :| p in el.pending;
    if p in asked { FreeOne(s.nodes, asked, el.tally.term, p); }
    var m := OnePeer(r, s, e, p, p in asked);
    var rest := asked - {p};
    if p in asked { assert rest + {p} == asked; } else { assert rest == asked; }
    if |el.pending| > 1 {
      assert |el.pending - {p}| == |el.pending| - 1;
      GrantersLess(r, s.nodes, m.nodes, rest, a, p);
      StillFree(s.nodes, m.nodes, asked, el.tally.term, p);
      s' := Ballot(r, m, e, rest);
      HeldAfter(r, s, m, s', e, p, asked);
    } else {
      s' := m;
      assert |el.pending - {p}| == 0;
      assert rest == {};
      GrantersLess(r, s.nodes, s.nodes, rest, a, p);
      NoGranters(r, s.nodes, a);
      HeldLast(r, s, s', e, p, asked);
    }
  }

  lemma HeldLast(r: Repairs, s: State, s': State, e: nat, p: nat, asked: set<nat>)
    requires Standing(s, e) && p in s.elections[e].pending && asked <= {p}
    requires Reaches(r, s, s', false) && Grown(s, s') && |s'.elections| == |s.elections|
    requires forall k :: 0 <= k < |s.elections| && k != e ==> s'.elections[k] == s.elections[k]
    requires var el := s.elections[e]; var a := ArgsOf(s, el.id, el.tally.term);
      var nodes := if p in asked then s.nodes[p := HandleVote(r, s.nodes[p], a).0] else s.nodes;
      && s'.nodes == nodes[el.id := StartLeader(nodes[el.id], PeersOf(s, el.id))]
      && s'.wins == s.wins + {Win(el.id, el.tally.term)}
    ensures Held(r, s, s', e, asked)
  {
    hide Peers, Ids, Reaches, HandleVote, StartLeader;
  }

  lemma FreeOne(nodes: seq<Node>, ps: set<nat>, term: nat, p: nat)
    requires Free(nodes, ps, term) && p in ps
    ensures Free(nodes, {p}, term)
  {}

  lemma StillFree(nodes: seq<Node>, nodes': seq<Node>, ps: set<nat>, term: nat, p: nat)
    requires Free(nodes, ps, term) && |nodes'| == |nodes|
    requires forall k :: 0 <= k < |nodes| && k != p ==> nodes'[k] == nodes[k]
    ensures Free(nodes', ps - {p}, term)
  {}

  lemma NoGranters(r: Repairs, nodes: seq<Node>, a: VoteArgs)
    ensures Granters(r, nodes, {}, a) == {}
  {}

  /** Node i times out, the peers in `asked` are asked for their votes, and i is elected. */
  lemma Elect(r: Repairs, s: State, i: nat, asked: set<nat>) returns (s': State)
    requires i < |s.nodes| && |s.nodes| > 1 && s.nodes[i].role in {Follower, Candidate} && asked <= PeersOf(s, i)
    requires Free(s.nodes, asked, s.nodes[i].term + 1)
    requires (|Granters(r, s.nodes, asked, ArgsOf(s, i, s.nodes[i].term + 1))| + 1) * 2 > |s.nodes|
    ensures Reaches(r, s, s', false) && Grown(s, s')
    ensures |s.elections| <= |s'.elections| && s'.elections[..|s.elections|] == s.elections
    ensures s'.wins == s.wins + {Win(i, s.nodes[i].term + 1)}
    ensures s'.nodes[i] == StartLeader(StartElection(r, i, s.nodes[i]), PeersOf(s, i))
    ensures forall k :: 0 <= k < |s.nodes| && k != i ==>
      s'.nodes[k] == (if k in asked then HandleVote(r, s.nodes[k], ArgsOf(s, i, s.nodes[i].term + 1)).0 else s.nodes[k])
  {
    hide Peers, Ids, Reaches, HandleVote, StartLeader, StartElection, Granters;
    var m := TimesOut(r, s, i);
    var e, a := |s.elections|, ArgsOf(s, i, s.nodes[i].term + 1);
    Stands(r, i, s.nodes[i]);
    SameGranters(r, s.nodes, m.nodes, asked, a, i);
    s' := Ballot(r, m, e, asked);
    Onward(r, s, m, s', false);
    assert m.elections[..|s.elections|] == s.elections;
  }

  lemma SameGranters(r: Repairs, nodes: seq<Node>, nodes': seq<Node>, ps: set<nat>, a: VoteArgs, i: nat)
    requires i !in ps && |nodes'| == |nodes|
    requires forall k :: 0 <= k < |nodes| && k != i ==> nodes'[k] == nodes[k]
    ensures Granters(r, nodes', ps, a) == Granters(r, nodes, ps, a)
  {
    hide Grants;
  }

  lemma Stands(r: Repairs, i: nat, nd: Node)
    ensures var nd' := StartElection(r, i, nd);
      nd'.role == Candidate && nd'.term == nd.term + 1 && nd'.log == nd.log
  {}

  // ---------------------------------------------------------------- replication

  /** Node i appends a command if it leads. */
  lemma Submits(r: Repairs, s: State, i: nat, c: Command) returns (s': State)
    requires i < |s.nodes|
    ensures Reaches(r, s, s', false) && Grown(s, s') && s'.wins == s.wins
    ensures s'.nodes == s.nodes[i := Submit(s.nodes[i], c).0]
  {
    hide Peers, Ids, Reaches, Submit;
    OneStep(r, s, ClientSubmit(i, c));
    s' := Next(r, s, ClientSubmit(i, c));
  }

  /** A goroutine of a heartbeat of node i sends its request. */
  lemma Sends(r: Repairs, s: State, i: nat, term: nat, p: nat) returns (s': State)
    requires i < |s.nodes| && Round(i, term, p) in s.rounds && Snapshot(r, i, s.nodes[i], term, p).Some?
    ensures Reaches(r, s, s', false) && Grown(s, s') && s'.nodes == s.nodes && s'.wins == s.wins && s'.elections == s.elections
    ensures AppendCall(p, Snapshot(r, i, s.nodes[i], term, p).value) in s'.appendCalls
  {
    hide Peers, Ids, Reaches, Snapshot;
    OneStep(r, s, SendAppend(Round(i, term, p)));
    s' := Next(r, s, SendAppend(Round(i, term, p)));
  }

  lemma Beats(r: Repairs, s: State, i: nat) returns (s': State)
    requires i < |s.nodes| && s.nodes[i].role == Leader
    ensures Reaches(r, s, s', false) && Grown(s, s') && s'.nodes == s.nodes && s'.wins == s.wins && s'.elections == s.elections
    ensures forall p :: p in PeersOf(s, i) ==> Round(i, s.nodes[i].term, p) in s'.rounds
  {
    hide Peers, Ids, Reaches;
    OneStep(r, s, Heartbeat(i));
    s' := Next(r, s, Heartbeat(i));
  }

  /** A leader's heartbeat sends its request to one peer. */
  lemma Requests(r: Repairs, s: State, i: nat, p: nat) returns (s': State)
    requires i < |s.nodes| && s.nodes[i].role == Leader && p in PeersOf(s, i)
    requires Snapshot(r, i, s.nodes[i], s.nodes[i].term, p).Some?
    ensures Reaches(r, s, s', false) && Grown(s, s') && s'.nodes == s.nodes && s'.wins == s.wins && s'.elections == s.elections
    ensures Round(i, s.nodes[i].term, p) in s'.rounds
    ensures AppendCall(p, Snapshot(r, i, s.nodes[i], s.nodes[i].term, p).value) in s'.appendCalls
  {
    hide Peers, Ids, Reaches, Snapshot;
    var m := Beats(r, s, i);
    s' := Sends(r, m, i, s.nodes[i].term, p);
    Onward(r, s, m, s', false);
  }

  lemma Receives(r: Repairs, s: State, call: AppendCall) returns (s': State)
    requires call in s.appendCalls && call.to < |s.nodes|
    ensures Reaches(r, s, s', false) && Grown(s, s') && s'.wins == s.wins && s'.elections == s.elections
    ensures s'.nodes == s.nodes[call.to := HandleAppend(r, s.nodes[call.to], call.args).0]
    ensures AppendAnswer(call, HandleAppend(r, s.nodes[call.to], call.args).1) in s'.appendAnswers
  {
    hide Peers, Ids, Reaches, HandleAppend;
    OneStep(r, s, ReceiveAppend(call));
    s' := Next(r, s, ReceiveAppend(call));
  }

  lemma Returns(r: Repairs, s: State, x: AppendAnswer) returns (s': State)
    requires x in s.appendAnswers && x.call.args.leaderId < |s.nodes|
    ensures Reaches(r, s, s', false) && Grown(s, s') && s'.wins == s.wins
    ensures var i := x.call.args.leaderId;
      s'.nodes == s.nodes[i := OnAppendReply(r, PeersOf(s, i), s.nodes[i], x.call.to, x.call.args, x.reply)]
  {
    hide Peers, Ids, Reaches, OnAppendReply;
    OneStep(r, s, AppendReturn(x));
    s' := Next(r, s, AppendReturn(x));
  }

  /** A leader's request reaches a peer and its reply comes back. */
  lemma Exchanges(r: Repairs, s: State, i: nat, p: nat) returns (s': State)
    requires i < |s.nodes| && s.nodes[i].role == Leader && p in PeersOf(s, i)
    requires Snapshot(r, i, s.nodes[i], s.nodes[i].term, p).Some?
    ensures Reaches(r, s, s', false) && Grown(s, s') && s'.wins == s.wins
    ensures var a := Snapshot(r, i, s.nodes[i], s.nodes[i].term, p).value;
      var (nd, reply) := HandleAppend(r, s.nodes[p], a);
      s'.nodes == s.nodes[p := nd][i := OnAppendReply(r, PeersOf(s, i), s.nodes[i], p, a, reply)]
  {
    hide Peers, Ids, Reaches, HandleAppend, OnAppendReply, Snapshot;
    var call := AppendCall(p, Snapshot(r, i, s.nodes[i], s.nodes[i].term, p).value);
    SnapshotNames(r, i, s.nodes[i], s.nodes[i].term, p);
    var m := Requests(r, s, i, p);
    var m' := Receives(r, m, call);
    s' := Returns(r, m', AppendAnswer(call, HandleAppend(r, s.nodes[p], call.args).1));
    Onward(r, s, m, m', false);
    Onward(r, s, m', s', false);
  }

  lemma SnapshotNames(r: Repairs, i: nat, nd: Node, term: nat, p: nat)
    requires Snapshot(r, i, nd, term, p).Some?
    ensures Snapshot(r, i, nd, term, p).value.leaderId == i
  {}

  /** A node sends everything it has committed, having sent nothing before. */
  lemma Delivers(r: Repairs, s: State, i: nat) returns (s': State)
    requires i < |s.nodes| && s.nodes[i].ready > 0 && s.nodes[i].lastApplied == -1
    requires s.nodes[i].commitIndex < |s.nodes[i].log|
    ensures Reaches(r, s, s', false) && Grown(s, s') && s'.wins == s.wins
    ensures s'.nodes == s.nodes[i := Deliver(s.nodes[i]).0]
    ensures var nd := s.nodes[i]; forall k: nat :: k <= nd.commitIndex ==>
      Delivery(i, nd.log[..k + 1], CommitEntry(nd.log[k].command, k, nd.term)) in s'.delivered
  {
    hide Peers, Ids, Reaches;
    OneStep(r, s, DeliverReady(i));
    s' := Next(r, s, DeliverReady(i));
    var nd, out := s.nodes[i], Deliver(s.nodes[i]).1;
    forall k: nat | k <= nd.commitIndex
      ensures Delivery(i, nd.log[..k + 1], CommitEntry(nd.log[k].command, k, nd.term)) in s'.delivered
    {
      assert out[k] == CommitEntry(nd.log[k].command, k, nd.term);
      assert out[k] in out;
    }
  }

  /** A crash and a start from storage; the node's own goroutines are gone. */
  lemma Restarts(r: Repairs, s: State, i: nat) returns (s': State)
    requires i < |s.nodes|
    ensures Reaches(r, s, s', true)
    ensures s'.nodes == s.nodes[i := Restart(s.nodes[i])] && s'.wins == s.wins
    ensures s'.appendCalls == s.appendCalls && s'.appendAnswers == s.appendAnswers && s'.delivered == s.delivered
    ensures forall x :: x in s'.rounds <==> x in s.rounds && x.id != i
    ensures |s'.elections| == |s.elections| && forall e :: 0 <= e < |s.elections| ==>
      s'.elections[e].pending == (if s.elections[e].id == i then {} else s.elections[e].pending)
  {
    hide Peers, Ids, Reaches, Restart;
    OneStep(r, s, RestartNode(i));
    s' := Next(r, s, RestartNode(i));
  }
}

/** Short series of steps between nodes that are described by role, term and log: elections,
    replication, commitment. */
module Scenes {
  import opened RaftTypes
  import opened NodeSteps
  import opened Commands
  import opened Cluster
  import opened LogHistory
  import opened Runs

  // ---------------------------------------------------------------- one node

  /** A node that has committed nothing yet. */
  ghost predicate Seat(nd: Node, role: Role, term: nat, log: Log) {
    && nd.role == role && nd.term == term && nd.log == log
    && nd.commitIndex == -1 && nd.lastApplied == -1 && nd.ready == 0
  }

  /** The books of a leader that nobody has answered yet. */
  ghost predicate NewBooks(nd: Node, peers: set<nat>, next: nat) {
    forall p :: p in peers ==>
      p in nd.nextIndex && nd.nextIndex[p] == next && p in nd.matchIndex && nd.matchIndex[p] == -1
  }

  /** A node that has taken a term and otherwise stays as it is. */
  ghost predicate Moved(nd: Node, nd': Node, term: nat, log: Log) {
    && nd'.role == Follower && nd'.term == term && nd'.log == log
    && nd'.commitIndex == nd.commitIndex && nd'.lastApplied == nd.lastApplied && nd'.ready == nd.ready
    && nd'.nextIndex == nd.nextIndex && nd'.matchIndex == nd.matchIndex
    && nd'.disk == Saved(term, nd'.votedFor, log)
  }

  /** A new leader with the log and the progress that the node had. */
  ghost predicate Heads(r: Repairs, nd: Node, nd': Node, peers: set<nat>) {
    && nd'.role == Leader && nd'.term == nd.term + 1 && nd'.log == nd.log
    && nd'.commitIndex == nd.commitIndex && nd'.lastApplied == nd.lastApplied && nd'.ready == nd.ready
    && NewBooks(nd', peers, |nd.log|)
    && (!r.persistAlways ==> nd'.disk == nd.disk)
  }

  lemma Crowned(r: Repairs, i: nat, nd: Node, peers: set<nat>)
    ensures Heads(r, nd, StartLeader(StartElection(r, i, nd), peers), peers)
  {}

  lemma Asked(r: Repairs, nd: Node, a: VoteArgs)
    requires nd.role != Dead && nd.term < a.term
    ensures Grants(r, nd, a) <==> UpToDate(a.lastLogTerm, a.lastLogIndex, nd.log)
    ensures Moved(nd, HandleVote(r, nd, a).0, a.term, nd.log)
    ensures !Grants(r, nd, a) ==> HandleVote(r, nd, a).0.votedFor == -1
  {}

  /** A node with the log `other` votes for a candidate with the log `log`. */
  predicate Newer(log: Log, other: Log) {
    UpToDate(LastTerm(log), LastIndex(log), other)
  }

  // ---------------------------------------------------------------- elections

  /** Node i wins the next term; the nodes in `yes`, among those in `asked`, vote for it. */
  lemma GetsElected(r: Repairs, s: State, i: nat, asked: set<nat>, yes: set<nat>) returns (s': State)
    requires i < |s.nodes| && |s.nodes| > 1 && s.nodes[i].role in {Follower, Candidate}
    requires yes <= asked <= PeersOf(s, i) && (|yes| + 1) * 2 > |s.nodes|
    requires forall p :: p in asked ==> s.nodes[p].role != Dead && s.nodes[p].term <= s.nodes[i].term
    requires forall p :: p in yes ==> Newer(s.nodes[i].log, s.nodes[p].log)
    ensures Reaches(r, s, s', false) && Grown(s, s') && |s'.nodes| == |s.nodes|
    ensures |s.elections| <= |s'.elections| && s'.elections[..|s.elections|] == s.elections
    ensures s'.wins == s.wins + {Win(i, s.nodes[i].term + 1)}
    ensures Heads(r, s.nodes[i], s'.nodes[i], PeersOf(s, i))
    ensures forall p :: p in asked ==> Moved(s.nodes[p], s'.nodes[p], s.nodes[i].term + 1, s.nodes[p].log)
    ensures forall p :: p in asked ==> Newer(s.nodes[i].log, s.nodes[p].log) || s'.nodes[p].votedFor == -1
    ensures forall k :: 0 <= k < |s.nodes| && k != i && k !in asked ==> s'.nodes[k] == s.nodes[k]
  {
    hide Peers, Ids, Reaches, HandleVote, StartLeader, StartElection, Grants, UpToDate, Moved, Heads;
    var a := ArgsOf(s, i, s.nodes[i].term + 1);
    forall p | p in asked ensures Grants(r, s.nodes[p], a) <==> UpToDate(a.lastLogTerm, a.lastLogIndex, s.nodes[p].log)
      ensures Moved(s.nodes[p], HandleVote(r, s.nodes[p], a).0, a.term, s.nodes[p].log)
      ensures !Grants(r, s.nodes[p], a) ==> HandleVote(r, s.nodes[p], a).0.votedFor == -1
    {
      Asked(r, s.nodes[p], a);
    }
    SubsetSize(yes, Granters(r, s.nodes, asked, a));
    s' := Elect(r, s, i, asked);
    Crowned(r, i, s.nodes[i], PeersOf(s, i));
  }

  // ---------------------------------------------------------------- replication

  /** The entries and the place of a request that starts at `next`. */
  function RequestAt(i: nat, nd: Node, next: nat): AppendArgs
    requires next <= |nd.log|
  {
    AppendArgs(nd.term, i, next - 1, if next > 0 then nd.log[next - 1].term else -1, nd.log[next..], nd.commitIndex)
  }

  lemma Snapped(r: Repairs, i: nat, nd: Node, p: nat, next: nat)
    requires nd.role == Leader && p in nd.nextIndex && nd.nextIndex[p] == next <= |nd.log|
    ensures Snapshot(r, i, nd, nd.term, p) == Some(RequestAt(i, nd, next))
  {}

  /** A node whose log is `log` answers Success to the request, and then has the log `merged`. */
  ghost predicate Takes(r: Repairs, log: Log, a: AppendArgs, merged: Log) {
    if a.prevLogIndex == -1 then
      if r.mergeAtStart then merged == Merge(log, 0, a.entries) else log == [] && merged == []
    else
      && a.prevLogIndex < |log| && a.prevLogTerm == log[a.prevLogIndex].term
      && merged == Merge(log, a.prevLogIndex + 1, a.entries)
  }

  lemma Stores(r: Repairs, nd: Node, a: AppendArgs, merged: Log)
    requires nd.role != Dead && nd.term <= a.term && Takes(r, nd.log, a, merged)
    ensures HandleAppend(r, nd, a).1 == AppendReply(a.term, true, 0, 0)
    ensures a.leaderCommit <= nd.commitIndex ==> Moved(nd, HandleAppend(r, nd, a).0, a.term, merged)
  {
    hide Merge, Hint;
  }

  /** A merge that begins behind the log, or where the terms differ. */
  lemma Overwrites(log: Log, at: nat, es: Log)
    requires at <= |log| && es != [] && (at < |log| ==> log[at].term != es[0].term)
    ensures Merge(log, at, es) == log[..at] + es
  {
    assert es[0..] == es;
  }

  /** A request of leader i reaches node p, and the reply is held back. */
  lemma Ships(r: Repairs, s: State, i: nat, p: nat, next: nat, merged: Log) returns (s': State)
    requires i < |s.nodes| && s.nodes[i].role == Leader && p in PeersOf(s, i)
    requires p in s.nodes[i].nextIndex && s.nodes[i].nextIndex[p] == next <= |s.nodes[i].log|
    requires s.nodes[p].role != Dead && s.nodes[p].term <= s.nodes[i].term
    requires s.nodes[i].commitIndex <= s.nodes[p].commitIndex
    requires Takes(r, s.nodes[p].log, RequestAt(i, s.nodes[i], next), merged)
    ensures Reaches(r, s, s', false) && Grown(s, s') && s'.wins == s.wins
    ensures s'.nodes == s.nodes[p := s'.nodes[p]] && Moved(s.nodes[p], s'.nodes[p], s.nodes[i].term, merged)
    ensures AppendAnswer(AppendCall(p, RequestAt(i, s.nodes[i], next)), AppendReply(s.nodes[i].term, true, 0, 0))
      in s'.appendAnswers
  {
    hide Peers, Ids, Reaches, HandleAppend, Snapshot, Moved, Takes;
    var a := RequestAt(i, s.nodes[i], next);
    Snapped(r, i, s.nodes[i], p, next);
    var m := Requests(r, s, i, p);
    s' := Receives(r, m, AppendCall(p, a));
    Onward(r, s, m, s', false);
    Stores(r, s.nodes[p], a, merged);
  }

  lemma Counted(r: Repairs, peers: set<nat>, nd: Node, p: nat, a: AppendArgs)
    requires nd.role == Leader && a.term <= nd.term && (r.sameTermReply ==> a.term == nd.term)
    ensures OnAppendReply(r, peers, nd, p, a, AppendReply(a.term, true, 0, 0))
      == ScanCommit(peers, Recorded(nd, p, LastSent(a) + 1))
  {
    hide ScanCommit;
  }

  /** ... and the reply is counted. */
  lemma Acks(r: Repairs, s: State, i: nat, p: nat, next: nat, merged: Log) returns (s': State)
    requires i < |s.nodes| && s.nodes[i].role == Leader && p in PeersOf(s, i)
    requires p in s.nodes[i].nextIndex && s.nodes[i].nextIndex[p] == next <= |s.nodes[i].log|
    requires s.nodes[p].role != Dead && s.nodes[p].term <= s.nodes[i].term
    requires s.nodes[i].commitIndex <= s.nodes[p].commitIndex
    requires Takes(r, s.nodes[p].log, RequestAt(i, s.nodes[i], next), merged)
    ensures Reaches(r, s, s', false) && Grown(s, s') && s'.wins == s.wins
    ensures s'.nodes == s.nodes[p := s'.nodes[p]][i := s'.nodes[i]]
    ensures Moved(s.nodes[p], s'.nodes[p], s.nodes[i].term, merged)
    ensures s'.nodes[i] == ScanCommit(PeersOf(s, i), Recorded(s.nodes[i], p, |s.nodes[i].log|))
  {
    hide Peers, Ids, Reaches, Moved, Takes, OnAppendReply, ScanCommit, Recorded;
    var a := RequestAt(i, s.nodes[i], next);
    var m := Ships(r, s, i, p, next, merged);
    Counted(r, PeersOf(s, i), s.nodes[i], p, a);
    s' := Returns(r, m, AppendAnswer(AppendCall(p, a), AppendReply(a.term, true, 0, 0)));
    Onward(r, s, m, s', false);
  }

  /** A leader whose first try at p begins behind its first entry is rejected, and goes back. */
  lemma Rebuffed(r: Repairs, s: State, i: nat, p: nat) returns (s': State)
    requires i < |s.nodes| && s.nodes[i].role == Leader && p in PeersOf(s, i)
    requires p in s.nodes[i].nextIndex && s.nodes[i].nextIndex[p] == 1 <= |s.nodes[i].log|
    requires s.nodes[p].role != Dead && s.nodes[p].term <= s.nodes[i].term
    requires forall e :: e in s.nodes[i].log ==> e.term != 0 && (s.nodes[p].log != [] ==> e.term != s.nodes[p].log[0].term)
    ensures Reaches(r, s, s', false) && Grown(s, s') && s'.wins == s.wins
    ensures s'.nodes == s.nodes[p := s'.nodes[p]][i := s'.nodes[i]]
    ensures Moved(s.nodes[p], s'.nodes[p], s.nodes[i].term, s.nodes[p].log)
    ensures s'.nodes[i] == s.nodes[i].(nextIndex := s.nodes[i].nextIndex[p := 0])
  {
    hide Peers, Ids, Reaches, HandleAppend, OnAppendReply, Snapshot, Moved;
    Snapped(r, i, s.nodes[i], p, 1);
    s' := Exchanges(r, s, i, p);
    RebuffedNodes(r, PeersOf(s, i), i, s.nodes[i], p, s.nodes[p]);
  }

  lemma RebuffedNodes(r: Repairs, peers: set<nat>, i: nat, leader: Node, p: nat, nd: Node)
    requires leader.role == Leader && 1 <= |leader.log| && nd.role != Dead && nd.term <= leader.term
    requires forall e :: e in leader.log ==> e.term != 0 && (nd.log != [] ==> e.term != nd.log[0].term)
    ensures var a := RequestAt(i, leader, 1); var (nd', reply) := HandleAppend(r, nd, a);
      && Moved(nd, nd', leader.term, nd.log)
      && OnAppendReply(r, peers, leader, p, a, reply) == leader.(nextIndex := leader.nextIndex[p := 0])
  {
    hide HandleAppend, ScanCommit, LastOfTerm, Moved;
    assert leader.log[0] in leader.log;
    var a := RequestAt(i, leader, 1);
    var reply := HandleAppend(r, nd, a).1;
    Mismatched(r, nd, a);
    NoneOfTerm(leader.log, |leader.log|, reply.conflictTerm);
  }

  /** A request behind the first entry that the follower has not. */
  lemma Mismatched(r: Repairs, nd: Node, a: AppendArgs)
    requires nd.role != Dead && nd.term <= a.term && a.prevLogIndex == 0
    requires nd.log != [] ==> nd.log[0].term != a.prevLogTerm
    ensures var (nd', reply) := HandleAppend(r, nd, a);
      && Moved(nd, nd', a.term, nd.log)
      && !reply.success && reply.term == a.term && reply.conflictIndex == 0
      && (reply.conflictTerm in {-1, 0} || (nd.log != [] && reply.conflictTerm == nd.log[0].term))
  {
    hide Merge;
  }

  lemma NoneOfTerm(log: Log, i: nat, term: int)
    requires i <= |log| && forall e :: e in log ==> e.term != term
    ensures LastOfTerm(log, i, term) == -1
  {
    if i > 0 {
      assert log[i - 1] in log;
      NoneOfTerm(log, i - 1, term);
    }
  }

  // ---------------------------------------------------------------- commitment

  /** Too few peers hold anything: nothing is committed. */
  lemma ScanQuiet(peers: set<nat>, nd: Node, holders: set<nat>, i: nat)
    requires nd.commitIndex == -1 && i <= |nd.log| && (1 + |holders|) * 2 <= |peers| + 1
    requires forall p :: p in peers && Lookup(nd.matchIndex, p, 0) >= 0 ==> p in holders
    ensures Scan(peers, nd, i) == -1
  {
    if i > 0 {
      SubsetSize(Holders(peers, nd.matchIndex, i - 1), holders);
      ScanQuiet(peers, nd, holders, i - 1);
    }
  }

  /** Enough peers hold the whole log, which ends in an entry of the leader's term. */
  lemma ScanTop(peers: set<nat>, nd: Node, holders: set<nat>)
    requires nd.commitIndex == -1 && nd.log != [] && nd.log[|nd.log| - 1].term == nd.term
    requires holders <= peers && (1 + |holders|) * 2 > |peers| + 1
    requires forall p :: p in holders ==> p in nd.matchIndex && nd.matchIndex[p] >= |nd.log| - 1
    ensures ScanCommit(peers, nd) == nd.(commitIndex := |nd.log| - 1, ready := nd.ready + 1)
  {
    SubsetSize(holders, Holders(peers, nd.matchIndex, |nd.log| - 1));
    assert Committable(peers, nd, |nd.log| - 1);
  }

  /** The first of two peers that acknowledge commits nothing among five, ... */
  lemma OneAck(peers: set<nat>, nd: Node, p: nat)
    requires nd.commitIndex == -1 && |peers| == 4
    requires forall x :: x in peers ==> x in nd.matchIndex && nd.matchIndex[x] == -1
    ensures ScanCommit(peers, Recorded(nd, p, |nd.log|)) == Recorded(nd, p, |nd.log|)
  {
    ScanQuiet(peers, Recorded(nd, p, |nd.log|), {p}, |nd.log|);
  }

  /** ... and the second commits the whole log. */
  lemma TwoAcks(peers: set<nat>, nd: Node, p: nat, q: nat)
    requires nd.commitIndex == -1 && |peers| == 4 && p in peers && q in peers && p != q
    requires nd.log != [] && nd.log[|nd.log| - 1].term == nd.term
    requires p in nd.matchIndex && nd.matchIndex[p] == |nd.log| - 1
    ensures var nd' := Recorded(nd, q, |nd.log|);
      ScanCommit(peers, nd') == nd'.(commitIndex := |nd.log| - 1, ready := nd.ready + 1)
  {
    ScanTop(peers, Recorded(nd, q, |nd.log|), {p, q});
  }

  /** Among three nodes one peer is enough. */
  lemma OnlyAck(peers: set<nat>, nd: Node, p: nat)
    requires nd.commitIndex == -1 && |peers| == 2 && p in peers
    requires nd.log != [] && nd.log[|nd.log| - 1].term == nd.term
    ensures var nd' := Recorded(nd, p, |nd.log|);
      ScanCommit(peers, nd') == nd'.(commitIndex := |nd.log| - 1, ready := nd.ready + 1)
  {
    ScanTop(peers, Recorded(nd, p, |nd.log|), {p});
  }

  lemma Appended(nd: Node, c: Command)
    requires nd.role == Leader
    ensures var nd' := Submit(nd, c).0;
      && nd'.log == nd.log + [LogEntry(c, nd.term)] && nd'.disk == Saved(nd.term, nd.votedFor, nd'.log)
      && nd' == nd.(log := nd'.log, disk := nd'.disk)
  {}
}

/** Runs of three nodes in which a missing repair breaks a guarantee, whatever the other repairs are. */
module BrokenRuns {
  import opened RaftTypes
  import opened NodeSteps
  import opened Commands
  import opened Cluster
  import opened Runs
  import opened Scenes

  const PUT_A := Command(CommandPut, "k", "a", "", false, 0)
  const PUT_B := Command(CommandPut, "k", "b", "", false, 1)

  /** Two nodes have applied different commands at the same index. */
  ghost predicate Split(s: State) {
    exists d, e :: d in s.delivered && e in s.delivered && d.entry.index == e.entry.index && d.entry.command != e.entry.command
  }

  lemma SplitAt(s: State, d: Delivery, e: Delivery)
    requires d in s.delivered && e in s.delivered
    requires d.entry.index == e.entry.index && d.entry.command != e.entry.command
    ensures Split(s)
  {}

  lemma AllFresh(n: nat)
    ensures |Init(n).nodes| == n && forall k :: 0 <= k < n ==> Seat(Init(n).nodes[k], Follower, 0, [])
  {}

  /** The delivery of the only entry of node i's log. */
  function FirstDelivery(i: nat, c: Command, term: nat): Delivery {
    Delivery(i, [LogEntry(c, term)], CommitEntry(c, 0, term))
  }

  // ---------------------------------------------------------------- committing among three nodes

  /** The log of a follower after a first request with one entry. */
  function Taken(r: Repairs, log: Log, e: LogEntry): Log {
    if r.mergeAtStart && (log == [] || log[0].term != e.term) then [e] else log
  }

  lemma TakenBy(r: Repairs, log: Log, e: LogEntry, a: AppendArgs)
    requires a.prevLogIndex == -1 && a.entries == [e] && (!r.mergeAtStart ==> log == [])
    ensures Takes(r, log, a, Taken(r, log, e))
  {
    if log == [] || log[0].term != e.term {
      Overwrites(log, 0, [e]);
      assert log[..0] + [e] == [e];
    } else {
      assert MatchLen(log, 1, [e][1..]) == 0;
    }
  }

  /** Leader i of an empty log appends a command and commits it with p, which answers Success. */
  lemma CommitsWith(r: Repairs, s: State, i: nat, p: nat, c: Command, term: nat, log: Log) returns (s': State)
    requires |s.nodes| == 3 && i < 3 && p < 3 && p != i
    requires Seat(s.nodes[i], Leader, term, []) && NewBooks(s.nodes[i], PeersOf(s, i), 0)
    requires Seat(s.nodes[p], Follower, term, log) && (!r.mergeAtStart ==> log == [])
    ensures Reaches(r, s, s', false) && Grown(s, s') && s'.wins == s.wins
    ensures FirstDelivery(i, c, term) in s'.delivered
    ensures Seat(s'.nodes[p], Follower, term, Taken(r, log, LogEntry(c, term)))
    ensures forall k :: 0 <= k < 3 && k != i && k != p ==> s'.nodes[k] == s.nodes[k]
  {
    hide Peers, Ids, Reaches, Submit, Takes, Taken, ScanCommit, Deliver, HandleAppend;
    var peers, e := PeersOf(s, i), LogEntry(c, term);
    var a := Submits(r, s, i, c);
    Appended(s.nodes[i], c);
    var nd := a.nodes[i];
    assert nd.log == [e] && nd.log[0..] == [e];
    TakenBy(r, log, e, RequestAt(i, nd, 0));
    var b := Acks(r, a, i, p, 0, Taken(r, log, e));
    OnlyAck(peers, nd, p);
    s' := Delivers(r, b, i);
    assert b.nodes[i].log[..1] == [e];
    Onward(r, s, a, b, false);
    Onward(r, s, b, s', false);
  }

  /** Without the repaired start of the log, two nodes apply different commands at index 0: each
      leader in turn commits an entry that its follower acknowledged and did not store. */
  lemma LostEntry(r: Repairs) returns (s: State)
    requires !r.mergeAtStart
    ensures Reaches(r, Init(3), s, false) && Split(s)
  {
    hide Peers, Ids, Reaches, Split, UpToDate;
    var s0 := Init(3);
    AllFresh(3);
    EmptyIsNewest([]);
    var a := GetsElected(r, s0, 0, {1}, {1});
    var b := CommitsWith(r, a, 0, 1, PUT_A, 1, []);
    var c := GetsElected(r, b, 1, {2}, {2});
    s := CommitsWith(r, c, 1, 2, PUT_B, 2, []);
    Onward(r, s0, a, b, false);
    Onward(r, s0, b, c, false);
    Onward(r, s0, c, s, false);
    SplitAt(s, FirstDelivery(0, PUT_A, 1), FirstDelivery(1, PUT_B, 2));
  }

  /** A node with an empty log votes for anyone. */
  lemma EmptyIsNewest(log: Log)
    ensures Newer(log, [])
  {}

  // ---------------------------------------------------------------- a vote counted in the wrong term

  /** Two nodes lead term 2, and neither has replicated anything to node 2. */
  ghost predicate TwoLead(s: State) {
    && |s.nodes| == 3 && {Win(0, 2), Win(1, 2)} <= s.wins
    && Seat(s.nodes[0], Leader, 2, []) && NewBooks(s.nodes[0], PeersOf(s, 0), 0)
    && Seat(s.nodes[1], Leader, 2, []) && NewBooks(s.nodes[1], PeersOf(s, 1), 0)
    && Seat(s.nodes[2], Follower, 2, [])
  }

  /** Node 0 is a candidate in term 2; in its election of term 1 no peer has been heard, and the vote
      that node 1 gave it is still on its way. */
  ghost predicate Overtaken(s: State, vote: VoteAnswer) {
    && |s.nodes| == 3 && |s.elections| == 2 && s.elections[0] == Election(0, Tally(1, 0, 2), Peers(3, 0), {})
    && Seat(s.nodes[0], Candidate, 2, []) && Seat(s.nodes[1], Follower, 1, []) && Seat(s.nodes[2], Follower, 0, [])
    && vote in s.voteAnswers && vote.call.election == 0 && vote.call.to == 1 && vote.reply == VoteReply(1, true)
  }

  lemma Overtakes(r: Repairs) returns (s: State, vote: VoteAnswer)
    ensures Reaches(r, Init(3), s, false) && Overtaken(s, vote)
  {
    hide Peers, Ids, Reaches, HandleVote, StartElection;
    var s0 := Init(3);
    AllFresh(3);
    EmptyIsNewest([]);
    var a := TimesOut(r, s0, 0);
    var b: State;
    b, vote := Asks(r, a, 0, 1);
    Asked(r, a.nodes[1], VoteArgs(1, 0, -1, -1));
    Replies(r, a.nodes[1], VoteArgs(1, 0, -1, -1));
    s := TimesOut(r, b, 0);
    Onward(r, s0, a, b, false);
    Onward(r, s0, b, s, false);
  }

  /** The old vote and a failed call end the old election, and node 0 wins, whatever its term is now. */
  lemma WinsLate(r: Repairs, s: State, vote: VoteAnswer) returns (s': State)
    requires !r.sameElection && |s.nodes| == 3 && s.nodes[0].role == Candidate
    requires |s.elections| > 0 && s.elections[0] == Election(0, Tally(1, 0, 2), Peers(3, 0), {})
    requires vote in s.voteAnswers && vote.call.election == 0 && vote.call.to == 1 && vote.reply == VoteReply(1, true)
    ensures Reaches(r, s, s', false) && Grown(s, s')
    ensures s'.nodes == s.nodes[0 := StartLeader(s.nodes[0], PeersOf(s, 0))]
    ensures s'.wins == s.wins + {Win(0, s.nodes[0].term)}
  {
    hide Peers, Ids, Reaches, StartLeader, AfterReply, Counts, TallyAfter, Wins;
    var peers, nd, t := PeersOf(s, 0), s.nodes[0], s.elections[0].tally;
    var m := Hears(r, s, 0, 1, Some(vote.reply));
    Tallied(r, peers, nd, t, Some(vote.reply));
    OneHeard(r, s, m, 0, 1, Some(vote.reply));
    s' := Hears(r, m, 0, 2, None);
    Tallied(r, peers, nd, m.elections[0].tally, None);
    OneHeard(r, m, s', 0, 2, None);
    Onward(r, s, m, s', false);
  }

  lemma LeadsEmpty(nd: Node, peers: set<nat>, term: nat)
    requires Seat(nd, Candidate, term, [])
    ensures Seat(StartLeader(nd, peers), Leader, term, []) && NewBooks(StartLeader(nd, peers), peers, 0)
  {}

  /** Counting a late reply without looking at the term makes two leaders of term 2: node 1 by
      election, and node 0 with a vote that it was given in term 1. */
  lemma TwoLeaders(r: Repairs) returns (s: State)
    requires !r.sameElection
    ensures Reaches(r, Init(3), s, false) && TwoLead(s)
  {
    hide Peers, Ids, Reaches, StartLeader, UpToDate;
    var s0 := Init(3);
    var a, vote := Overtakes(r);
    EmptyIsNewest([]);
    var b := GetsElected(r, a, 1, {2}, {2});
    assert b.elections[..2][0] == b.elections[0];
    s := WinsLate(r, b, vote);
    LeadsEmpty(b.nodes[0], PeersOf(b, 0), 2);
    Onward(r, s0, a, b, false);
    Onward(r, s0, b, s, false);
  }

  /** The two leaders of one term both commit an entry at index 0 with node 2, which takes the second
      for the first because it compares terms only. */
  lemma TwoCommits(r: Repairs) returns (s: State)
    requires !r.sameElection && r.mergeAtStart
    ensures Reaches(r, Init(3), s, false) && Split(s)
  {
    hide Peers, Ids, Reaches, Split;
    var s0 := Init(3);
    var a := TwoLeaders(r);
    var b := CommitsWith(r, a, 1, 2, PUT_A, 2, []);
    s := CommitsWith(r, b, 0, 2, PUT_B, 2, [LogEntry(PUT_A, 2)]);
    Onward(r, s0, a, b, false);
    Onward(r, s0, b, s, false);
    SplitAt(s, FirstDelivery(1, PUT_A, 2), FirstDelivery(0, PUT_B, 2));
  }

  /** The two leaders of one term each append an entry of it at index 0. */
  lemma TwoLogs(r: Repairs) returns (s: State)
    requires !r.sameElection
    ensures Reaches(r, Init(3), s, false) && |s.nodes| == 3
    ensures s.nodes[0].log == [LogEntry(PUT_A, 2)] && s.nodes[1].log == [LogEntry(PUT_B, 2)]
  {
    hide Peers, Ids, Reaches, Submit;
    var s0 := Init(3);
    var a := TwoLeaders(r);
    var b := Submits(r, a, 0, PUT_A);
    Appended(a.nodes[0], PUT_A);
    s := Submits(r, b, 1, PUT_B);
    Appended(a.nodes[1], PUT_B);
    Onward(r, s0, a, b, false);
    Onward(r, s0, b, s, false);
  }

  // ---------------------------------------------------------------- a term that falls

  /** Node 0 has granted its vote of term 2 to node 1 and is a candidate again; the refusal of node 1
      from node 0's election of term 1 is still on its way. */
  ghost predicate Refused(s: State, no: VoteAnswer, yes: VoteAnswer) {
    && |s.nodes| == 3 && |s.elections| == 4 && s.elections[0] == Election(0, Tally(1, 0, 2), Peers(3, 0), {})
    && Seat(s.nodes[0], Candidate, 3, []) && Seat(s.nodes[2], Follower, 0, [])
    && no in s.voteAnswers && no.call.election == 0 && no.call.to == 1 && no.reply == VoteReply(2, false)
    && yes in s.voteAnswers && yes.call.to == 0 && yes.call.args.candidateId == 1 && yes.reply == VoteReply(2, true)
  }

  /** Node 1, a candidate in term 2, refuses node 0, which is one in term 1. */
  ghost predicate Ahead(s: State, no: VoteAnswer) {
    && |s.nodes| == 3 && |s.elections| == 3
    && s.elections[0] == Election(0, Tally(1, 0, 2), Peers(3, 0), {})
    && s.elections[2] == Election(1, Tally(2, 0, 2), Peers(3, 1), {})
    && Seat(s.nodes[0], Candidate, 1, []) && s.nodes[1].log == [] && Seat(s.nodes[2], Follower, 0, [])
    && no in s.voteAnswers && no.call.election == 0 && no.call.to == 1 && no.reply == VoteReply(2, false)
  }

  lemma GetsAhead(r: Repairs) returns (s: State, no: VoteAnswer)
    ensures Reaches(r, Init(3), s, false) && Ahead(s, no)
  {
    hide Peers, Ids, Reaches, HandleVote, StartElection;
    var s0 := Init(3);
    AllFresh(3);
    var a := TimesOut(r, s0, 0);
    var b := TimesOut(r, a, 1);
    var c := TimesOut(r, b, 1);
    s, no := Asks(r, c, 0, 1);
    Refuses(r, c.nodes[1], VoteArgs(1, 0, -1, -1));
    Onward(r, s0, a, b, false);
    Onward(r, s0, b, c, false);
    Onward(r, s0, c, s, false);
  }

  lemma RefusesLate(r: Repairs) returns (s: State, no: VoteAnswer, yes: VoteAnswer)
    ensures Reaches(r, Init(3), s, false) && Refused(s, no, yes)
  {
    hide Peers, Ids, Reaches, HandleVote, Grants, StartElection;
    var s0 := Init(3);
    EmptyIsNewest([]);
    var a, b: State;
    a, no := GetsAhead(r);
    b, yes := Asks(r, a, 2, 0);
    Asked(r, a.nodes[0], VoteArgs(2, 1, -1, -1));
    Replies(r, a.nodes[0], VoteArgs(2, 1, -1, -1));
    s := TimesOut(r, b, 0);
    Onward(r, s0, a, b, false);
    Onward(r, s0, b, s, false);
  }

  lemma Refuses(r: Repairs, nd: Node, a: VoteArgs)
    requires nd.role != Dead && nd.term > a.term
    ensures HandleVote(r, nd, a) == (Persist(nd), VoteReply(nd.term, false))
  {}

  /** A late refusal lowers the candidate to a term in which it has voted, without the vote. */
  lemma Falls(r: Repairs, s: State, no: VoteAnswer, yes: VoteAnswer) returns (s': State)
    requires !r.sameElection && Refused(s, no, yes)
    ensures Reaches(r, s, s', false) && |s'.nodes| == 3 && |s'.elections| == 4
    ensures s'.nodes[0].role == Follower && s'.nodes[0].term == 2 && s'.nodes[0].votedFor == -1 && s'.nodes[0].log == []
    ensures s'.nodes[2] == s.nodes[2] && s.voteAnswers <= s'.voteAnswers
  {
    hide Peers, Ids, Reaches;
    s' := Hears(r, s, 0, 1, Some(no.reply));
  }

  /** Without the term check a node gives its vote of one term to two peers. */
  lemma SecondVote(r: Repairs) returns (s: State, x: VoteAnswer, y: VoteAnswer)
    requires !r.sameElection
    ensures Reaches(r, Init(3), s, false)
    ensures x in s.voteAnswers && y in s.voteAnswers && x.reply.voteGranted && y.reply.voteGranted
    ensures x.call.to == y.call.to && x.reply.term == y.reply.term
    ensures x.call.args.candidateId != y.call.args.candidateId
  {
    hide Peers, Ids, Reaches, HandleVote, StartElection;
    var s0 := Init(3);
    var a, no, yes := RefusesLate(r);
    var b := Falls(r, a, no, yes);
    var c := TimesOut(r, b, 2);
    var d := TimesOut(r, c, 2);
    s, y := Asks(r, d, 5, 0);
    GrantsAgain(r, d.nodes[0], VoteArgs(2, 2, -1, -1));
    x := yes;
    Onward(r, s0, a, b, false);
    Onward(r, s0, b, c, false);
    Onward(r, s0, c, d, false);
    Onward(r, s0, d, s, false);
  }

  lemma GrantsAgain(r: Repairs, nd: Node, a: VoteArgs)
    requires nd.role == Follower && nd.term == a.term && nd.votedFor == -1 && nd.log == [] && a.lastLogTerm >= -1
    ensures HandleVote(r, nd, a).1 == VoteReply(a.term, true)
  {}

  // ---------------------------------------------------------------- a vote forgotten in a crash

  /** A candidate that does not write its own vote to storage is elected, crashes, and votes for the
      next leader of the same term. */
  lemma ForgottenVote(r: Repairs) returns (s: State)
    requires !r.persistAlways
    ensures Reaches(r, Init(3), s, true) && {Win(0, 1), Win(2, 1)} <= s.wins
  {
    hide Peers, Ids, Reaches, UpToDate, Grown, NewBooks;
    var s0 := Init(3);
    AllFresh(3);
    EmptyIsNewest([]);
    var a := GetsElected(r, s0, 0, {1}, {1});
    var b := Restarts(r, a, 0);
    s := GetsElected(r, b, 2, {0}, {0});
    WithCrashes(r, s0, a);
    WithCrashes(r, b, s);
    Onward(r, s0, a, b, true);
    Onward(r, s0, b, s, true);
  }

  // ---------------------------------------------------------------- replication that works

  /** With the repaired start of the log, an entry is in two logs after one request. */
  lemma Replicates(r: Repairs) returns (s: State)
    requires r.mergeAtStart
    ensures Reaches(r, Init(3), s, false) && |s.nodes| == 3
    ensures s.nodes[0].log == s.nodes[1].log == [LogEntry(PUT_A, 1)]
  {
    hide Peers, Ids, Reaches, UpToDate, Submit, Takes, Grown;
    var s0, e := Init(3), LogEntry(PUT_A, 1);
    AllFresh(3);
    EmptyIsNewest([]);
    var a := GetsElected(r, s0, 0, {1}, {1});
    var b := Submits(r, a, 0, PUT_A);
    Appended(a.nodes[0], PUT_A);
    assert b.nodes[0].log[0..] == [e];
    TakenBy(r, [], e, RequestAt(0, b.nodes[0], 0));
    s := Ships(r, b, 0, 1, 0, [e]);
    Onward(r, s0, a, b, false);
    Onward(r, s0, b, s, false);
  }
}

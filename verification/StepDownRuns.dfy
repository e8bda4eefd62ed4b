/** Runs that exist whatever the repairs are, and that the guarantees have to live with: a node votes twice
    in one term, and a leader learns from a reply that it has been replaced. */
module StepDownRuns {
  import opened RaftTypes
  import opened NodeSteps
  import opened NodeMeanings
  import opened Commands
  import opened Cluster
  import opened Runs
  import opened Scenes
  import opened BrokenRuns
  import opened LateMessages

  // ---------------------------------------------------------------- two votes in one term

  /** Nodes 0, 1 and 2 have stood in term 1, each with its own vote, and node 1 leads it. */
  ghost predicate OneOfThree(s: State) {
    && |s.nodes| == 5 && |s.elections| >= 2
    && s.elections[1] == Election(2, Tally(1, 0, 4), Peers(5, 2), {})
    && Seat(s.nodes[0], Candidate, 1, []) && Seat(s.nodes[2], Candidate, 1, [])
    && Seat(s.nodes[1], Leader, 1, []) && NewBooks(s.nodes[1], Peers(5, 1), 0)
    && Grant(0, 1, 0, -1, -1) in s.grants && Win(1, 1) in s.wins
  }

  lemma ThreeStand(r: Repairs) returns (s: State)
    ensures Reaches(r, Init(5), s, false) && OneOfThree(s)
  {
    hide Peers, Ids, Reaches, StartElection, UpToDate;
    var s0 := Init(5);
    AllFresh(5);
    EmptyIsNewest([]);
    var a := TimesOut(r, s0, 0);
    var b := TimesOut(r, a, 2);
    var voters := {3, 4};
    assert |voters| == 2;
    s := GetsElected(r, b, 1, voters, voters);
    assert s.elections[..2][1] == s.elections[1];
    Onward(r, s0, a, b, false);
    Onward(r, s0, b, s, false);
  }

  /** The leader's first heartbeat makes node 0 a follower that has not voted. */
  lemma HearsLeader(r: Repairs, s: State) returns (s': State)
    requires OneOfThree(s)
    ensures Reaches(r, s, s', false) && Grown(s, s') && s'.elections == s.elections
    ensures s'.nodes == s.nodes[0 := s'.nodes[0]]
    ensures s'.nodes[0].role == Follower && s'.nodes[0].term == 1 && s'.nodes[0].votedFor == -1 && s'.nodes[0].log == []
  {
    hide Peers, Ids, Reaches, HandleAppend;
    var nd := s.nodes[1];
    assert nd.log[0..] == [];
    Snapped(r, 1, nd, 0, 0);
    var a := RequestAt(1, nd, 0);
    var m := Requests(r, s, 1, 0);
    s' := Receives(r, m, AppendCall(0, a));
    FollowMeaning(r, s.nodes[0], a);
    var _ := AcceptMeaning(r, s.nodes[0], a);
    Onward(r, s, m, s', false);
  }

  /** A crash-free run in which node 0 votes for itself and then, in the same term, for node 2, after it has
      heard the leader of that term. */
  lemma VotesTwice(r: Repairs) returns (s: State)
    ensures Reaches(r, Init(5), s, false)
    ensures {Grant(0, 1, 0, -1, -1), Grant(0, 1, 2, -1, -1)} <= s.grants && Win(1, 1) in s.wins
  {
    hide Peers, Ids, Reaches, HandleVote;
    var s0 := Init(5);
    var a := ThreeStand(r);
    var b := HearsLeader(r, a);
    var answer: VoteAnswer;
    VoteMeaning(r, b.nodes[0], VoteArgs(1, 2, -1, -1));
    s, answer := Asks(r, b, 1, 0);
    Onward(r, s0, a, b, false);
    Onward(r, s0, b, s, false);
  }

  // ---------------------------------------------------------------- a leader is told

  /** Node 0 leads term 1, node 2 leads term 2, and node 1 has voted for both. */
  ghost predicate TwoTerms(s: State) {
    && |s.nodes| == 3
    && Seat(s.nodes[0], Leader, 1, []) && NewBooks(s.nodes[0], Peers(3, 0), 0)
    && Seat(s.nodes[1], Follower, 2, []) && Seat(s.nodes[2], Leader, 2, [])
  }

  lemma Replaced(r: Repairs) returns (s: State)
    ensures Reaches(r, Init(3), s, false) && TwoTerms(s)
  {
    hide Peers, Ids, Reaches, StartElection, UpToDate;
    var s0 := Init(3);
    AllFresh(3);
    EmptyIsNewest([]);
    var a := GetsElected(r, s0, 0, {1}, {1});
    var b := TimesOut(r, a, 2);
    s := GetsElected(r, b, 2, {1}, {1});
    Onward(r, s0, a, b, false);
    Onward(r, s0, b, s, false);
  }

  /** A heartbeat of the replaced leader comes back with the later term, and it steps down. */
  lemma IsTold(r: Repairs) returns (s: State, s': State)
    ensures Reaches(r, Init(3), s, false) && Reaches(r, s, s', false) && TwoTerms(s) && |s'.nodes| == 3
    ensures s'.nodes == s.nodes[1 := s'.nodes[1]][0 := s'.nodes[0]]
    ensures SteppedDown(r, s.nodes[0], s'.nodes[0], 2)
  {
    hide Peers, Ids, Reaches, HandleAppend, OnAppendReply, SteppedDown;
    s := Replaced(r);
    var nd := s.nodes[0];
    Snapped(r, 0, nd, 1, 0);
    var a := RequestAt(0, nd, 0);
    StaleMeaning(r, s.nodes[1], a);
    DeposedMeaning(r, PeersOf(s, 0), nd, 1, a, HandleAppend(r, s.nodes[1], a).1);
    s' := Exchanges(r, s, 0, 1);
  }
}

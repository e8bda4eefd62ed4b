/** A run of five nodes in which a step-up to a later term is lost in a crash: without persistAlways a
    node returns to the term before, acknowledges an entry of it, and the entry is committed after a
    later leader has begun to erase it. */
module LostTerm {
  import opened RaftTypes
  import opened NodeSteps
  import opened Cluster
  import opened Runs
  import opened Scenes
  import opened BrokenRuns
  import opened LateMessages

  const X1 := LogEntry(PUT_A, 1)
  const E2 := LogEntry(PUT_B, 2)
  const Y4 := LogEntry(PUT_B, 4)

  // ---------------------------------------------------------------- terms 1 and 2

  /** Node 2 has led term 1 and shares its entry with node 3 only. */
  ghost predicate Shared(s: State) {
    && |s.nodes| == 5
    && Seat(s.nodes[0], Follower, 1, []) && Seat(s.nodes[1], Follower, 1, [])
    && Seat(s.nodes[2], Leader, 1, [X1]) && Seat(s.nodes[3], Follower, 1, [X1]) && Seat(s.nodes[4], Follower, 0, [])
  }

  lemma Shares(r: Repairs) returns (s: State)
    requires r.mergeAtStart
    ensures Reaches(r, Init(5), s, false) && Shared(s)
  {
    hide Peers, Ids, Reaches, Submit, UpToDate, Takes;
    var s0 := Init(5);
    AllFresh(5);
    EmptyIsNewest([]);
    var a := ElectedBy(r, s0, 2, 0, 1);
    var b := Submits(r, a, 2, PUT_A);
    Appended(a.nodes[2], PUT_A);
    assert b.nodes[2].log == [X1];
    FitsTakes(r, 2, b.nodes[2], [], 0);
    s := Ships(r, b, 2, 3, 0, [X1]);
    Onward(r, s0, a, b, false);
    Onward(r, s0, b, s, false);
  }

  /** Node 0 leads term 2 with an empty log, and node 2, which refused it, has stored that term. */
  ghost predicate Refusing(s: State) {
    && |s.nodes| == 5
    && Seat(s.nodes[0], Leader, 2, []) && NewBooks(s.nodes[0], Peers(5, 0), 0)
    && Seat(s.nodes[1], Follower, 2, [])
    && Seat(s.nodes[2], Follower, 2, [X1]) && s.nodes[2].disk == Saved(2, -1, [X1])
    && Seat(s.nodes[3], Follower, 1, [X1]) && Seat(s.nodes[4], Follower, 2, [])
  }

  lemma IsRefused(r: Repairs, s: State) returns (s': State)
    requires Shared(s)
    ensures Reaches(r, s, s', false) && Refusing(s')
  {
    hide Peers, Ids, Reaches;
    var yes, asked := {1, 4}, {1, 2, 4};
    assert |yes| == 2;
    s' := GetsElected(r, s, 0, asked, yes);
    assert 2 in asked;
  }

  /** Node 0 leads term 2 with an entry that node 1 has acknowledged, and has not reached node 2. */
  ghost predicate OneAnswer(nd: Node) {
    && Seat(nd, Leader, 2, [E2]) && 1 in nd.matchIndex && nd.matchIndex[1] == 0
    && 2 in nd.nextIndex && nd.nextIndex[2] == 0
  }

  ghost predicate Waiting(s: State) {
    && |s.nodes| == 5 && OneAnswer(s.nodes[0])
    && Seat(s.nodes[1], Follower, 2, [E2])
    && Seat(s.nodes[2], Follower, 2, [X1]) && s.nodes[2].disk == Saved(2, -1, [X1])
    && Seat(s.nodes[3], Follower, 1, [X1]) && Seat(s.nodes[4], Follower, 2, [])
  }

  lemma Waits(r: Repairs, s: State) returns (s': State)
    requires r.mergeAtStart && Refusing(s)
    ensures Reaches(r, s, s', false) && Waiting(s')
  {
    hide Peers, Ids, Reaches, Submit, Takes, ScanCommit;
    var a := Submits(r, s, 0, PUT_B);
    Appended(s.nodes[0], PUT_B);
    var nd := a.nodes[0];
    assert nd.log == [E2];
    FitsTakes(r, 0, nd, [], 0);
    s' := Acks(r, a, 0, 1, 0, [E2]);
    OneAck(Peers(5, 0), nd, 1);
    Onward(r, s, a, s', false);
  }

  // ---------------------------------------------------------------- term 3, and the crash

  /** Node 2 leads term 3, which it has not stored, and has erased the entry from node 1. */
  ghost predicate Erased(s: State) {
    && |s.nodes| == 5 && OneAnswer(s.nodes[0])
    && Seat(s.nodes[1], Follower, 3, [X1])
    && s.nodes[2].disk == Saved(2, -1, [X1])
    && Seat(s.nodes[3], Follower, 3, [X1]) && Seat(s.nodes[4], Follower, 3, [])
  }

  lemma Erases(r: Repairs, s: State) returns (s': State)
    requires r.mergeAtStart && !r.persistAlways && Waiting(s)
    ensures Reaches(r, s, s', false) && Erased(s')
  {
    hide Peers, Ids, Reaches, Takes;
    EmptyIsNewest([X1]);
    var a := ElectedBy(r, s, 2, 3, 4);
    var b := Rebuffed(r, a, 2, 1);
    FitsTakes(r, 2, b.nodes[2], [E2], 0);
    s' := Ships(r, b, 2, 1, 0, [X1]);
    Onward(r, s, a, b, false);
    Onward(r, s, b, s', false);
  }

  /** Node 0 has applied its entry at index 0, which no majority holds. */
  ghost predicate Betrayed(s: State) {
    && |s.nodes| == 5 && FirstDelivery(0, PUT_B, 2) in s.delivered
    && Seat(s.nodes[1], Follower, 3, [X1])
    && Seat(s.nodes[3], Follower, 3, [X1]) && Seat(s.nodes[4], Follower, 3, [])
  }

  /** Node 2 starts again in the term it had stored. */
  lemma Forgets(nd: Node)
    requires nd.disk == Saved(2, -1, [X1])
    ensures Seat(Restart(nd), Follower, 2, [X1])
  {}

  /** Back in term 2, node 2 acknowledges the entry to node 0, which has not heard of term 3. */
  lemma Betrays(r: Repairs, s: State) returns (s': State)
    requires r.mergeAtStart && Erased(s)
    ensures Reaches(r, s, s', true) && Betrayed(s')
  {
    hide Peers, Ids, Reaches, Restart, ScanCommit, Takes;
    var nd := s.nodes[0];
    var a := Restarts(r, s, 2);
    Forgets(s.nodes[2]);
    FitsTakes(r, 0, nd, [X1], 0);
    var b := Acks(r, a, 0, 2, 0, [E2]);
    TwoAcks(Peers(5, 0), nd, 1, 2);
    s' := Delivers(r, b, 0);
    assert b.nodes[0].log[0] == E2 && [E2][..1] == [E2];
    Onward(r, a, b, s', false);
    WithCrashes(r, a, s');
    Onward(r, s, a, s', true);
  }

  // ---------------------------------------------------------------- term 4

  /** Node 1 leads term 4 and commits the entry of term 1 at index 0. */
  lemma CommitsFirst(r: Repairs, s: State) returns (s': State)
    requires r.mergeAtStart && Betrayed(s)
    ensures Reaches(r, s, s', false) && Split(s')
  {
    hide Peers, Ids, Reaches, Submit, Split;
    EmptyIsNewest([X1]);
    var a := ElectedBy(r, s, 1, 3, 4);
    var b := Submits(r, a, 1, PUT_B);
    Appended(a.nodes[1], PUT_B);
    assert b.nodes[1].log == [X1, Y4];
    var c := Rebuffed(r, b, 1, 4);
    var nd := c.nodes[1];
    s' := CommitsLog(r, c, 1, 3, 4, 1, 0);
    assert nd.log[0] == X1 && nd.log[..1] == [X1];
    Onward(r, s, a, b, false);
    Onward(r, s, b, c, false);
    Onward(r, s, c, s', false);
    SplitAt(s', FirstDelivery(0, PUT_B, 2), Delivery(1, [X1], CommitEntry(PUT_A, 0, 4)));
  }

  /** When a node may lose a term in a crash, two nodes apply different commands at index 0. */
  lemma LosesTerm(r: Repairs) returns (s: State)
    requires r.mergeAtStart && !r.persistAlways
    ensures Reaches(r, Init(5), s, true) && Split(s)
  {
    hide Reaches, Split, Shared, Refusing, Waiting, Erased, Betrayed;
    var s0 := Init(5);
    var a := Shares(r);
    var b := IsRefused(r, a);
    var c := Waits(r, b);
    var d := Erases(r, c);
    var e := Betrays(r, d);
    s := CommitsFirst(r, e);
    Onward(r, s0, a, b, false);
    Onward(r, s0, b, c, false);
    Onward(r, s0, c, d, false);
    WithCrashes(r, s0, d);
    WithCrashes(r, e, s);
    Onward(r, s0, d, e, true);
    Onward(r, s0, e, s, true);
  }
}

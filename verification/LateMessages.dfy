/** Runs of five nodes in which a message of an older term undoes a commit: requests that carry a
    later log (without freshSnapshot), and replies that are counted in a later term (without
    sameTermReply). */
module LateMessages {
  import opened RaftTypes
  import opened NodeSteps
  import opened Commands
  import opened Cluster
  import opened Runs
  import opened Scenes
  import opened BrokenRuns

  // ---------------------------------------------------------------- commitment among five nodes

  /** Node x is alive, not ahead of `nd`, and votes for it. */
  ghost predicate Backs(x: Node, nd: Node) {
    x.role != Dead && x.term <= nd.term && Newer(nd.log, x.log)
  }

  /** Node i is elected with the votes of p and q. */
  lemma ElectedBy(r: Repairs, s: State, i: nat, p: nat, q: nat) returns (s': State)
    requires |s.nodes| == 5 && i < 5 && p < 5 && q < 5 && i != p && i != q && p != q
    requires s.nodes[i].role in {Follower, Candidate}
    requires Backs(s.nodes[p], s.nodes[i]) && Backs(s.nodes[q], s.nodes[i])
    ensures Reaches(r, s, s', false) && Grown(s, s') && |s'.nodes| == 5
    ensures Heads(r, s.nodes[i], s'.nodes[i], Peers(5, i))
    ensures Moved(s.nodes[p], s'.nodes[p], s.nodes[i].term + 1, s.nodes[p].log)
    ensures Moved(s.nodes[q], s'.nodes[q], s.nodes[i].term + 1, s.nodes[q].log)
    ensures forall k :: 0 <= k < 5 && k != i && k != p && k != q ==> s'.nodes[k] == s.nodes[k]
  {
    hide Peers, Ids, Reaches, Grown, Moved, Newer, Heads;
    var voters := {p, q};
    assert |voters| == 2;
    s' := GetsElected(r, s, i, voters, voters);
  }

  /** A request that begins where the peer's log agrees with the leader's, and the peer has nothing
      more or something else from there on: it takes the leader's log. */
  ghost predicate Fits(r: Repairs, log: Log, lead: Log, next: nat) {
    && next <= |log| && next < |lead| && log[..next] == lead[..next]
    && (next == 0 ==> r.mergeAtStart)
    && (next < |log| ==> log[next].term != lead[next].term)
  }

  lemma FitsTakes(r: Repairs, i: nat, nd: Node, log: Log, next: nat)
    requires Fits(r, log, nd.log, next)
    ensures Takes(r, log, RequestAt(i, nd, next), nd.log)
  {
    Overwrites(log, next, nd.log[next..]);
    if next > 0 { assert log[next - 1] == log[..next][next - 1] == nd.log[..next][next - 1]; }
  }

  /** A new leader with a log that ends in its own term, and whom nobody has answered. */
  ghost predicate Ready(nd: Node, peers: set<nat>) {
    && Seat(nd, Leader, nd.term, nd.log) && nd.log != [] && nd.log[|nd.log| - 1].term == nd.term
    && forall x :: x in peers ==> x in nd.matchIndex && nd.matchIndex[x] == -1
  }

  /** The leader's next request to node p, whose state is `x`, fits. */
  ghost predicate Reachable(r: Repairs, nd: Node, p: nat, x: Node, next: nat) {
    && p in nd.nextIndex && nd.nextIndex[p] == next && x.role != Dead && x.term <= nd.term && -1 <= x.commitIndex
    && next <= |nd.log| && Fits(r, x.log, nd.log, next)
  }

  /** The leader after two peers have acknowledged its whole log. */
  function Committed(nd: Node, p: nat, q: nat): Node {
    var nd' := Recorded(Recorded(nd, p, |nd.log|), q, |nd.log|);
    nd'.(commitIndex := |nd.log| - 1, ready := nd.ready + 1)
  }

  lemma FirstAck(r: Repairs, s: State, i: nat, p: nat, next: nat) returns (s': State)
    requires |s.nodes| == 5 && i < 5 && p < 5 && i != p
    requires Ready(s.nodes[i], Peers(5, i)) && Reachable(r, s.nodes[i], p, s.nodes[p], next)
    ensures Reaches(r, s, s', false) && Grown(s, s')
    ensures s'.nodes == s.nodes[p := s'.nodes[p]][i := Recorded(s.nodes[i], p, |s.nodes[i].log|)]
  {
    hide Peers, Ids, Reaches, Grown, Takes, Fits, ScanCommit, Moved;
    FitsTakes(r, i, s.nodes[i], s.nodes[p].log, next);
    s' := Acks(r, s, i, p, next, s.nodes[i].log);
    OneAck(Peers(5, i), s.nodes[i], p);
  }

  lemma SecondAck(r: Repairs, s: State, i: nat, nd: Node, p: nat, q: nat, next: nat) returns (s': State)
    requires |s.nodes| == 5 && i < 5 && p < 5 && q < 5 && i != p && i != q && p != q
    requires Ready(nd, Peers(5, i)) && s.nodes[i] == Recorded(nd, p, |nd.log|)
    requires Reachable(r, nd, q, s.nodes[q], next)
    ensures Reaches(r, s, s', false) && Grown(s, s')
    ensures s'.nodes == s.nodes[q := s'.nodes[q]][i := Committed(nd, p, q)]
  {
    hide Peers, Ids, Reaches, Grown, Takes, Fits, ScanCommit, Moved;
    FitsTakes(r, i, s.nodes[i], s.nodes[q].log, next);
    s' := Acks(r, s, i, q, next, nd.log);
    TwoAcks(Peers(5, i), s.nodes[i], p, q);
  }

  /** A new leader commits its whole log with two peers and applies it. */
  lemma CommitsLog(r: Repairs, s: State, i: nat, p: nat, q: nat, a: nat, b: nat) returns (s': State)
    requires |s.nodes| == 5 && i < 5 && p < 5 && q < 5 && i != p && i != q && p != q
    requires Ready(s.nodes[i], Peers(5, i))
    requires Reachable(r, s.nodes[i], p, s.nodes[p], a) && Reachable(r, s.nodes[i], q, s.nodes[q], b)
    ensures Reaches(r, s, s', false) && Grown(s, s') && |s'.nodes| == 5
    ensures s'.nodes[i] == Deliver(Committed(s.nodes[i], p, q)).0
    ensures var nd := s.nodes[i]; forall k :: 0 <= k < |nd.log| ==>
      Delivery(i, nd.log[..k + 1], CommitEntry(nd.log[k].command, k, nd.term)) in s'.delivered
    ensures forall k :: 0 <= k < 5 && k != i && k != p && k != q ==> s'.nodes[k] == s.nodes[k]
  {
    hide Peers, Ids, Reaches, Reachable, Deliver;
    var m := FirstAck(r, s, i, p, a);
    var m' := SecondAck(r, m, i, s.nodes[i], p, q, b);
    s' := Delivers(r, m', i);
    Onward(r, s, m, m', false);
    Onward(r, s, m', s', false);
  }

  // ---------------------------------------------------------------- a request with a later log

  const OLD := LogEntry(PUT_A, 1)
  const NEW := LogEntry(PUT_B, 2)

  /** The request of term 1 that node 0 has sent to node 1, and that has not arrived. */
  const FIRST := AppendCall(1, AppendArgs(1, 0, -1, -1, [OLD], -1))

  /** Node 0 leads term 1 with an entry that no other node has; its request to node 1 is on its way,
      and so is one more goroutine for node 1. */
  ghost predicate OneOnItsWay(s: State) {
    && |s.nodes| == 5
    && Seat(s.nodes[0], Leader, 1, [OLD]) && 1 in s.nodes[0].nextIndex && s.nodes[0].nextIndex[1] == 0
    && Seat(s.nodes[1], Follower, 1, []) && Seat(s.nodes[2], Follower, 1, [])
    && Seat(s.nodes[3], Follower, 0, []) && Seat(s.nodes[4], Follower, 0, [])
    && Round(0, 1, 1) in s.rounds && FIRST in s.appendCalls
  }

  lemma SendsFirst(r: Repairs) returns (s: State)
    ensures Reaches(r, Init(5), s, false) && OneOnItsWay(s)
  {
    hide Peers, Ids, Reaches, Submit, UpToDate;
    var s0 := Init(5);
    AllFresh(5);
    EmptyIsNewest([]);
    var a := ElectedBy(r, s0, 0, 1, 2);
    var b := Submits(r, a, 0, PUT_A);
    Appended(a.nodes[0], PUT_A);
    var nd := b.nodes[0];
    assert nd.log == [OLD] && nd.log[0..] == [OLD];
    Snapped(r, 0, nd, 1, 0);
    s := Requests(r, b, 0, 1);
    Onward(r, s0, a, b, false);
    Onward(r, s0, b, s, false);
  }

  /** Node 2 has committed an entry of term 2 at index 0 and applied it; nodes 0 and 1 are as before. */
  ghost predicate Superseded(s: State) {
    && |s.nodes| == 5
    && Seat(s.nodes[0], Leader, 1, [OLD]) && 1 in s.nodes[0].nextIndex && s.nodes[0].nextIndex[1] == 0
    && Seat(s.nodes[1], Follower, 1, [])
    && s.nodes[2].role == Leader && s.nodes[2].term == 2 && s.nodes[2].log == [NEW] && s.nodes[2].commitIndex == 0
    && 0 in s.nodes[2].nextIndex && s.nodes[2].nextIndex[0] == 0
    && Round(0, 1, 1) in s.rounds && FIRST in s.appendCalls
    && FirstDelivery(2, PUT_B, 2) in s.delivered
  }

  lemma CommitsNew(r: Repairs, s: State) returns (s': State)
    requires r.mergeAtStart && OneOnItsWay(s)
    ensures Reaches(r, s, s', false) && Superseded(s')
  {
    hide Peers, Ids, Reaches, Submit, UpToDate;
    EmptyIsNewest([]);
    var a := ElectedBy(r, s, 2, 3, 4);
    var b := Submits(r, a, 2, PUT_B);
    Appended(a.nodes[2], PUT_B);
    assert b.nodes[2].log == [NEW] && [NEW][..1] == [NEW];
    s' := CommitsLog(r, b, 2, 3, 4, 0, 0);
    Onward(r, s, a, b, false);
    Onward(r, s, b, s', false);
  }

  /** A request at the start of the log, to a node that has not committed as much as its sender. */
  lemma TakesCommit(r: Repairs, nd: Node, a: AppendArgs)
    requires r.mergeAtStart && nd.role != Dead && nd.term <= a.term && nd.commitIndex == -1
    requires a.prevLogIndex == -1 && |a.entries| == 1 && a.leaderCommit <= 0
    requires nd.log != [] ==> |nd.log| == 1 && nd.log[0].term != a.entries[0].term
    ensures var nd' := HandleAppend(r, nd, a).0;
      && nd'.role == Follower && nd'.term == a.term && nd'.log == a.entries
      && nd'.commitIndex == a.leaderCommit && nd'.lastApplied == nd.lastApplied
      && nd'.ready == nd.ready + (if a.leaderCommit == 0 then 1 else 0)
      && nd'.nextIndex == nd.nextIndex
  {
    hide Merge, Hint;
    MergesOne(nd.log, a.entries);
  }

  lemma MergesOne(log: Log, es: Log)
    requires |es| == 1 && |log| <= 1 && (log != [] ==> log[0].term != es[0].term)
    ensures Merge(log, 0, es) == es
  {
    Overwrites(log, 0, es);
  }

  /** Node 0 follows node 2 and knows of its commit. */
  ghost predicate Caught(s: State) {
    && |s.nodes| == 5
    && s.nodes[0].role == Follower && s.nodes[0].log == [NEW] && s.nodes[0].commitIndex == 0
    && 1 in s.nodes[0].nextIndex && s.nodes[0].nextIndex[1] == 0
    && Seat(s.nodes[1], Follower, 1, [])
    && Round(0, 1, 1) in s.rounds && FIRST in s.appendCalls
    && FirstDelivery(2, PUT_B, 2) in s.delivered
  }

  lemma Catches(r: Repairs, s: State) returns (s': State)
    requires r.mergeAtStart && Superseded(s)
    ensures Reaches(r, s, s', false) && Caught(s')
  {
    hide Peers, Ids, Reaches, HandleAppend;
    var nd := s.nodes[2];
    assert nd.log[0..] == [NEW];
    Snapped(r, 2, nd, 0, 0);
    var m := Requests(r, s, 2, 0);
    TakesCommit(r, m.nodes[0], RequestAt(2, nd, 0));
    s' := Receives(r, m, AppendCall(0, RequestAt(2, nd, 0)));
    Onward(r, s, m, s', false);
  }

  /** The old goroutine of node 0 tells node 1, in term 1, of the commit of term 2. */
  lemma TellsLate(r: Repairs, s: State) returns (s': State)
    requires r.mergeAtStart && !r.freshSnapshot && Caught(s)
    ensures Reaches(r, s, s', false) && Grown(s, s') && |s'.nodes| == 5
    ensures var nd := s'.nodes[1];
      nd.role == Follower && nd.term == 1 && nd.log == [NEW] && nd.commitIndex == 0 && nd.lastApplied == -1 && nd.ready == 1
  {
    hide Peers, Ids, Reaches, HandleAppend;
    var a := AppendArgs(1, 0, -1, -1, [NEW], 0);
    assert s.nodes[0].log[0..] == [NEW];
    assert Snapshot(r, 0, s.nodes[0], 1, 1) == Some(a);
    var m := Sends(r, s, 0, 1, 1);
    TakesCommit(r, m.nodes[1], a);
    s' := Receives(r, m, AppendCall(1, a));
    Onward(r, s, m, s', false);
  }

  /** A later request of the same term that claims no commit changes the entry and not the commit. */
  lemma TakesOld(r: Repairs, nd: Node)
    requires r.mergeAtStart && nd.role == Follower && nd.term == 1 && nd.log == [NEW] && nd.commitIndex == 0
    ensures var nd' := HandleAppend(r, nd, FIRST.args).0;
      nd'.log == [OLD] && nd'.commitIndex == 0 && nd'.lastApplied == nd.lastApplied && nd'.ready == nd.ready && nd'.term == 1
  {
    hide Merge, Hint;
    MergesOne(nd.log, [OLD]);
  }

  /** The old request arrives last, and node 1 applies its entry. */
  lemma ArrivesLast(r: Repairs, s: State) returns (s': State)
    requires r.mergeAtStart && |s.nodes| == 5 && FIRST in s.appendCalls && FirstDelivery(2, PUT_B, 2) in s.delivered
    requires var nd := s.nodes[1];
      nd.role == Follower && nd.term == 1 && nd.log == [NEW] && nd.commitIndex == 0 && nd.lastApplied == -1 && nd.ready == 1
    ensures Reaches(r, s, s', false) && Split(s')
  {
    hide Peers, Ids, Reaches, HandleAppend, Split;
    TakesOld(r, s.nodes[1]);
    var m := Receives(r, s, FIRST);
    s' := Delivers(r, m, 1);
    assert m.nodes[1].log[0] == OLD && [OLD][..1] == [OLD];
    Onward(r, s, m, s', false);
    SplitAt(s', FirstDelivery(1, PUT_A, 1), FirstDelivery(2, PUT_B, 2));
  }

  /** When a goroutine may send the log of a later term as a request of its own term, two nodes apply
      different commands at index 0. */
  lemma StaleSnapshot(r: Repairs) returns (s: State)
    requires r.mergeAtStart && !r.freshSnapshot
    ensures Reaches(r, Init(5), s, false) && Split(s)
  {
    hide Reaches, Split, OneOnItsWay, Superseded;
    var s0 := Init(5);
    var a := SendsFirst(r);
    var b := CommitsNew(r, a);
    var c := Catches(r, b);
    var d := TellsLate(r, c);
    s := ArrivesLast(r, d);
    Onward(r, s0, a, b, false);
    Onward(r, s0, b, c, false);
    Onward(r, s0, c, d, false);
    Onward(r, s0, d, s, false);
  }

  // ---------------------------------------------------------------- a reply counted in a later term

  const A1 := LogEntry(PUT_A, 1)
  const B1 := LogEntry(PUT_B, 1)
  const F2 := LogEntry(PUT_A, 2)
  const G3 := LogEntry(PUT_A, 3)
  const H4 := LogEntry(PUT_B, 4)

  /** Node 1's Success for two entries of term 1, on its way to node 0. */
  const HELD := AppendAnswer(AppendCall(1, AppendArgs(1, 0, -1, -1, [A1, B1], -1)), AppendReply(1, true, 0, 0))

  /** Node 0 leads term 1 with two entries that node 1 has acknowledged. */
  ghost predicate Acknowledged(s: State) {
    && |s.nodes| == 5 && HELD in s.appendAnswers
    && Seat(s.nodes[0], Leader, 1, [A1, B1]) && Seat(s.nodes[1], Follower, 1, [A1, B1])
    && Seat(s.nodes[2], Follower, 1, []) && Seat(s.nodes[3], Follower, 0, []) && Seat(s.nodes[4], Follower, 0, [])
  }

  lemma GetsTwo(r: Repairs) returns (s: State)
    requires r.mergeAtStart
    ensures Reaches(r, Init(5), s, false) && Acknowledged(s)
  {
    hide Peers, Ids, Reaches, Submit, UpToDate, Takes;
    var s0 := Init(5);
    AllFresh(5);
    EmptyIsNewest([]);
    var a := ElectedBy(r, s0, 0, 1, 2);
    var b := Submits(r, a, 0, PUT_A);
    Appended(a.nodes[0], PUT_A);
    var c := Submits(r, b, 0, PUT_B);
    Appended(b.nodes[0], PUT_B);
    var nd := c.nodes[0];
    assert nd.log == [A1, B1] && nd.log[0..] == [A1, B1];
    FitsTakes(r, 0, nd, [], 0);
    s := Ships(r, c, 0, 1, 0, [A1, B1]);
    Onward(r, s0, a, b, false);
    Onward(r, s0, b, c, false);
    Onward(r, s0, c, s, false);
  }

  /** Node 2 leads term 2 and has put its entry in place of both; node 1 has not heard of it. */
  ghost predicate Replaced(s: State) {
    && |s.nodes| == 5 && HELD in s.appendAnswers
    && Seat(s.nodes[0], Follower, 2, [F2]) && Seat(s.nodes[1], Follower, 1, [A1, B1])
    && Seat(s.nodes[2], Leader, 2, [F2]) && Seat(s.nodes[3], Follower, 2, [F2]) && Seat(s.nodes[4], Follower, 2, [])
  }

  lemma PutsOther(r: Repairs, s: State) returns (s': State)
    requires r.mergeAtStart && Acknowledged(s)
    ensures Reaches(r, s, s', false) && Replaced(s')
  {
    hide Peers, Ids, Reaches, Submit, UpToDate, Takes;
    EmptyIsNewest([]);
    var a := ElectedBy(r, s, 2, 3, 4);
    var b := Submits(r, a, 2, PUT_A);
    Appended(a.nodes[2], PUT_A);
    var nd := b.nodes[2];
    assert nd.log == [F2];
    FitsTakes(r, 2, nd, [A1, B1], 0);
    FitsTakes(r, 2, nd, [], 0);
    var c := Ships(r, b, 2, 0, 0, [F2]);
    s' := Ships(r, c, 2, 3, 0, [F2]);
    Onward(r, s, a, b, false);
    Onward(r, s, b, c, false);
    Onward(r, s, c, s', false);
  }

  /** Node 0 leads term 3, has appended an entry at index 1, and node 3 has it. */
  ghost predicate HalfWay(s: State) {
    && |s.nodes| == 5 && HELD in s.appendAnswers
    && Seat(s.nodes[0], Leader, 3, [F2, G3]) && 3 in s.nodes[0].matchIndex && s.nodes[0].matchIndex[3] == 1
    && Seat(s.nodes[1], Follower, 1, [A1, B1]) && Seat(s.nodes[2], Follower, 3, [F2])
    && Seat(s.nodes[3], Follower, 3, [F2, G3]) && Seat(s.nodes[4], Follower, 2, [])
  }

  lemma LeadsAgain(r: Repairs, s: State) returns (s': State)
    requires Replaced(s)
    ensures Reaches(r, s, s', false) && HalfWay(s')
  {
    hide Peers, Ids, Reaches, Submit, Takes, ScanCommit;
    var a := ElectedBy(r, s, 0, 2, 3);
    var b := Submits(r, a, 0, PUT_A);
    Appended(a.nodes[0], PUT_A);
    var nd := b.nodes[0];
    assert nd.log == [F2, G3];
    FitsTakes(r, 0, nd, [F2], 1);
    s' := Acks(r, b, 0, 3, 1, [F2, G3]);
    OneAck(Peers(5, 0), nd, 3);
    Onward(r, s, a, b, false);
    Onward(r, s, b, s', false);
  }

  /** The held reply makes the second acknowledgement, and node 0 applies an entry that only it and
      node 3 hold. */
  ghost predicate FalselyCommitted(s: State) {
    && |s.nodes| == 5 && Delivery(0, [F2, G3], CommitEntry(PUT_A, 1, 3)) in s.delivered
    && s.nodes[0].role == Leader && s.nodes[0].term == 3 && s.nodes[0].log == [F2, G3]
    && s.nodes[0].commitIndex == 1
    && Seat(s.nodes[1], Follower, 1, [A1, B1]) && Seat(s.nodes[2], Follower, 3, [F2])
    && Seat(s.nodes[3], Follower, 3, [F2, G3]) && Seat(s.nodes[4], Follower, 2, [])
  }

  lemma CountsOld(r: Repairs, s: State) returns (s': State)
    requires !r.sameTermReply && HalfWay(s)
    ensures Reaches(r, s, s', false) && FalselyCommitted(s')
  {
    hide Peers, Ids, Reaches, OnAppendReply, ScanCommit;
    var nd := s.nodes[0];
    Counted(r, Peers(5, 0), nd, 1, HELD.call.args);
    TwoAcks(Peers(5, 0), nd, 3, 1);
    var m := Returns(r, s, HELD);
    s' := Delivers(r, m, 0);
    assert m.nodes[0].log[1] == G3 && [F2, G3][..2] == [F2, G3];
    Onward(r, s, m, s', false);
  }

  /** Node 2 leads term 4 without that entry and commits another one at its index. */
  lemma CommitsOver(r: Repairs, s: State) returns (s': State)
    requires FalselyCommitted(s)
    ensures Reaches(r, s, s', false) && Split(s')
  {
    hide Peers, Ids, Reaches, Submit, Split;
    EmptyIsNewest([F2]);
    var a := ElectedBy(r, s, 2, 1, 4);
    var b := Submits(r, a, 2, PUT_B);
    Appended(a.nodes[2], PUT_B);
    var nd := b.nodes[2];
    assert nd.log == [F2, H4];
    s' := CommitsLog(r, b, 2, 3, 0, 1, 1);
    assert nd.log[1] == H4 && nd.log[..2] == nd.log;
    Onward(r, s, a, b, false);
    Onward(r, s, b, s', false);
    SplitAt(s', Delivery(0, [F2, G3], CommitEntry(PUT_A, 1, 3)), Delivery(2, [F2, H4], CommitEntry(PUT_B, 1, 4)));
  }

  /** When a reply of an older term counts, an entry is committed that a majority does not hold, and
      two nodes apply different commands at index 1. */
  lemma LateReply(r: Repairs) returns (s: State)
    requires r.mergeAtStart && !r.sameTermReply
    ensures Reaches(r, Init(5), s, false) && Split(s)
  {
    hide Reaches, Split, Acknowledged, Replaced, HalfWay, FalselyCommitted;
    var s0 := Init(5);
    var a := GetsTwo(r);
    var b := PutsOther(r, a);
    var c := LeadsAgain(r, b);
    var d := CountsOld(r, c);
    s := CommitsOver(r, d);
    Onward(r, s0, a, b, false);
    Onward(r, s0, b, c, false);
    Onward(r, s0, c, d, false);
    Onward(r, s0, d, s, false);
  }
}

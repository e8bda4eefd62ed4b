/** Every locked region of a Raft node as a function from the node's state to its next state.
    The imperative methods of class Raft are proved equal to these functions, and the cluster
    proofs are about them. */
module NodeSteps {
  import opened RaftTypes
  import opened Commands

  // ---------------------------------------------------------------- storage, role changes

  function Persist(nd: Node): Node {
    nd.(disk := Saved(nd.term, nd.votedFor, nd.log))
  }

  function BecomeFollower(r: Repairs, nd: Node, term: nat): Node {
    var nd1 := nd.(role := Follower, term := term, votedFor := -1);
    if r.persistAlways then Persist(nd1) else nd1
  }

  function StartElection(r: Repairs, id: nat, nd: Node): Node {
    var nd1 := nd.(role := Candidate, term := nd.term + 1, votedFor := id);
    if r.persistAlways then Persist(nd1) else nd1
  }

  /** The map with every key in keys set to v. */
  function Fill<T>(m: map<nat, T>, keys: set<nat>, v: T): map<nat, T> {
    m + map k | k in keys :: v
  }

  function StartLeader(nd: Node, peers: set<nat>): Node {
    nd.(role := Leader,
        nextIndex := Fill<nat>(nd.nextIndex, peers, |nd.log|),
        matchIndex := Fill<Index>(nd.matchIndex, peers, -1))
  }

  /** A new process: what `Make` builds from the storage of its predecessor. */
  function Restart(nd: Node): Node {
    match nd.disk
    case Blank => Node(0, -1, [], -1, -1, Follower, map[], map[], 0, [], Blank)
    case Saved(term, votedFor, log) =>
      Node(term, votedFor, log, -1, -1, Follower, map[], map[], 0, [], nd.disk)
  }

  function Kill(nd: Node): Node {
    nd.(role := Dead)
  }

  function Submit(nd: Node, command: Command): (Node, int) {
    if nd.role != Leader then
      (nd, -1)
    else
      (Persist(nd.(log := nd.log + [LogEntry(command, nd.term)])), |nd.log|)
  }

  // ---------------------------------------------------------------- elections

  /** The candidate's log is at least as up to date: section 5.4.1 of the Raft paper. */
  predicate UpToDate(lastTerm: int, lastIndex: int, log: Log) {
    lastTerm > LastTerm(log) || (lastTerm == LastTerm(log) && lastIndex >= LastIndex(log))
  }

  /** The node after the term check of RequestVote. */
  function SeeTerm(r: Repairs, nd: Node, term: nat): Node {
    if term > nd.term then BecomeFollower(r, nd, term) else nd
  }

  predicate Grants(r: Repairs, nd: Node, a: VoteArgs) {
    var nd1 := SeeTerm(r, nd, a.term);
    && nd.role != Dead
    && nd1.term == a.term
    && (nd1.votedFor == -1 || nd1.votedFor == a.candidateId)
    && UpToDate(a.lastLogTerm, a.lastLogIndex, nd.log)
  }

  function HandleVote(r: Repairs, nd: Node, a: VoteArgs): (Node, VoteReply) {
    var nd1 := SeeTerm(r, nd, a.term);
    if nd.role == Dead then
      (nd, VoteReply(0, false))
    else if Grants(r, nd, a) then
      (Persist(nd1.(votedFor := a.candidateId)), VoteReply(nd1.term, true))
    else
      (Persist(nd1), VoteReply(nd1.term, false))
  }

  predicate InElection(r: Repairs, nd: Node, t: Tally) {
    nd.role == Candidate && (r.sameElection ==> nd.term == t.term)
  }

  /** The reply (None: the call failed) adds a vote to the tally. */
  predicate Counts(r: Repairs, nd: Node, t: Tally, reply: Option<VoteReply>) {
    && reply.Some?
    && InElection(r, nd, t)
    && reply.value.term == t.term
    && reply.value.voteGranted
  }

  function AfterReply(r: Repairs, nd: Node, t: Tally, reply: Option<VoteReply>): Node {
    if reply.Some? && InElection(r, nd, t) && reply.value.term > t.term
    then BecomeFollower(r, nd, reply.value.term)
    else nd
  }

  function TallyAfter(r: Repairs, nd: Node, t: Tally, reply: Option<VoteReply>): Tally {
    var votes := t.votesReceived + if Counts(r, nd, t, reply) then 1 else 0;
    var needed := t.repliesNeeded - 1;
    Tally(t.term, if needed == 0 then votes + 1 else votes, needed)
  }

  /** The last reply is in, and the tally (with the node's own vote) is a majority. */
  predicate Wins(r: Repairs, peers: set<nat>, nd: Node, t: Tally, reply: Option<VoteReply>) {
    var t' := TallyAfter(r, nd, t, reply);
    && t'.repliesNeeded == 0
    && InElection(r, AfterReply(r, nd, t, reply), t)
    && t'.votesReceived * 2 > |peers| + 1
  }

  function OnVoteReply(r: Repairs, peers: set<nat>, nd: Node, t: Tally, reply: Option<VoteReply>): Node {
    var nd1 := AfterReply(r, nd, t, reply);
    if Wins(r, peers, nd, t, reply) then StartLeader(nd1, peers) else nd1
  }

  // ---------------------------------------------------------------- replication, follower side

  /** How many entries of es carry the same terms as the log from position at on. */
  function MatchLen(log: Log, at: nat, es: Log): (k: nat)
    ensures k <= |es|
    ensures at <= |log| ==> at + k <= |log|
    decreases es
  {
    if at >= |log| || es == [] || log[at].term != es[0].term then 0
    else 1 + MatchLen(log, at + 1, es[1..])
  }

  function Merge(log: Log, at: nat, es: Log): Log
    requires at <= |log|
  {
    var k := MatchLen(log, at, es);
    if k < |es| then log[..at + k] + es[k..] else log
  }

  predicate Matches(r: Repairs, log: Log, a: AppendArgs) {
    if a.prevLogIndex == -1 then r.mergeAtStart
    else a.prevLogIndex < |log| && a.prevLogTerm == log[a.prevLogIndex].term
  }

  /** First index of the run of equal terms that ends at i. */
  function RunStart(log: Log, i: nat): (k: nat)
    requires i < |log|
    ensures k <= i
  {
    if i > 0 && log[i - 1].term == log[i].term then RunStart(log, i - 1) else i
  }

  function Hint(log: Log, prev: nat): (nat, int) {
    if prev >= |log| then (|log|, -1) else (RunStart(log, prev), log[prev].term)
  }

  function Min(a: int, b: int): int {
    if a < b then a else b
  }

  function AdvanceCommit(nd: Node, leaderCommit: Index): Node {
    if leaderCommit > nd.commitIndex
    then nd.(commitIndex := Min(leaderCommit, |nd.log| - 1), ready := nd.ready + 1)
    else nd
  }

  /** A request of the node's own term, after any step-down. */
  function AppendCurrent(r: Repairs, nd: Node, a: AppendArgs): (Node, AppendReply) {
    if a.prevLogIndex == -1 && !r.mergeAtStart then
      if |nd.log| == 0 then (Persist(nd), AppendReply(nd.term, true, 0, 0))
      else (Persist(nd), AppendReply(nd.term, false, 0, nd.log[0].term))
    else if Matches(r, nd.log, a) then
      var nd1 := nd.(log := Merge(nd.log, a.prevLogIndex + 1, a.entries));
      (Persist(AdvanceCommit(nd1, a.leaderCommit)), AppendReply(nd.term, true, 0, 0))
    else if r.hintOnMismatch then
      var (index, term) := Hint(nd.log, a.prevLogIndex);
      (Persist(nd), AppendReply(nd.term, false, index, term))
    else
      (Persist(nd), AppendReply(nd.term, false, 0, 0))
  }

  /** A request of an older term. */
  function AppendStale(nd: Node, a: AppendArgs): (Node, AppendReply) {
    if a.prevLogIndex >= |nd.log| then
      (Persist(nd), AppendReply(nd.term, false, |nd.log|, -1))
    else if a.prevLogIndex < 0 then
      (nd, AppendReply(nd.term, false, |nd.log|, 0))
    else
      var (index, term) := Hint(nd.log, a.prevLogIndex);
      (Persist(nd), AppendReply(nd.term, false, index, term))
  }

  /** The node after both step-down checks of AppendEntries. */
  function Yield(r: Repairs, nd: Node, term: nat): Node {
    var nd1 := SeeTerm(r, nd, term);
    if term == nd1.term && nd1.role != Follower then BecomeFollower(r, nd1, term) else nd1
  }

  function HandleAppend(r: Repairs, nd: Node, a: AppendArgs): (Node, AppendReply) {
    if nd.role == Dead then (nd, AppendReply(0, false, 0, 0))
    else if a.term >= nd.term then AppendCurrent(r, Yield(r, nd, a.term), a)
    else AppendStale(nd, a)
  }

  // ---------------------------------------------------------------- replication, leader side

  /** The request a heartbeat goroutine of term `term` builds for one peer. None when it builds
      nothing: a repaired goroutine that is out of date, or one whose slice is out of range. */
  function Snapshot(r: Repairs, id: nat, nd: Node, term: nat, peer: nat): Option<AppendArgs> {
    var next := Lookup(nd.nextIndex, peer, 0);
    if r.freshSnapshot && !(nd.role == Leader && nd.term == term) then None
    else if next > |nd.log| then None
    else Some(AppendArgs(term, id, next - 1, if next > 0 then nd.log[next - 1].term else -1,
                         nd.log[next..], nd.commitIndex))
  }

  function Holders(peers: set<nat>, matchIndex: map<nat, Index>, i: nat): set<nat> {
    set p | p in peers && Lookup(matchIndex, p, 0) >= i
  }

  /** The leader and its peers that hold index i are a majority. */
  predicate Majority(peers: set<nat>, matchIndex: map<nat, Index>, i: nat) {
    (1 + |Holders(peers, matchIndex, i)|) * 2 > |peers| + 1
  }

  predicate Committable(peers: set<nat>, nd: Node, i: nat)
    requires i < |nd.log|
  {
    nd.log[i].term == nd.term && Majority(peers, nd.matchIndex, i)
  }

  /** The greatest committable index in (commitIndex, i), or commitIndex itself. */
  function Scan(peers: set<nat>, nd: Node, i: nat): (k: Index)
    requires i <= |nd.log|
    ensures k == nd.commitIndex || (nd.commitIndex < k < i && Committable(peers, nd, k))
    ensures forall j: nat :: k < j < i ==> !Committable(peers, nd, j)
  {
    if i <= nd.commitIndex + 1 then nd.commitIndex
    else if Committable(peers, nd, i - 1) then i - 1
    else Scan(peers, nd, i - 1)
  }

  /** The greatest index below i whose entry has this term, or -1. */
  function LastOfTerm(log: Log, i: nat, term: int): (k: Index)
    requires i <= |log|
    ensures k < i && (k >= 0 ==> log[k].term == term)
    ensures forall j: nat :: k < j < i ==> log[j].term != term
  {
    if i == 0 then -1
    else if log[i - 1].term == term then i - 1
    else LastOfTerm(log, i - 1, term)
  }

  function BackOff(log: Log, index: nat, term: int): nat {
    if term >= 0 && LastOfTerm(log, |log|, term) >= 0
    then LastOfTerm(log, |log|, term) + 1
    else index
  }

  function Recorded(nd: Node, peer: nat, next: nat): Node {
    nd.(nextIndex := nd.nextIndex[peer := next], matchIndex := nd.matchIndex[peer := next - 1])
  }

  function ScanCommit(peers: set<nat>, nd: Node): Node {
    var k := Scan(peers, nd, |nd.log|);
    nd.(commitIndex := k, ready := if k != nd.commitIndex then nd.ready + 1 else nd.ready)
  }

  predicate Heeds(r: Repairs, nd: Node, a: AppendArgs, reply: AppendReply) {
    && reply.term <= nd.term
    && nd.role == Leader
    && a.term == reply.term
    && (r.sameTermReply ==> nd.term == a.term)
  }

  function OnAppendReply(r: Repairs, peers: set<nat>, nd: Node, peer: nat, a: AppendArgs, reply: AppendReply): Node {
    if reply.term > nd.term then
      BecomeFollower(r, nd, reply.term)
    else if !Heeds(r, nd, a, reply) then
      nd
    else if reply.success then
      ScanCommit(peers, Recorded(nd, peer, a.prevLogIndex + 1 + |a.entries|))
    else
      nd.(nextIndex := nd.nextIndex[peer := BackOff(nd.log, reply.conflictIndex, reply.conflictTerm)])
  }

  // ---------------------------------------------------------------- delivery

  /** What commitChanSender sends for entries first, first+1, ... of the log. */
  function Outgoing(log: Log, first: nat, count: nat, term: nat): (out: seq<CommitEntry>)
    requires first + count <= |log|
    ensures |out| == count
    ensures forall k :: 0 <= k < count ==> out[k] == CommitEntry(log[first + k].command, first + k, term)
  {
    seq(count, k requires 0 <= k < count => CommitEntry(log[first + k].command, first + k, term))
  }

  /** One notification taken by commitChanSender. Out-of-range indices panic in the code; here
      they deliver nothing, and no reachable state has them. */
  function Deliver(nd: Node): (Node, seq<CommitEntry>) {
    if nd.ready == 0 then (nd, [])
    else if nd.lastApplied < nd.commitIndex < |nd.log| then
      var out := Outgoing(nd.log, nd.lastApplied + 1, nd.commitIndex - nd.lastApplied, nd.term);
      (nd.(ready := nd.ready - 1, lastApplied := nd.commitIndex, sent := nd.sent + out), out)
    else (nd.(ready := nd.ready - 1), [])
  }

  /** Notifications may be coalesced: two of them, with a further commit in between, send together
      what one sends after both commits. */
  lemma Coalesced(nd: Node, mid: Index)
    requires nd.ready > 1 && nd.lastApplied < mid < nd.commitIndex < |nd.log|
    ensures var (one, first) := Deliver(nd.(commitIndex := mid));
      var (two, second) := Deliver(one.(commitIndex := nd.commitIndex));
      var (once, all) := Deliver(nd);
      first + second == all && two == once.(ready := once.ready - 1)
  {
    var (one, first) := Deliver(nd.(commitIndex := mid));
    var (two, second) := Deliver(one.(commitIndex := nd.commitIndex));
    var all := Deliver(nd).1;
    assert first + second == all;
    assert nd.sent + first + second == nd.sent + (first + second);
  }
}

/** What the steps of one node mean for whoever calls them: replies and fields after the step, told
    from the request and the fields before it. The functions of NodeSteps appear on the left only. */
module NodeMeanings {
  import opened RaftTypes
  import opened NodeSteps
  import opened Commands
  import opened LogHistory

  /** Commits, deliveries and books stay as they are. */
  ghost predicate SameVolatile(nd: Node, nd': Node) {
    && nd'.commitIndex == nd.commitIndex && nd'.lastApplied == nd.lastApplied
    && nd'.ready == nd.ready && nd'.sent == nd.sent
    && nd'.nextIndex == nd.nextIndex && nd'.matchIndex == nd.matchIndex
  }

  /** Storage holds the node's term, vote and log. */
  ghost predicate Written(nd: Node) {
    nd.disk == Saved(nd.term, nd.votedFor, nd.log)
  }

  /** The node follows in a term without having voted in it, and is otherwise as before. */
  ghost predicate SteppedDown(r: Repairs, nd: Node, nd': Node, term: nat) {
    && nd'.role == Follower && nd'.term == term && nd'.votedFor == -1 && nd'.log == nd.log
    && SameVolatile(nd, nd')
    && (if r.persistAlways then Written(nd') else nd'.disk == nd.disk)
  }

  // ---------------------------------------------------------------- clients and roles

  /** A leader stores the command at the index it returns, which is the end of its log; any other node
      refuses and stays as it is. */
  lemma SubmitMeaning(nd: Node, command: Command)
    ensures var (nd', index) := Submit(nd, command);
      if nd.role == Leader then
        && index == |nd.log| && |nd'.log| == |nd.log| + 1
        && nd'.log[index] == LogEntry(command, nd.term) && nd'.log[..index] == nd.log
        && nd'.role == Leader && nd'.term == nd.term && nd'.votedFor == nd.votedFor
        && SameVolatile(nd, nd') && Written(nd')
      else
        index == -1 && nd' == nd
  {}

  /** A step-down forgets the vote, also when the term stays the same. */
  lemma StepDownMeaning(r: Repairs, nd: Node, term: nat)
    ensures SteppedDown(r, nd, BecomeFollower(r, nd, term), term)
  {}

  /** A candidate has voted for itself in a term it was never in, with the log it had. */
  lemma CandidacyMeaning(r: Repairs, id: nat, nd: Node)
    ensures var nd' := StartElection(r, id, nd);
      && nd'.role == Candidate && nd'.term > nd.term && nd'.term <= nd.term + 1 && nd'.votedFor == id
      && nd'.log == nd.log && SameVolatile(nd, nd')
      && (if r.persistAlways then Written(nd') else nd'.disk == nd.disk)
  {}

  /** A new leader will first try every peer behind the end of its log and knows of no match. */
  lemma LeadershipMeaning(nd: Node, peers: set<nat>)
    ensures var nd' := StartLeader(nd, peers);
      && nd'.role == Leader
      && (forall p :: p in peers ==> p in nd'.nextIndex && nd'.nextIndex[p] == |nd.log|)
      && (forall p :: p in peers ==> p in nd'.matchIndex && nd'.matchIndex[p] == -1)
      && (forall p :: p !in peers ==> (p in nd'.nextIndex <==> p in nd.nextIndex) && (p in nd'.matchIndex <==> p in nd.matchIndex))
      && (forall p :: p !in peers && p in nd.nextIndex ==> nd'.nextIndex[p] == nd.nextIndex[p])
      && (forall p :: p !in peers && p in nd.matchIndex ==> nd'.matchIndex[p] == nd.matchIndex[p])
      && SameVolatile(nd, nd'.(nextIndex := nd.nextIndex, matchIndex := nd.matchIndex))
      && nd'.term == nd.term && nd'.votedFor == nd.votedFor && nd'.log == nd.log && nd'.disk == nd.disk
  {}

  /** Killing a node stops it and forgets nothing. */
  lemma KillMeaning(nd: Node)
    ensures Kill(nd).role == Dead && Kill(nd).(role := nd.role) == nd
  {}

  /** A restarted node has the term, vote and log last written, and everything else as new. */
  lemma RestartMeaning(nd: Node)
    ensures var nd' := Restart(nd);
      && nd'.role == Follower && nd'.commitIndex == nd'.lastApplied == -1 && nd'.ready == 0 && nd'.sent == []
      && nd'.nextIndex == map[] && nd'.matchIndex == map[] && nd'.disk == nd.disk
      && (nd.disk.Saved? ==> Written(nd'))
      && (nd.disk.Blank? ==> nd'.term == 0 && nd'.votedFor == -1 && nd'.log == [])
  {}

  /** Writing and starting again brings back term, vote and log. */
  lemma WriteThenRestart(nd: Node)
    ensures var nd' := Restart(Persist(nd)); nd'.term == nd.term && nd'.votedFor == nd.votedFor && nd'.log == nd.log
  {}

  // ---------------------------------------------------------------- votes

  /** The log that ends in (lastTerm, lastIndex) is no older than `log`: section 5.4.1. */
  ghost predicate NoOlder(lastTerm: int, lastIndex: int, log: Log) {
    if log == [] then lastTerm > -1 || (lastTerm == -1 && lastIndex >= -1)
    else
      var last := log[|log| - 1].term;
      lastTerm > last || (lastTerm == last && lastIndex + 1 >= |log|)
  }

  /** A vote is granted exactly to a candidate of the node's term or a later one whose log is no older,
      if the node has not voted for another one in that term. */
  lemma VoteMeaning(r: Repairs, nd: Node, a: VoteArgs)
    requires nd.role != Dead
    ensures var (nd', reply) := HandleVote(r, nd, a); var newer := a.term > nd.term;
      && (reply.voteGranted <==>
            && a.term >= nd.term && (newer || nd.votedFor == -1 || nd.votedFor == a.candidateId)
            && NoOlder(a.lastLogTerm, a.lastLogIndex, nd.log))
      && reply.term == nd'.term == (if newer then a.term else nd.term)
      && nd'.role == (if newer then Follower else nd.role)
      && nd'.votedFor == (if reply.voteGranted then a.candidateId else if newer then -1 else nd.votedFor)
      && nd'.log == nd.log && SameVolatile(nd, nd') && Written(nd')
  {}

  /** A killed node answers nothing: the zero reply, and no change. */
  lemma DeadMeaning(r: Repairs, nd: Node, v: VoteArgs, a: AppendArgs)
    requires nd.role == Dead
    ensures HandleVote(r, nd, v) == (nd, VoteReply(0, false))
    ensures HandleAppend(r, nd, a) == (nd, AppendReply(0, false, 0, 0))
  {}

  /** The tally counts the replies still missing, the votes, and with the last reply the own vote. */
  lemma TallyMeaning(r: Repairs, nd: Node, t: Tally, reply: Option<VoteReply>)
    ensures var t' := TallyAfter(r, nd, t, reply);
      var inTime := nd.role == Candidate && (r.sameElection ==> nd.term == t.term);
      var vote := inTime && reply.Some? && reply.value.term == t.term && reply.value.voteGranted;
      && t'.term == t.term && t'.repliesNeeded + 1 == t.repliesNeeded
      && t'.votesReceived == t.votesReceived + (if vote then 1 else 0) + (if t.repliesNeeded == 1 then 1 else 0)
  {}

  /** A vote reply makes a leader exactly when it is the last one, the node still stands, and the votes
      are a majority; it makes a follower exactly when the candidate hears a later term. */
  lemma VoteReplyMeaning(r: Repairs, peers: set<nat>, nd: Node, t: Tally, reply: Option<VoteReply>)
    ensures var nd' := OnVoteReply(r, peers, nd, t, reply);
      var inTime := nd.role == Candidate && (r.sameElection ==> nd.term == t.term);
      if !inTime then
        nd' == nd
      else if reply.Some? && reply.value.term > t.term then
        SteppedDown(r, nd, nd', reply.value.term)
      else if t.repliesNeeded == 1 && TallyAfter(r, nd, t, reply).votesReceived * 2 > |peers| + 1 then
        nd'.role == Leader && nd'.term == nd.term && nd'.log == nd.log
      else
        nd' == nd
  {}

  // ---------------------------------------------------------------- append requests

  /** The reply of a node that is in a later term: a refusal with its term, and hints that name the run of
      equal terms around PrevLogIndex. The node stays as it is. */
  lemma StaleMeaning(r: Repairs, nd: Node, a: AppendArgs)
    requires nd.role != Dead && a.term < nd.term
    ensures var (nd', reply) := HandleAppend(r, nd, a); var prev := a.prevLogIndex;
      && !reply.success && reply.term == nd.term
      && nd'.role == nd.role && nd'.term == nd.term && nd'.votedFor == nd.votedFor && nd'.log == nd.log
      && SameVolatile(nd, nd') && (if prev >= 0 then Written(nd') else nd'.disk == nd.disk)
      && Hints(nd.log, prev, reply, 0)
  {
    if 0 <= a.prevLogIndex < |nd.log| { RunStartMeaning(nd.log, a.prevLogIndex); }
  }

  /** What the hints of a refusal say about the follower's log and PrevLogIndex; at -1, where nothing is
      compared, the conflict term is `atStart`. */
  ghost predicate Hints(log: Log, prev: Index, reply: AppendReply, atStart: int) {
    if prev >= |log| then
      reply.conflictIndex == |log| && reply.conflictTerm == -1
    else if prev == -1 then
      reply.conflictIndex == |log| && reply.conflictTerm == atStart
    else
      var first := reply.conflictIndex;
      && first <= prev && reply.conflictTerm == log[prev].term
      && (forall k :: first <= k <= prev ==> log[k].term == log[prev].term)
      && (first > 0 ==> log[first - 1].term != log[prev].term)
  }

  /** The hints of a reply to a request of an older term reach no leader's books. */
  lemma StaleHintsUnused(r: Repairs, peers: set<nat>, nd: Node, p: nat, a: AppendArgs, reply: AppendReply)
    requires reply.term > a.term
    ensures var nd' := OnAppendReply(r, peers, nd, p, a, reply);
      nd'.nextIndex == nd.nextIndex && nd'.matchIndex == nd.matchIndex && nd'.commitIndex == nd.commitIndex
  {}

  /** The node that handles a request of its own term, once it follows. */
  ghost predicate Following(nd: Node, nd': Node, term: nat) {
    && nd'.role == Follower && nd'.term == term && nd'.log == nd.log && SameVolatile(nd, nd')
    && nd'.votedFor == (if term == nd.term && nd.role == Follower then nd.votedFor else -1)
  }

  lemma YieldMeaning(r: Repairs, nd: Node, a: AppendArgs)
    requires nd.role != Dead && a.term >= nd.term
    ensures Following(nd, Yield(r, nd, a.term), a.term)
    ensures HandleAppend(r, nd, a) == AppendCurrent(r, Yield(r, nd, a.term), a)
  {
    hide AppendCurrent;
  }

  lemma CurrentMeaning(r: Repairs, nd: Node, a: AppendArgs)
    ensures var (nd', reply) := AppendCurrent(r, nd, a);
      && nd'.role == nd.role && nd'.term == reply.term == nd.term && nd'.votedFor == nd.votedFor
      && nd'.lastApplied == nd.lastApplied && nd'.sent == nd.sent
      && nd'.nextIndex == nd.nextIndex && nd'.matchIndex == nd.matchIndex && Written(nd')
  {
    hide Merge, Hint;
  }

  /** A node that hears the leader of its term or of a later one follows it. It keeps its vote only if it
      followed in that term already: a candidate or leader loses it. */
  lemma FollowMeaning(r: Repairs, nd: Node, a: AppendArgs)
    requires nd.role != Dead && a.term >= nd.term
    ensures var (nd', reply) := HandleAppend(r, nd, a);
      && nd'.role == Follower && nd'.term == reply.term == a.term
      && nd'.votedFor == (if a.term == nd.term && nd.role == Follower then nd.votedFor else -1)
      && nd'.lastApplied == nd.lastApplied && nd'.sent == nd.sent
      && nd'.nextIndex == nd.nextIndex && nd'.matchIndex == nd.matchIndex && Written(nd')
  {
    hide HandleAppend, AppendCurrent, Yield;
    YieldMeaning(r, nd, a);
    CurrentMeaning(r, Yield(r, nd, a.term), a);
  }

  /** A candidate that hears the leader of its term grants the next candidate of that term whose log is no
      older than its own, although it has voted for itself. */
  lemma VotesAgain(r: Repairs, nd: Node, a: AppendArgs, v: VoteArgs)
    requires nd.role == Candidate && a.term == nd.term == v.term
    requires NoOlder(v.lastLogTerm, v.lastLogIndex, HandleAppend(r, nd, a).0.log)
    ensures HandleVote(r, HandleAppend(r, nd, a).0, v).1 == VoteReply(nd.term, true)
  {
    hide HandleAppend, HandleVote;
    FollowMeaning(r, nd, a);
    VoteMeaning(r, HandleAppend(r, nd, a).0, v);
  }

  /** The entry before the request is in the log, or there is none to compare. */
  ghost predicate Fitting(r: Repairs, log: Log, a: AppendArgs) {
    if a.prevLogIndex == -1 then r.mergeAtStart || log == []
    else a.prevLogIndex < |log| && log[a.prevLogIndex].term == a.prevLogTerm
  }

  /** Up to k entries of the request are in the log, by their terms, and the next one is not. */
  ghost predicate FirstMissing(log: Log, at: nat, entries: Log, k: nat) {
    && k <= |entries| && at + k <= |log|
    && (forall j :: 0 <= j < k ==> log[at + j].term == entries[j].term)
    && (k < |entries| && at + k < |log| ==> log[at + k].term != entries[k].term)
  }

  /** The log and the commit index after an accepted request whose first missing entry is number k. */
  ghost predicate Absorbed(r: Repairs, nd: Node, nd': Node, a: AppendArgs, k: nat) {
    var at := a.prevLogIndex + 1;
    if a.prevLogIndex == -1 && !r.mergeAtStart then
      nd'.log == nd.log && nd'.commitIndex == nd.commitIndex && nd'.ready == nd.ready
    else
      && FirstMissing(nd.log, at, a.entries, k)
      && nd'.log == (if k < |a.entries| then nd.log[..at + k] + a.entries[k..] else nd.log)
      && (if a.leaderCommit > nd.commitIndex then
            && nd'.commitIndex <= a.leaderCommit && nd'.commitIndex < |nd'.log|
            && (nd'.commitIndex == a.leaderCommit || nd'.commitIndex + 1 == |nd'.log|) && nd'.ready == nd.ready + 1
          else nd'.commitIndex == nd.commitIndex && nd'.ready == nd.ready)
  }

  /** A request that fits is accepted. Nothing is lost before its first missing entry, from there on the log
      is the request's, and a request with no missing entry changes nothing; the commit index follows the
      leader's as far as the log goes. */
  lemma AcceptMeaning(r: Repairs, nd: Node, a: AppendArgs) returns (k: nat)
    requires nd.role != Dead && a.term >= nd.term && Fitting(r, nd.log, a)
    ensures HandleAppend(r, nd, a).1 == AppendReply(a.term, true, 0, 0)
    ensures Absorbed(r, nd, HandleAppend(r, nd, a).0, a, k)
  {
    hide HandleAppend, AppendCurrent, Yield;
    YieldMeaning(r, nd, a);
    k := AbsorbMeaning(r, Yield(r, nd, a.term), a);
  }

  lemma AbsorbMeaning(r: Repairs, nd: Node, a: AppendArgs) returns (k: nat)
    requires Fitting(r, nd.log, a)
    ensures AppendCurrent(r, nd, a).1 == AppendReply(nd.term, true, 0, 0)
    ensures Absorbed(r, nd, AppendCurrent(r, nd, a).0, a, k)
  {
    hide Hint, MatchLen;
    if a.prevLogIndex + 1 <= |nd.log| {
      k := MatchLen(nd.log, a.prevLogIndex + 1, a.entries);
      MatchLenMeaning(nd.log, a.prevLogIndex + 1, a.entries);
    }
  }

  /** A request that does not fit is refused and changes neither log nor commits. Its hints name the run of
      equal terms, or the start of the log, or (as written) nothing. */
  lemma RefuseMeaning(r: Repairs, nd: Node, a: AppendArgs)
    requires nd.role != Dead && a.term >= nd.term && !Fitting(r, nd.log, a)
    ensures var (nd', reply) := HandleAppend(r, nd, a);
      && !reply.success && nd'.log == nd.log && nd'.commitIndex == nd.commitIndex && nd'.ready == nd.ready
      && (if a.prevLogIndex == -1 then reply.conflictIndex == 0 && reply.conflictTerm == nd.log[0].term
          else if r.hintOnMismatch then Hints(nd.log, a.prevLogIndex, reply, 0)
          else reply.conflictIndex == 0 && reply.conflictTerm == 0)
  {
    hide Merge;
    if 0 <= a.prevLogIndex < |nd.log| { RunStartMeaning(nd.log, a.prevLogIndex); }
  }

  lemma SuccessIffFits(r: Repairs, nd: Node, a: AppendArgs)
    requires nd.role != Dead && a.term >= nd.term
    ensures var (nd', reply) := HandleAppend(r, nd, a);
      && nd'.role == Follower && nd'.term == reply.term == a.term
      && nd'.votedFor == (if a.term == nd.term && nd.role == Follower then nd.votedFor else -1)
      && (reply.success <==> Fitting(r, nd.log, a))
  {
    hide HandleAppend;
    FollowMeaning(r, nd, a);
    if Fitting(r, nd.log, a) {
      var _ := AcceptMeaning(r, nd, a);
    } else {
      RefuseMeaning(r, nd, a);
    }
  }

  // ---------------------------------------------------------------- append replies

  /** A request ships the log from nextIndex on, with the entry before it and the commit index. */
  lemma SnapshotMeaning(r: Repairs, id: nat, nd: Node, term: nat, peer: nat)
    ensures var request := Snapshot(r, id, nd, term, peer);
      var next := if peer in nd.nextIndex then nd.nextIndex[peer] else 0;
      && (request.Some? <==> next <= |nd.log| && (r.freshSnapshot ==> nd.role == Leader && nd.term == term))
      && (request.Some? ==>
            && var a := request.value;
            && a.term == term && a.leaderId == id && a.leaderCommit == nd.commitIndex
            && a.prevLogIndex + 1 == next && |a.entries| == |nd.log| - next
            && (forall k :: 0 <= k < |a.entries| ==> a.entries[k] == nd.log[next + k])
            && a.prevLogTerm == (if next == 0 then -1 else nd.log[next - 1].term))
  {}

  /** A reply of a later term deposes whoever receives it. */
  lemma DeposedMeaning(r: Repairs, peers: set<nat>, nd: Node, p: nat, a: AppendArgs, reply: AppendReply)
    requires reply.term > nd.term
    ensures SteppedDown(r, nd, OnAppendReply(r, peers, nd, p, a, reply), reply.term)
  {}

  /** A reply counts for a leader whose request was of the reply's term (and, repaired, of its own). */
  ghost predicate Relevant(r: Repairs, nd: Node, a: AppendArgs, reply: AppendReply) {
    reply.term <= nd.term && nd.role == Leader && a.term == reply.term && (r.sameTermReply ==> nd.term == a.term)
  }

  lemma IrrelevantMeaning(r: Repairs, peers: set<nat>, nd: Node, p: nat, a: AppendArgs, reply: AppendReply)
    requires reply.term <= nd.term && !Relevant(r, nd, a, reply)
    ensures OnAppendReply(r, peers, nd, p, a, reply) == nd
  {}

  /** The leader and the peers whose match index reaches k are a majority, and entry k is of its term. */
  ghost predicate Replicated(peers: set<nat>, nd: Node, k: int) {
    && 0 <= k < |nd.log| && nd.log[k].term == nd.term
    && 2 * (|set p | p in peers && (if p in nd.matchIndex then nd.matchIndex[p] else 0) >= k| + 1) > |peers| + 1
  }

  /** A success moves both books of the peer behind the request; the commit index moves to the greatest
      replicated index ahead of it, if there is one, with one notification. */
  lemma SuccessMeaning(r: Repairs, peers: set<nat>, nd: Node, p: nat, a: AppendArgs, reply: AppendReply)
    requires Relevant(r, nd, a, reply) && reply.success
    ensures var nd' := OnAppendReply(r, peers, nd, p, a, reply); var next := a.prevLogIndex + 1 + |a.entries|;
      && nd'.nextIndex == nd.nextIndex[p := next] && nd'.matchIndex == nd.matchIndex[p := next - 1]
      && (nd'.commitIndex == nd.commitIndex || (nd'.commitIndex > nd.commitIndex && Replicated(peers, nd', nd'.commitIndex)))
      && (forall k :: k > nd'.commitIndex ==> !Replicated(peers, nd', k))
      && nd'.ready == nd.ready + (if nd'.commitIndex == nd.commitIndex then 0 else 1)
      && nd'.role == nd.role && nd'.term == nd.term && nd'.votedFor == nd.votedFor && nd'.log == nd.log
      && nd'.disk == nd.disk && nd'.lastApplied == nd.lastApplied && nd'.sent == nd.sent
  {
    var nd1 := Recorded(nd, p, a.prevLogIndex + 1 + |a.entries|);
    forall k: nat | k < |nd.log| ensures Committable(peers, nd1, k) <==> Replicated(peers, nd1, k) {
      assert Holders(peers, nd1.matchIndex, k)
        == set x | x in peers && (if x in nd1.matchIndex then nd1.matchIndex[x] else 0) >= k;
    }
    var nd' := OnAppendReply(r, peers, nd, p, a, reply);
    forall k ensures Replicated(peers, nd', k) <==> Replicated(peers, nd1, k) {}
    forall k | k > nd'.commitIndex ensures !Replicated(peers, nd1, k) {
      if 0 <= k < |nd.log| { assert !Committable(peers, nd1, k); }
    }
  }

  /** A failure moves nextIndex of the peer behind the last entry of the conflict term, or to the conflict
      index if the log has none, and nothing else. */
  lemma FailureMeaning(r: Repairs, peers: set<nat>, nd: Node, p: nat, a: AppendArgs, reply: AppendReply)
    requires Relevant(r, nd, a, reply) && !reply.success
    ensures var nd' := OnAppendReply(r, peers, nd, p, a, reply);
      && p in nd'.nextIndex
      && nd' == nd.(nextIndex := nd.nextIndex[p := nd'.nextIndex[p]])
      && var next := nd'.nextIndex[p]; var has := exists e :: e in nd.log && e.term == reply.conflictTerm;
      && (!has ==> next == reply.conflictIndex)
      && (has ==>
            && 0 < next <= |nd.log| && nd.log[next - 1].term == reply.conflictTerm
            && forall k :: next <= k < |nd.log| ==> nd.log[k].term != reply.conflictTerm)
  {
    var j := LastOfTerm(nd.log, |nd.log|, reply.conflictTerm);
    if j >= 0 { assert nd.log[j] in nd.log; }
  }

  // ---------------------------------------------------------------- delivery

  /** One notification sends the committed entries not yet sent, each with its index and the node's term. */
  lemma DeliverMeaning(nd: Node)
    requires nd.commitIndex < |nd.log|
    ensures var (nd', out) := Deliver(nd); var from := nd.lastApplied + 1;
      if nd.ready == 0 then
        nd' == nd && out == []
      else
        && nd'.ready + 1 == nd.ready && nd'.sent == nd.sent + out
        && nd'.lastApplied == (if nd.commitIndex > nd.lastApplied then nd.commitIndex else nd.lastApplied)
        && |out| == nd'.lastApplied - nd.lastApplied
        && (forall k :: 0 <= k < |out| ==>
              out[k].index == from + k && out[k].command == nd.log[from + k].command && out[k].term == nd.term)
        && nd'.role == nd.role && nd'.term == nd.term && nd'.votedFor == nd.votedFor && nd'.log == nd.log
        && nd'.commitIndex == nd.commitIndex && nd'.nextIndex == nd.nextIndex && nd'.matchIndex == nd.matchIndex
        && nd'.disk == nd.disk
  {}
}

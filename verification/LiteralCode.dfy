/** The code as written: when exactly its calls do what the repaired code does, and runs in which
    it breaks the guarantees of Figure 3. */
module LiteralCode {
  import opened RaftTypes
  import opened NodeSteps
  import opened Commands
  import opened Cluster
  import opened LogHistory
  import opened Invariants
  import opened ReceiveStep
  import opened Safety
  import opened FastBackOff

  // ---------------------------------------------------------------- single calls, exactly

  /** An accepted request is in the follower's log exactly when the start of the log is repaired, or
      the request does not start there, or it carries nothing. */
  lemma AcceptedIsStored(r: Repairs, leads: Leads, nd: Node, a: AppendArgs)
    requires LeadsOk(leads) && Rooted(leads, nd.log) && a.term in leads && Excerpt(leads[a.term].log, a)
    requires nd.role != Dead && a.term >= nd.term && HandleAppend(r, nd, a).1.success
    ensures Agree(HandleAppend(r, nd, a).0.log, leads[a.term].log, LastSent(a) + 1)
      <==> r.mergeAtStart || a.prevLogIndex >= 0 || a.entries == []
  {
    hide HandleAppend, Merge, LeadsOk, Rooted;
    AcceptedLog(r, nd, a);
    if Matches(r, nd.log, a) {
      MergeShares(r, leads, {}, 0, nd, a);
    }
  }

  /** The log after an accepted request: merged, or (at the unrepaired start) the empty log it was. */
  lemma AcceptedLog(r: Repairs, nd: Node, a: AppendArgs)
    requires nd.role != Dead && a.term >= nd.term && HandleAppend(r, nd, a).1.success
    ensures Matches(r, nd.log, a) || (a.prevLogIndex == -1 && !r.mergeAtStart && nd.log == [])
    ensures HandleAppend(r, nd, a).0.log
      == if Matches(r, nd.log, a) then Merge(nd.log, a.prevLogIndex + 1, a.entries) else nd.log
  {
    hide Merge, Hint;
  }

  /** A vote reply lowers the node's term exactly when a candidate without the repair takes a reply
      whose term lies between the election's term and its own. */
  lemma TermFalls(r: Repairs, peers: set<nat>, nd: Node, t: Tally, reply: Option<VoteReply>)
    ensures OnVoteReply(r, peers, nd, t, reply).term < nd.term
      <==> !r.sameElection && nd.role == Candidate && reply.Some? && t.term < reply.value.term < nd.term
  {}

  /** A last reply makes the node leader of a term it was not elected in exactly when the repair is
      absent and the node has moved on to another candidacy. */
  lemma WrongTermWon(r: Repairs, peers: set<nat>, nd: Node, t: Tally, reply: Option<VoteReply>)
    requires Wins(r, peers, nd, t, reply)
    ensures OnVoteReply(r, peers, nd, t, reply).role == Leader
    ensures OnVoteReply(r, peers, nd, t, reply).term != t.term <==> !r.sameElection && nd.term != t.term
  {}

  // ---------------------------------------------------------------- back-off without hints

  /** Whether the code as written accepts a request built with nextIndex `next`. */
  predicate LiteralMatch(lead: Log, log: Log, next: nat)
    requires next <= |lead|
  {
    if next == 0 then log == [] else next <= |log| && lead[next - 1].term == log[next - 1].term
  }

  function LiteralTry(lead: Log, log: Log, next: nat): nat
    requires next <= |lead| && !LiteralMatch(lead, log, next)
  {
    BackOff(lead, 0, if next == 0 then log[0].term else 0)
  }

  ghost predicate Unhinted(r: Repairs, leader: Node) {
    && !r.mergeAtStart && !r.hintOnMismatch
    && forall k :: 0 <= k < |leader.log| ==> leader.log[k].term > 0
  }

  lemma LiteralExchange(r: Repairs, peers: set<nat>, id: nat, leader: Node, p: nat, follower: Node, next: nat)
    requires Unhinted(r, leader) && Trying(leader, p, follower, next)
    ensures Snapshot(r, id, leader, leader.term, p).Some?
    ensures var (leader', follower', reply) := Exchange(r, peers, id, leader, p, follower);
      && (reply.success <==> LiteralMatch(leader.log, follower.log, next))
      && (!reply.success ==>
            && leader' == leader.(nextIndex := leader.nextIndex[p := LiteralTry(leader.log, follower.log, next)])
            && follower' == Persist(follower))
  {
    hide Merge, BackOff, ScanCommit;
  }

  lemma LiteralTries(lead: Log, log: Log, next: nat)
    requires next <= |lead| && !LiteralMatch(lead, log, next)
    requires forall k :: 0 <= k < |lead| ==> lead[k].term > 0
    ensures LiteralTry(lead, log, next) <= |lead|
    ensures next > 0 ==> LiteralTry(lead, log, next) == 0
  {}

  /** The try that the code as written makes after index 0 is rejected, if it is. */
  predicate SecondChance(lead: Log, log: Log) {
    log == [] || LiteralMatch(lead, log, BackOffFromStart(lead, log))
  }

  function BackOffFromStart(lead: Log, log: Log): (next: nat)
    requires log != []
    ensures next <= |lead|
  {
    BackOff(lead, 0, log[0].term)
  }

  lemma {:induction false} NeverMatches(r: Repairs, peers: set<nat>, id: nat, leader: Node, p: nat, follower: Node, next: nat, k: nat)
    requires Unhinted(r, leader) && Trying(leader, p, follower, next)
    requires !LiteralMatch(leader.log, follower.log, next) && !SecondChance(leader.log, follower.log)
    ensures !Succeeds(r, peers, id, leader, p, follower, k)
    decreases k
  {
    hide Exchange, Snapshot, BackOff;
    LiteralExchange(r, peers, id, leader, p, follower, next);
    if k == 0 {
      assert Exchanges(r, peers, id, leader, p, follower, k) == (leader, follower);
    } else {
      var x := Exchange(r, peers, id, leader, p, follower);
      LiteralTries(leader.log, follower.log, next);
      NeverMatches(r, peers, id, x.0, p, x.1, LiteralTry(leader.log, follower.log, next), k - 1);
      ExchangesShift(r, peers, id, leader, p, follower, k - 1);
    }
  }

  lemma SucceedsLater(r: Repairs, peers: set<nat>, id: nat, leader: Node, p: nat, follower: Node, k: nat)
    requires Snapshot(r, id, leader, leader.term, p).Some?
    requires var x := Exchange(r, peers, id, leader, p, follower); Succeeds(r, peers, id, x.0, p, x.1, k)
    ensures Succeeds(r, peers, id, leader, p, follower, k + 1)
  {
    hide Exchange, Snapshot;
    ExchangesShift(r, peers, id, leader, p, follower, k);
  }

  lemma SucceedsNow(r: Repairs, peers: set<nat>, id: nat, leader: Node, p: nat, follower: Node, next: nat)
    requires Unhinted(r, leader) && Trying(leader, p, follower, next)
    requires LiteralMatch(leader.log, follower.log, next)
    ensures Succeeds(r, peers, id, leader, p, follower, 0)
  {
    hide Exchange, Snapshot;
    LiteralExchange(r, peers, id, leader, p, follower, next);
    assert Exchanges(r, peers, id, leader, p, follower, 0) == (leader, follower);
  }

  lemma MatchesSoon(r: Repairs, peers: set<nat>, id: nat, leader: Node, p: nat, follower: Node, next: nat, rest: nat)
    requires Unhinted(r, leader) && Trying(leader, p, follower, next)
    requires LiteralMatch(leader.log, follower.log, next) || SecondChance(leader.log, follower.log)
    requires rest == if next > 0 then 2 else 1
    ensures exists k: nat :: k <= rest && Succeeds(r, peers, id, leader, p, follower, k)
    decreases next
  {
    hide Exchange, Snapshot, BackOff, Succeeds;
    if LiteralMatch(leader.log, follower.log, next) {
      SucceedsNow(r, peers, id, leader, p, follower, next);
    } else {
      LiteralExchange(r, peers, id, leader, p, follower, next);
      LiteralTries(leader.log, follower.log, next);
      var x := Exchange(r, peers, id, leader, p, follower);
      var k: nat;
      if next > 0 {
        MatchesSoon(r, peers, id, x.0, p, x.1, 0, 1);
        k :| k <= 1 && Succeeds(r, peers, id, x.0, p, x.1, k);
      } else {
        k := 0;
        SucceedsNow(r, peers, id, x.0, p, x.1, BackOffFromStart(leader.log, follower.log));
      }
      SucceedsLater(r, peers, id, leader, p, follower, k);
      assert k + 1 <= rest;
    }
  }

  /** Without the repaired start of the log and without hints, a follower ever accepts exactly when
      the first request matches, its log is empty, or the one other request that the leader then
      alternates with matches; otherwise the two nodes exchange rejections for ever. */
  lemma LiteralBackOff(r: Repairs, peers: set<nat>, id: nat, leader: Node, p: nat, follower: Node, next: nat)
    requires Unhinted(r, leader) && Trying(leader, p, follower, next)
    ensures (exists k: nat :: Succeeds(r, peers, id, leader, p, follower, k))
      <==> LiteralMatch(leader.log, follower.log, next) || SecondChance(leader.log, follower.log)
  {
    hide Succeeds, LiteralMatch, SecondChance;
    if LiteralMatch(leader.log, follower.log, next) || SecondChance(leader.log, follower.log) {
      MatchesSoon(r, peers, id, leader, p, follower, next, if next > 0 then 2 else 1);
    } else {
      forall k: nat ensures !Succeeds(r, peers, id, leader, p, follower, k) {
        NeverMatches(r, peers, id, leader, p, follower, next, k);
      }
    }
  }

  // ---------------------------------------------------------------- back-off with one of the two repairs

  /** With the start of the log repaired and no hints, every rejection sends the leader back to the
      start, and the next request is accepted: there is one rejection at most. */
  lemma HintlessBackOff(r: Repairs, peers: set<nat>, id: nat, leader: Node, p: nat, follower: Node, next: nat)
    requires r.mergeAtStart && !r.hintOnMismatch && Trying(leader, p, follower, next)
    requires forall k :: 0 <= k < |leader.log| ==> leader.log[k].term > 0
    ensures Succeeds(r, peers, id, leader, p, follower, 0) <==> Matching(leader.log, follower.log, next)
    ensures Succeeds(r, peers, id, leader, p, follower, 0) || Succeeds(r, peers, id, leader, p, follower, 1)
  {
    hide Exchange, Snapshot, BackOff;
    HintlessExchange(r, peers, id, leader, p, follower, next);
    assert Exchanges(r, peers, id, leader, p, follower, 0) == (leader, follower);
    if !Matching(leader.log, follower.log, next) {
      var x := Exchange(r, peers, id, leader, p, follower);
      HintlessExchange(r, peers, id, x.0, p, x.1, 0);
      assert Exchanges(r, peers, id, x.0, p, x.1, 0) == (x.0, x.1);
      SucceedsLater(r, peers, id, leader, p, follower, 0);
    }
  }

  lemma HintlessExchange(r: Repairs, peers: set<nat>, id: nat, leader: Node, p: nat, follower: Node, next: nat)
    requires r.mergeAtStart && !r.hintOnMismatch && Trying(leader, p, follower, next)
    requires forall k :: 0 <= k < |leader.log| ==> leader.log[k].term > 0
    ensures Snapshot(r, id, leader, leader.term, p).Some?
    ensures var (leader', follower', reply) := Exchange(r, peers, id, leader, p, follower);
      && (reply.success <==> Matching(leader.log, follower.log, next))
      && (!reply.success ==>
            leader' == leader.(nextIndex := leader.nextIndex[p := 0]) && follower' == Persist(follower))
  {
    hide Merge, ScanCommit;
  }

  /** The follower's log is empty, or begins with the leader's first entry. */
  predicate SameStart(lead: Log, log: Log) {
    log == [] || (lead != [] && lead[0] == log[0])
  }

  /** The next try after a rejection with hints, where a request at the start is never merged. */
  function HintedTry(lead: Log, log: Log, next: nat): nat
    requires next <= |lead| && !LiteralMatch(lead, log, next)
  {
    if next == 0 then BackOffFromStart(lead, log) else NextTry(lead, log, next)
  }

  lemma HintedExchange(r: Repairs, peers: set<nat>, id: nat, leader: Node, p: nat, follower: Node, next: nat)
    requires !r.mergeAtStart && r.hintOnMismatch && Trying(leader, p, follower, next)
    ensures Snapshot(r, id, leader, leader.term, p).Some?
    ensures var (leader', follower', reply) := Exchange(r, peers, id, leader, p, follower);
      && (reply.success <==> LiteralMatch(leader.log, follower.log, next))
      && (!reply.success ==>
            && leader' == leader.(nextIndex := leader.nextIndex[p := HintedTry(leader.log, follower.log, next)])
            && follower' == Persist(follower))
  {
    hide Merge, BackOff, Hint, ScanCommit;
  }

  /** Every try is in range; from logs that begin alike it never falls to the start, and from others
      no try matches. */
  lemma HintedTries(leads: Leads, lead: Log, log: Log, next: nat)
    requires LeadsOk(leads) && Rooted(leads, lead) && Rooted(leads, log)
    requires next <= |lead| && !LiteralMatch(lead, log, next)
    ensures HintedTry(lead, log, next) <= |lead|
    ensures next > 0 ==> HintedTry(lead, log, next) < next
    ensures SameStart(lead, log) && log != [] ==> HintedTry(lead, log, next) > 0
  {
    hide LeadsOk, Rooted;
    if next > 0 { TryLowers(leads, lead, log, next); }
    if SameStart(lead, log) && log != [] {
      LastPositive(lead, |lead|, log[0].term);
      if 0 < next <= |log| && RunStart(log, next - 1) == 0 { RunStartMeaning(log, next - 1); }
    }
  }

  lemma LastPositive(log: Log, i: nat, term: int)
    requires 0 < i <= |log| && log[0].term == term
    ensures LastOfTerm(log, i, term) >= 0
  {}

  lemma NoMatch(leads: Leads, lead: Log, log: Log, next: nat)
    requires Rooted(leads, lead) && Rooted(leads, log) && next <= |lead| && !SameStart(lead, log)
    ensures !LiteralMatch(lead, log, next)
  {
    if LiteralMatch(lead, log, next) {
      EqualTermsAgree(leads, lead, log, next - 1);
      AgreeAt(lead, log, next, 0);
    }
  }

  lemma {:induction false} HintedNever(r: Repairs, leads: Leads, peers: set<nat>, id: nat, leader: Node, p: nat, follower: Node, next: nat, k: nat)
    requires !r.mergeAtStart && r.hintOnMismatch && Trying(leader, p, follower, next)
    requires LeadsOk(leads) && Rooted(leads, leader.log) && Rooted(leads, follower.log)
    requires !SameStart(leader.log, follower.log)
    ensures !Succeeds(r, peers, id, leader, p, follower, k)
    decreases k
  {
    hide Exchange, Snapshot, HintedTry, LeadsOk, Rooted, LiteralMatch;
    HintedExchange(r, peers, id, leader, p, follower, next);
    NoMatch(leads, leader.log, follower.log, next);
    if k == 0 {
      assert Exchanges(r, peers, id, leader, p, follower, k) == (leader, follower);
    } else {
      var x := Exchange(r, peers, id, leader, p, follower);
      HintedTries(leads, leader.log, follower.log, next);
      HintedNever(r, leads, peers, id, x.0, p, x.1, HintedTry(leader.log, follower.log, next), k - 1);
      ExchangesShift(r, peers, id, leader, p, follower, k - 1);
    }
  }

  lemma {:induction false} HintedSoon(r: Repairs, leads: Leads, peers: set<nat>, id: nat, leader: Node, p: nat, follower: Node, next: nat)
    requires !r.mergeAtStart && r.hintOnMismatch && Trying(leader, p, follower, next)
    requires LeadsOk(leads) && Rooted(leads, leader.log) && Rooted(leads, follower.log)
    requires SameStart(leader.log, follower.log)
    ensures exists k: nat :: Succeeds(r, peers, id, leader, p, follower, k)
    decreases if next == 0 then |leader.log| + 1 else next
  {
    hide Exchange, Snapshot, HintedTry, LeadsOk, Rooted, Succeeds;
    HintedExchange(r, peers, id, leader, p, follower, next);
    if LiteralMatch(leader.log, follower.log, next) {
      FirstSucceeds(r, peers, id, leader, p, follower);
    } else {
      var x := Exchange(r, peers, id, leader, p, follower);
      HintedTries(leads, leader.log, follower.log, next);
      var k: nat;
      if follower.log == [] {
        EmptyNext(leader.log, next);
        HintedExchange(r, peers, id, x.0, p, x.1, 0);
        FirstSucceeds(r, peers, id, x.0, p, x.1);
        k := 0;
      } else {
        HintedSoon(r, leads, peers, id, x.0, p, x.1, HintedTry(leader.log, follower.log, next));
        k :| Succeeds(r, peers, id, x.0, p, x.1, k);
      }
      SucceedsLater(r, peers, id, leader, p, follower, k);
    }
  }

  lemma EmptyNext(lead: Log, next: nat)
    requires 0 < next <= |lead|
    ensures HintedTry(lead, [], next) == 0
  {}

  lemma FirstSucceeds(r: Repairs, peers: set<nat>, id: nat, leader: Node, p: nat, follower: Node)
    requires Snapshot(r, id, leader, leader.term, p).Some? && Exchange(r, peers, id, leader, p, follower).2.success
    ensures Succeeds(r, peers, id, leader, p, follower, 0)
  {
    assert Exchanges(r, peers, id, leader, p, follower, 0) == (leader, follower);
  }

  /** With hints but the start of the log as written, a follower ever accepts if and only if its log is
      empty or begins with the leader's first entry. */
  lemma HintedBackOff(r: Repairs, leads: Leads, peers: set<nat>, id: nat, leader: Node, p: nat, follower: Node, next: nat)
    requires !r.mergeAtStart && r.hintOnMismatch && Trying(leader, p, follower, next)
    requires LeadsOk(leads) && Rooted(leads, leader.log) && Rooted(leads, follower.log)
    ensures (exists k: nat :: Succeeds(r, peers, id, leader, p, follower, k)) <==> SameStart(leader.log, follower.log)
  {
    hide Succeeds, LeadsOk, Rooted, SameStart;
    if SameStart(leader.log, follower.log) {
      HintedSoon(r, leads, peers, id, leader, p, follower, next);
    } else {
      forall k: nat ensures !Succeeds(r, peers, id, leader, p, follower, k) {
        HintedNever(r, leads, peers, id, leader, p, follower, next, k);
      }
    }
  }

  // ---------------------------------------------------------------- guarded runs

  /** The code with the four repairs that safety rests on. */
  function Repaired(r: Repairs): Repairs {
    r.(sameElection := true, mergeAtStart := true, freshSnapshot := true, sameTermReply := true)
  }

  predicate VoteGuard(r: Repairs, s: State, e: nat) {
    e < |s.elections| && s.elections[e].id < |s.nodes| ==>
      r.sameElection || s.nodes[s.elections[e].id].role != Candidate
      || s.nodes[s.elections[e].id].term == s.elections[e].tally.term
  }

  /** What a caller can look at before a step: the step stays off the branches that depart from the
      repaired code. */
  predicate Guard(r: Repairs, s: State, step: Step) {
    match step
    case VoteReturn(x) => VoteGuard(r, s, x.call.election)
    case VoteFail(e, _) => VoteGuard(r, s, e)
    case SendAppend(x) =>
      x.id < |s.nodes| ==>
        r.freshSnapshot || (s.nodes[x.id].role == Leader && s.nodes[x.id].term == x.term)
    case ReceiveAppend(c) =>
      c.to < |s.nodes| ==>
        r.mergeAtStart || s.nodes[c.to].role == Dead || c.args.term < s.nodes[c.to].term || c.args.prevLogIndex >= 0
    case AppendReturn(x) =>
      var id := x.call.args.leaderId;
      id < |s.nodes| ==>
        r.sameTermReply || s.nodes[id].role != Leader || s.nodes[id].term == x.call.args.term
    case _ => true
  }

  lemma GuardedReply(r: Repairs, peers: set<nat>, nd: Node, t: Tally, reply: Option<VoteReply>)
    requires r.sameElection || nd.role != Candidate || nd.term == t.term
    ensures Counts(r, nd, t, reply) == Counts(Repaired(r), nd, t, reply)
    ensures TallyAfter(r, nd, t, reply) == TallyAfter(Repaired(r), nd, t, reply)
    ensures Wins(r, peers, nd, t, reply) == Wins(Repaired(r), peers, nd, t, reply)
    ensures OnVoteReply(r, peers, nd, t, reply) == OnVoteReply(Repaired(r), peers, nd, t, reply)
  {
    assert InElection(r, nd, t) == InElection(Repaired(r), nd, t);
    assert AfterReply(r, nd, t, reply) == AfterReply(Repaired(r), nd, t, reply);
  }

  lemma GuardedVote(r: Repairs, s: State, e: nat, p: nat, reply: Option<VoteReply>)
    requires VoteGuard(r, s, e)
    ensures DoVoteReturn(r, s, e, p, reply) == DoVoteReturn(Repaired(r), s, e, p, reply)
  {
    hide Counts, Wins, OnVoteReply, TallyAfter;
    if e < |s.elections| && s.elections[e].id < |s.nodes| {
      var el := s.elections[e];
      GuardedReply(r, PeersOf(s, el.id), s.nodes[el.id], el.tally, reply);
    }
  }

  lemma GuardedReceive(r: Repairs, nd: Node, a: AppendArgs)
    requires r.mergeAtStart || nd.role == Dead || a.term < nd.term || a.prevLogIndex >= 0
    ensures HandleAppend(r, nd, a) == HandleAppend(Repaired(r), nd, a)
  {
    hide Merge, Hint;
  }

  lemma SameUnderRepair(r: Repairs, nd: Node, id: nat, a: VoteArgs)
    ensures StartElection(r, id, nd) == StartElection(Repaired(r), id, nd)
    ensures HandleVote(r, nd, a) == HandleVote(Repaired(r), nd, a)
  {}

  lemma GuardedBallots(r: Repairs, s: State, id: nat, c: VoteCall)
    ensures DoTimeout(r, s, id) == DoTimeout(Repaired(r), s, id)
    ensures DoReceiveVote(r, s, c) == DoReceiveVote(Repaired(r), s, c)
  {
    hide HandleVote, StartElection;
    if id < |s.nodes| { SameUnderRepair(r, s.nodes[id], id, c.args); }
    if c.to < |s.nodes| { SameUnderRepair(r, s.nodes[c.to], 0, c.args); }
  }

  lemma GuardedSend(r: Repairs, s: State, x: Round)
    requires Guard(r, s, SendAppend(x))
    ensures DoSendAppend(r, s, x) == DoSendAppend(Repaired(r), s, x)
  {}

  lemma GuardedAppend(r: Repairs, s: State, c: AppendCall)
    requires Guard(r, s, ReceiveAppend(c))
    ensures DoReceiveAppend(r, s, c) == DoReceiveAppend(Repaired(r), s, c)
  {
    hide HandleAppend;
    if c.to < |s.nodes| { GuardedReceive(r, s.nodes[c.to], c.args); }
  }

  lemma GuardedReturn(r: Repairs, s: State, x: AppendAnswer)
    requires Guard(r, s, AppendReturn(x))
    ensures DoAppendReturn(r, s, x) == DoAppendReturn(Repaired(r), s, x)
  {
    hide ScanCommit, BackOff;
  }

  /** A guarded step is a step of the repaired code. */
  lemma GuardedNext(r: Repairs, s: State, step: Step)
    requires Guard(r, s, step)
    ensures Next(r, s, step) == Next(Repaired(r), s, step)
  {
    hide DoTimeout, DoReceiveVote, DoVoteReturn, DoReceiveAppend, DoAppendReturn, DoSendAppend;
    match step
    case Timeout(id) => GuardedBallots(r, s, id, VoteCall(0, 0, VoteArgs(0, 0, -1, -1)));
    case ReceiveVote(c) => GuardedBallots(r, s, 0, c);
    case VoteReturn(x) => GuardedVote(r, s, x.call.election, x.call.to, Some(x.reply));
    case VoteFail(e, p) => GuardedVote(r, s, e, p, None);
    case SendAppend(x) => GuardedSend(r, s, x);
    case ReceiveAppend(c) => GuardedAppend(r, s, c);
    case AppendReturn(x) => GuardedReturn(r, s, x);
    case _ =>
  }

  ghost predicate GuardedRun(r: Repairs, n: nat, steps: seq<Step>) {
    forall k :: 0 <= k < |steps| ==> Guard(r, Exec(r, n, steps[..k]), steps[k])
  }

  /** A run whose every step is guarded is a run of the repaired code, so every theorem about the
      repaired code holds of it. */
  lemma {:induction false} GuardedExec(r: Repairs, n: nat, steps: seq<Step>)
    requires GuardedRun(r, n, steps)
    ensures Exec(r, n, steps) == Exec(Repaired(r), n, steps)
  {
    hide Next, Guard;
    if steps != [] {
      var before, step := steps[..|steps| - 1], steps[|steps| - 1];
      forall k | 0 <= k < |before| ensures Guard(r, Exec(r, n, before[..k]), before[k]) {
        assert before[..k] == steps[..k];
      }
      GuardedExec(r, n, before);
      GuardedNext(r, Exec(r, n, before), step);
    }
  }

  /** State machine safety of the code as written, over guarded runs. */
  lemma GuardedSafety(r: Repairs, n: nat, steps: seq<Step>, d: Delivery, e: Delivery)
    requires GuardedRun(r, n, steps) && (r.persistAlways || CrashFree(steps))
    requires d in Exec(r, n, steps).delivered && e in Exec(r, n, steps).delivered
    requires d.entry.index == e.entry.index
    ensures d.entry.command == e.entry.command && d.prefix == e.prefix
  {
    hide Exec;
    GuardedExec(r, n, steps);
    StateMachineSafety(Repaired(r), n, steps, d, e);
  }
}

/** The code with its start of the log as written (internal/raft/heartbeat.go:53-59): over every run
    that counts votes in the right term, no entry ever reaches a second node. */
module UnrepairedStart {
  import opened RaftTypes
  import opened NodeSteps
  import opened Cluster
  import opened Commands
  import opened LogHistory
  import opened Votes
  import opened Leaders

  /** Every entry of the log is of a term that node i was elected in. */
  ghost predicate Owns(leads: Leads, log: Log, i: nat) {
    forall k :: 0 <= k < |log| ==> log[k].term in leads && leads[log[k].term].id == i
  }

  /** The entry before the request's entries is of a term its sender was elected in. */
  ghost predicate OwnPrev(leads: Leads, a: AppendArgs) {
    a.prevLogIndex >= 0 ==> exists t :: t in leads && a.prevLogTerm == t && leads[t].id == a.leaderId
  }

  ghost predicate OwnInv(s: State) {
    && (forall i :: 0 <= i < |s.nodes| ==> Owns(s.leads, s.nodes[i].log, i))
    && (forall c :: c in s.appendCalls ==> OwnPrev(s.leads, c.args))
  }

  // ---------------------------------------------------------------- logs that stay

  lemma BallotLogs(r: Repairs, nd: Node, id: nat, a: VoteArgs, peers: set<nat>, t: Tally, reply: Option<VoteReply>)
    ensures StartElection(r, id, nd).log == HandleVote(r, nd, a).0.log == nd.log
    ensures OnVoteReply(r, peers, nd, t, reply).log == nd.log
  {
    hide Wins;
  }

  lemma BallotSteps(r: Repairs, s: State, id: nat, call: VoteCall, i: nat)
    requires i < |s.nodes|
    ensures DoTimeout(r, s, id).nodes[i].log == s.nodes[i].log
    ensures DoReceiveVote(r, s, call).nodes[i].log == s.nodes[i].log
  {
    hide StartElection, HandleVote;
    BallotLogs(r, s.nodes[i], id, call.args, {}, Tally(0, 0, 0), None);
  }

  lemma ReplySteps(r: Repairs, s: State, e: nat, p: nat, reply: Option<VoteReply>, i: nat)
    requires i < |s.nodes|
    ensures DoVoteReturn(r, s, e, p, reply).nodes[i].log == s.nodes[i].log
  {
    hide OnVoteReply, Wins, Counts, TallyAfter;
    if e < |s.elections| {
      var el := s.elections[e];
      BallotLogs(r, s.nodes[i], 0, VoteArgs(0, 0, -1, -1), PeersOf(s, el.id), el.tally, reply);
    }
  }

  lemma ProcessSteps(r: Repairs, s: State, id: nat, i: nat)
    requires i < |s.nodes| && RootInv(r, s)
    ensures DoDeliver(s, id).nodes[i].log == DoKill(s, id).nodes[i].log == s.nodes[i].log
    ensures r.persistAlways ==> DoRestart(s, id).nodes[i].log == s.nodes[i].log
  {
    hide Rooted, Deliveries;
    assert RootOk(r, s.leads, s.nodes[i], i);
  }

  lemma AppendReturnStep(r: Repairs, s: State, x: AppendAnswer, i: nat)
    requires i < |s.nodes|
    ensures DoAppendReturn(r, s, x).nodes[i].log == s.nodes[i].log
  {
    hide OnAppendReply;
    var id := x.call.args.leaderId;
    ReplyLog(r, PeersOf(s, id), s.nodes[i], x);
  }

  lemma ReplyLog(r: Repairs, peers: set<nat>, nd: Node, x: AppendAnswer)
    ensures OnAppendReply(r, peers, nd, x.call.to, x.call.args, x.reply).log == nd.log
  {
    hide Scan, BackOff;
  }

  /** A request never matches: the receiver's entries are of its own terms, the sender's of others. */
  lemma NeverMerges(r: Repairs, leads: Leads, nd: Node, i: nat, a: AppendArgs)
    requires !r.mergeAtStart && Owns(leads, nd.log, i) && OwnPrev(leads, a) && a.leaderId != i
    ensures HandleAppend(r, nd, a).0.log == nd.log
  {
    hide Merge, Hint;
    assert !Matches(r, nd.log, a);
  }

  lemma ReceiveStaysOwn(r: Repairs, s: State, c: AppendCall, i: nat)
    requires CoreInv(r, s) && OwnInv(s) && !r.mergeAtStart && i < |s.nodes|
    ensures DoReceiveAppend(r, s, c).nodes[i].log == s.nodes[i].log
  {
    hide HandleAppend, VotesInv, LeadsInv, BallotInv, RootInv, Owns, OwnPrev;
    if c in s.appendCalls && c.to == i {
      assert CallRooted(s.leads, |s.nodes|, c);
      NeverMerges(r, s.leads, s.nodes[i], i, c.args);
    }
  }

  /** Only Submit changes a log. */
  lemma LogStays(r: Repairs, s: State, step: Step, i: nat)
    requires CoreInv(r, s) && OwnInv(s) && !r.mergeAtStart && ElectingStep(r, step) && i < |s.nodes|
    requires !step.ClientSubmit?
    ensures Next(r, s, step).nodes[i].log == s.nodes[i].log
  {
    hide OwnInv, VotesInv, LeadsInv, BallotInv, RequestInv, RootInv, DoTimeout, DoReceiveVote, DoVoteReturn,
      DoReceiveAppend, DoAppendReturn, DoDeliver, DoKill, DoRestart;
    var none := VoteCall(0, 0, VoteArgs(0, 0, -1, -1));
    match step
    case Timeout(id) => BallotSteps(r, s, id, none, i);
    case ReceiveVote(call) => BallotSteps(r, s, 0, call, i);
    case VoteReturn(y) => ReplySteps(r, s, y.call.election, y.call.to, Some(y.reply), i);
    case VoteFail(e, p) => ReplySteps(r, s, e, p, None, i);
    case ReceiveAppend(c) => ReceiveStaysOwn(r, s, c, i);
    case AppendReturn(x) => AppendReturnStep(r, s, x, i);
    case DeliverReady(id) => ProcessSteps(r, s, id, i);
    case KillNode(id) => ProcessSteps(r, s, id, i);
    case RestartNode(id) => ProcessSteps(r, s, id, i);
    case _ =>
  }

  lemma SubmitOwns(r: Repairs, s: State, id: nat, command: Command, i: nat)
    requires RootInv(r, s) && OwnInv(s) && i < |s.nodes|
    requires Extends(s.leads, DoSubmit(s, id, command).leads)
    ensures var s' := DoSubmit(s, id, command); Owns(s'.leads, s'.nodes[i].log, i)
  {
    hide Rooted;
    OwnsKept(s.leads, DoSubmit(s, id, command).leads, s.nodes[i].log, i);
    if id == i { assert RootOk(r, s.leads, s.nodes[i], i); }
  }

  lemma OwnsKept(leads: Leads, leads': Leads, log: Log, i: nat)
    requires Owns(leads, log, i) && Extends(leads, leads')
    ensures Owns(leads', log, i)
  {
    forall k | 0 <= k < |log| ensures log[k].term in leads' && leads'[log[k].term].id == i {
      assert Grows(leads, leads', log[k].term);
    }
  }

  // ---------------------------------------------------------------- requests

  lemma PrevKept(leads: Leads, leads': Leads, a: AppendArgs)
    requires OwnPrev(leads, a) && Extends(leads, leads')
    ensures OwnPrev(leads', a)
  {
    if a.prevLogIndex >= 0 {
      var t :| t in leads && a.prevLogTerm == t && leads[t].id == a.leaderId;
      assert Grows(leads, leads', t);
    }
  }

  lemma SentOwn(r: Repairs, s: State, x: Round, c: AppendCall)
    requires OwnInv(s) && c in DoSendAppend(r, s, x).appendCalls
    ensures OwnPrev(s.leads, c.args)
  {
    if c !in s.appendCalls { assert Owns(s.leads, s.nodes[x.id].log, x.id); }
  }

  lemma CallsOwn(r: Repairs, s: State, step: Step, c: AppendCall)
    requires OwnInv(s) && c in Next(r, s, step).appendCalls
    ensures OwnPrev(s.leads, c.args)
  {
    hide DoTimeout, DoReceiveVote, DoSendAppend;
    if step.SendAppend? { SentOwn(r, s, step.round, c); } else { OtherCalls(r, s, step); }
  }

  lemma OtherCalls(r: Repairs, s: State, step: Step)
    requires !step.SendAppend?
    ensures Next(r, s, step).appendCalls == s.appendCalls
  {
    hide HandleAppend, HandleVote, OnVoteReply, OnAppendReply, Wins, Counts, Deliver, Submit;
  }

  // ---------------------------------------------------------------- all runs

  lemma OwnNext(r: Repairs, s: State, step: Step)
    requires CoreInv(r, s) && OwnInv(s) && !r.mergeAtStart && ElectingStep(r, step)
    ensures OwnInv(Next(r, s, step))
  {
    hide CoreInv, Next, OwnPrev, Owns;
    var s' := Next(r, s, step);
    NextCore(r, s, step);
    forall i | 0 <= i < |s'.nodes| ensures Owns(s'.leads, s'.nodes[i].log, i) {
      if step.ClientSubmit? {
        SubmitIsNext(r, s, step);
        SubmitOwns(r, s, step.id, step.command, i);
      } else {
        LogStays(r, s, step, i);
        OwnsKept(s.leads, s'.leads, s.nodes[i].log, i);
      }
    }
    forall c | c in s'.appendCalls ensures OwnPrev(s'.leads, c.args) {
      CallsOwn(r, s, step, c);
      PrevKept(s.leads, s'.leads, c.args);
    }
  }

  lemma SubmitIsNext(r: Repairs, s: State, step: Step)
    requires step.ClientSubmit? && CoreInv(r, s)
    ensures Next(r, s, step) == DoSubmit(s, step.id, step.command) && RootInv(r, s)
  {}

  lemma {:induction false} OwnReached(r: Repairs, n: nat, steps: seq<Step>)
    requires Electing(r, steps) && !r.mergeAtStart
    ensures OwnInv(Exec(r, n, steps)) && |Exec(r, n, steps).nodes| == n
  {
    hide Next, CoreInv;
    if steps != [] {
      var before, step := steps[..|steps| - 1], steps[|steps| - 1];
      OwnReached(r, n, before);
      CoreReached(r, n, before);
      OwnNext(r, Exec(r, n, before), step);
    }
  }

  /** No entry is ever in the logs of two nodes: an entry of the one and an entry of the other are
      never even of the same term. */
  lemma NothingReplicates(r: Repairs, n: nat, steps: seq<Step>, i: nat, j: nat, e: LogEntry, f: LogEntry)
    requires Electing(r, steps) && !r.mergeAtStart
    requires var s := Exec(r, n, steps);
      && |s.nodes| == n && i < n && j < n && i != j && e in s.nodes[i].log && f in s.nodes[j].log
    ensures e.term != f.term
  {
    hide Exec;
    OwnReached(r, n, steps);
    var s := Exec(r, n, steps);
    assert Owns(s.leads, s.nodes[i].log, i) && Owns(s.leads, s.nodes[j].log, j);
  }
}

/** The safety of the repaired cluster over every run: Figure 3 of the Raft paper, and what this
    code adds to it. */
module Safety {
  import opened RaftTypes
  import opened NodeSteps
  import opened Cluster
  import opened Commands
  import opened LogHistory
  import opened Invariants
  import opened Commitment
  import opened Steps
  import opened AppendSteps
  import opened ReceiveStep
  import opened ElectionSteps

  /** The runs the results are about: any run without crashes; any run at all when elections and
      step-downs are persisted. */
  predicate Covered(r: Repairs, steps: seq<Step>) {
    Sound(r) && (r.persistAlways || CrashFree(steps))
  }

  predicate CoveredStep(r: Repairs, step: Step) {
    Sound(r) && (r.persistAlways || !step.RestartNode?)
  }

  lemma InitInv(r: Repairs, n: nat)
    ensures Inv(r, Init(n))
  {
    assert FRESH_NODE.log[..0] == [];
  }

  lemma NextElectionInv(r: Repairs, s: State, step: Step)
    requires Inv(r, s) && Sound(r)
    requires step.Timeout? || step.SendVote? || step.ReceiveVote? || step.VoteReturn? || step.VoteFail?
    ensures Inv(r, Next(r, s, step))
  {
    hide Inv, DoTimeout, DoSendVote, DoReceiveVote, DoVoteReturn;
    match step
    case Timeout(id) => TimeoutInv(r, s, id);
    case SendVote(e, p) => SendVoteInv(r, s, e, p);
    case ReceiveVote(call) => ReceiveVoteInv(r, s, call);
    case VoteReturn(x) =>
      if x in s.voteAnswers { VoteReturnInv(r, s, x.call.election, x.call.to, Some(x.reply)); }
    case VoteFail(e, p) => VoteReturnInv(r, s, e, p, None);
  }

  lemma NextInv(r: Repairs, s: State, step: Step)
    requires Inv(r, s) && CoveredStep(r, step)
    ensures Inv(r, Next(r, s, step))
  {
    hide Inv, DoSubmit, DoHeartbeat, DoSendAppend, DoReceiveAppend, DoAppendReturn, DoDeliver, DoKill, DoRestart;
    match step
    case ClientSubmit(id, command) => SubmitInv(r, s, id, command);
    case Heartbeat(id) => HeartbeatInv(r, s, id);
    case SendAppend(round) => SendAppendInv(r, s, round);
    case ReceiveAppend(call) => ReceiveAppendInv(r, s, call);
    case AppendReturn(x) => AppendReturnInv(r, s, x);
    case DeliverReady(id) => DeliverKeeps(r, s, id);
    case KillNode(id) => KillKeeps(r, s, id);
    case RestartNode(id) => RestartKeeps(r, s, id);
    case _ => NextElectionInv(r, s, step);
  }

  lemma {:induction false} Reached(r: Repairs, n: nat, steps: seq<Step>)
    requires Covered(r, steps)
    ensures Inv(r, Exec(r, n, steps)) && |Exec(r, n, steps).nodes| == n
  {
    if steps == [] {
      InitInv(r, n);
    } else {
      var before, step := steps[..|steps| - 1], steps[|steps| - 1];
      Reached(r, n, before);
      NextInv(r, Exec(r, n, before), step);
    }
  }

  // ---------------------------------------------------------------- what a step can only add to

  ghost predicate Evolves(s: State, s': State) {
    && |s'.nodes| == |s.nodes|
    && Extends(s.leads, s'.leads)
    && s.acks <= s'.acks
    && forall i :: 0 <= i < |s.nodes| ==> s.nodes[i].term <= s'.nodes[i].term
  }

  /** A node moves on without losing a term, an entry or (unless it restarts) a commit. */
  ghost predicate Onward(nd: Node, nd': Node, restarts: bool) {
    nd.term <= nd'.term && nd.log <= nd'.log && (restarts || nd.commitIndex <= nd'.commitIndex)
  }

  ghost predicate Receives(s: State, step: Step, i: nat) {
    step.ReceiveAppend? && step.appendCall in s.appendCalls && step.appendCall.to == i
  }

  lemma TimeoutOnward(r: Repairs, s: State, id: nat, i: nat)
    requires i < |s.nodes|
    ensures |DoTimeout(r, s, id).nodes| == |s.nodes|
    ensures Onward(s.nodes[i], DoTimeout(r, s, id).nodes[i], false)
  {}

  lemma VoteOnward(r: Repairs, s: State, call: VoteCall, i: nat)
    requires i < |s.nodes|
    ensures |DoReceiveVote(r, s, call).nodes| == |s.nodes|
    ensures Onward(s.nodes[i], DoReceiveVote(r, s, call).nodes[i], false)
  {
    if call.to < |s.nodes| {
      assert Onward(s.nodes[call.to], HandleVote(r, s.nodes[call.to], call.args).0, false);
    }
  }

  lemma VoteReplyOnward(r: Repairs, s: State, e: nat, p: nat, reply: Option<VoteReply>, i: nat)
    requires i < |s.nodes| && r.sameElection
    ensures |DoVoteReturn(r, s, e, p, reply).nodes| == |s.nodes|
    ensures Onward(s.nodes[i], DoVoteReturn(r, s, e, p, reply).nodes[i], false)
  {
    if e < |s.elections| && s.elections[e].id < |s.nodes| {
      var id := s.elections[e].id;
      var nd := s.nodes[id];
      assert Onward(nd, AfterReply(r, nd, s.elections[e].tally, reply), false);
    }
  }

  lemma SubmitOnward(s: State, id: nat, command: Command, i: nat)
    requires i < |s.nodes|
    ensures |DoSubmit(s, id, command).nodes| == |s.nodes|
    ensures Onward(s.nodes[i], DoSubmit(s, id, command).nodes[i], false)
  {}

  lemma ReplyOnward(r: Repairs, peers: set<nat>, nd: Node, peer: nat, a: AppendArgs, reply: AppendReply)
    ensures Onward(nd, OnAppendReply(r, peers, nd, peer, a, reply), false)
  {
    hide Scan, BackOff;
  }

  lemma AppendOnward(r: Repairs, s: State, x: AppendAnswer, i: nat)
    requires i < |s.nodes|
    ensures |DoAppendReturn(r, s, x).nodes| == |s.nodes|
    ensures Onward(s.nodes[i], DoAppendReturn(r, s, x).nodes[i], false)
  {
    hide OnAppendReply;
    var id := x.call.args.leaderId;
    if id == i { ReplyOnward(r, PeersOf(s, id), s.nodes[i], x.call.to, x.call.args, x.reply); }
  }

  lemma ProcessOnward(r: Repairs, s: State, id: nat, i: nat)
    requires i < |s.nodes|
    ensures |DoDeliver(s, id).nodes| == |DoKill(s, id).nodes| == |DoRestart(s, id).nodes| == |s.nodes|
    ensures Onward(s.nodes[i], DoDeliver(s, id).nodes[i], false) && Onward(s.nodes[i], DoKill(s, id).nodes[i], false)
    ensures DiskOk(r, s.nodes[i]) && r.persistAlways ==>
      Onward(s.nodes[i], DoRestart(s, id).nodes[i], id == i)
  {}

  lemma ReceiveOnward(r: Repairs, s: State, call: AppendCall, i: nat)
    requires i < |s.nodes|
    ensures |DoReceiveAppend(r, s, call).nodes| == |s.nodes|
    ensures s.nodes[i].term <= DoReceiveAppend(r, s, call).nodes[i].term
    ensures call.to != i || call !in s.appendCalls ==> DoReceiveAppend(r, s, call).nodes[i] == s.nodes[i]
  {}

  lemma NextOnward(r: Repairs, s: State, step: Step, i: nat)
    requires i < |s.nodes| && DiskOk(r, s.nodes[i]) && CoveredStep(r, step)
    ensures |Next(r, s, step).nodes| == |s.nodes|
    ensures s.nodes[i].term <= Next(r, s, step).nodes[i].term
    ensures !Receives(s, step, i) ==> Onward(s.nodes[i], Next(r, s, step).nodes[i], step == RestartNode(i))
  {
    hide DoTimeout, DoReceiveVote, DoVoteReturn, DoSubmit, DoReceiveAppend, DoAppendReturn,
      DoDeliver, DoKill, DoRestart, DiskOk;
    match step
    case Timeout(id) => TimeoutOnward(r, s, id, i);
    case ReceiveVote(call) => VoteOnward(r, s, call, i);
    case VoteReturn(x) => VoteReplyOnward(r, s, x.call.election, x.call.to, Some(x.reply), i);
    case VoteFail(e, p) => VoteReplyOnward(r, s, e, p, None, i);
    case ClientSubmit(id, command) => SubmitOnward(s, id, command, i);
    case AppendReturn(x) => AppendOnward(r, s, x, i);
    case ReceiveAppend(call) => ReceiveOnward(r, s, call, i);
    case DeliverReady(id) => ProcessOnward(r, s, id, i);
    case KillNode(id) => ProcessOnward(r, s, id, i);
    case RestartNode(id) => ProcessOnward(r, s, id, i);
    case _ =>
  }

  lemma VoteReturnLeads(r: Repairs, s: State, e: nat, p: nat, reply: Option<VoteReply>)
    requires Inv(r, s) && r.sameElection
    requires reply.Some? ==>
      exists x :: x in s.voteAnswers && x.call.election == e && x.call.to == p && x.reply == reply.value
    ensures var s' := DoVoteReturn(r, s, e, p, reply); Extends(s.leads, s'.leads) && s.acks <= s'.acks
  {
    VoteReturnInv(r, s, e, p, reply);
  }

  lemma SubmitLeadsGrow(r: Repairs, s: State, id: nat, command: Command)
    requires Inv(r, s)
    ensures var s' := DoSubmit(s, id, command); Extends(s.leads, s'.leads) && s.acks <= s'.acks
  {
    if id < |s.nodes| && s.nodes[id].role == Leader {
      NodeOf(r, s, id);
      SubmitMoves(s, id, command);
    } else {
      SubmitRefused(s, id, command);
      ExtendsSelf(s.leads);
    }
  }

  lemma NextLeads(r: Repairs, s: State, step: Step)
    requires Inv(r, s) && CoveredStep(r, step)
    ensures Extends(s.leads, Next(r, s, step).leads) && s.acks <= Next(r, s, step).acks
  {
    hide Inv, Extends, DoVoteReturn, DoSubmit;
    if step.VoteReturn? {
      var x := step.voteAnswer;
      if x in s.voteAnswers {
        VoteReturnLeads(r, s, x.call.election, x.call.to, Some(x.reply));
      } else {
        ExtendsSelf(s.leads);
      }
    } else if step.VoteFail? {
      VoteReturnLeads(r, s, step.election, step.peer, None);
    } else if step.ClientSubmit? {
      SubmitLeadsGrow(r, s, step.id, step.command);
    } else {
      OtherLeads(r, s, step);
      ExtendsSelf(s.leads);
    }
  }

  lemma OtherLeads(r: Repairs, s: State, step: Step)
    requires !step.VoteReturn? && !step.VoteFail? && !step.ClientSubmit?
    ensures Next(r, s, step).leads == s.leads && s.acks <= Next(r, s, step).acks
  {}

  lemma NextEvolves(r: Repairs, s: State, step: Step)
    requires Inv(r, s) && CoveredStep(r, step)
    ensures Evolves(s, Next(r, s, step))
  {
    hide Next;
    NextLeads(r, s, step);
    forall i | 0 <= i < |s.nodes| ensures s.nodes[i].term <= Next(r, s, step).nodes[i].term {
      NodeOf(r, s, i);
      NextOnward(r, s, step, i);
    }
  }

  lemma ReceivesNext(r: Repairs, s: State, step: Step, i: nat)
    requires i < |s.nodes| && Receives(s, step, i)
    ensures Next(r, s, step).nodes == s.nodes[i := HandleAppend(r, s.nodes[i], step.appendCall.args).0]
  {}

  /** What the invariant says about a request and its receiver. */
  lemma ReceiverOf(r: Repairs, s: State, call: AppendCall)
    requires Inv(r, s) && call in s.appendCalls
    ensures LeadsOk(s.leads) && QuorumAcksOk(s.leads, s.acks, |s.nodes|)
    ensures CallOk(s.leads, s.acks, |s.nodes|, call) && call.to < |s.nodes|
    ensures NodeOk(r, s.leads, s.acks, |s.nodes|, s.nodes[call.to], call.to)
  {
    hide NodeOk;
    QuorumsOf(r, s);
    assert CallOk(s.leads, s.acks, |s.nodes|, call);
    NodeOf(r, s, call.to);
  }

  lemma NodeIn(r: Repairs, s: State, i: nat)
    requires Inv(r, s) && i < |s.nodes|
    ensures LeadsOk(s.leads) && QuorumAcksOk(s.leads, s.acks, |s.nodes|)
    ensures NodeOk(r, s.leads, s.acks, |s.nodes|, s.nodes[i], i)
  {
    hide NodeOk;
    QuorumsOf(r, s);
    NodeOf(r, s, i);
  }

  /** A receiver loses no settled prefix and no commit. */
  lemma ReceiveStays(r: Repairs, s: State, step: Step, i: nat, xs: Log, hi: nat)
    requires Inv(r, s) && r.mergeAtStart && i < |s.nodes| && Receives(s, step, i)
    requires Settled(s.leads, s.acks, |s.nodes|, xs, hi) && hi <= s.nodes[i].term && xs <= s.nodes[i].log
    ensures |Next(r, s, step).nodes| == |s.nodes|
    ensures xs <= Next(r, s, step).nodes[i].log
    ensures s.nodes[i].commitIndex <= Next(r, s, step).nodes[i].commitIndex
  {
    hide HandleAppend, Inv, Next, NodeOk, CallOk, Settled, Received;
    var call := step.appendCall;
    var a := call.args;
    ReceivesNext(r, s, step, i);
    ReceiverOf(r, s, call);
    HandleAppendOk(r, s.leads, s.acks, |s.nodes|, s.nodes[i], i, a);
    ReceivedStays(s.leads, s.acks, |s.nodes|, s.nodes[i], HandleAppend(r, s.nodes[i], a).0, a,
      HandleAppend(r, s.nodes[i], a).1, xs, hi);
    ReceivedCommit(s.leads, s.nodes[i], HandleAppend(r, s.nodes[i], a).0, a, HandleAppend(r, s.nodes[i], a).1);
  }

  lemma ReceivedCommit(leads: Leads, nd: Node, nd': Node, a: AppendArgs, reply: AppendReply)
    requires Received(leads, nd, nd', a, reply)
    ensures nd.commitIndex <= nd'.commitIndex
  {}

  lemma ReceivedStays(leads: Leads, acks: set<Ack>, n: nat, nd: Node, nd': Node, a: AppendArgs, reply: AppendReply, xs: Log, hi: nat)
    requires LeadsOk(leads) && QuorumAcksOk(leads, acks, n) && Received(leads, nd, nd', a, reply)
    requires Settled(leads, acks, n, xs, hi) && hi <= nd.term && xs <= nd.log
    ensures xs <= nd'.log
  {
    if nd'.log != nd.log {
      SettledCarried(leads, acks, n, xs, hi, a.term);
      assert nd.log[..|xs|] == xs[..|xs|];
      assert Agree(nd.log, leads[a.term].log, |xs|);
      assert nd'.log[..|xs|] == xs;
    }
  }

  /** A settled prefix of a node's log survives every step. */
  lemma SettledStays(r: Repairs, s: State, step: Step, i: nat, xs: Log, hi: nat)
    requires Inv(r, s) && CoveredStep(r, step) && i < |s.nodes|
    requires Settled(s.leads, s.acks, |s.nodes|, xs, hi) && hi <= s.nodes[i].term && xs <= s.nodes[i].log
    ensures i < |Next(r, s, step).nodes| && xs <= Next(r, s, step).nodes[i].log
  {
    hide Next;
    NodeOf(r, s, i);
    NextOnward(r, s, step, i);
    if Receives(s, step, i) { ReceiveStays(r, s, step, i, xs, hi); }
  }

  // ---------------------------------------------------------------- runs and their continuations

  /** The last step of a continuation. */
  lemma LastStep(r: Repairs, n: nat, steps: seq<Step>, more: seq<Step>)
    requires more != [] && Covered(r, steps + more)
    ensures var before, step := steps + more[..|more| - 1], more[|more| - 1];
      && Covered(r, before) && CoveredStep(r, step)
      && Exec(r, n, steps + more) == Next(r, Exec(r, n, before), step)
  {
    hide Next;
    var all, before := steps + more, steps + more[..|more| - 1];
    assert all[..|all| - 1] == before && all[|all| - 1] == more[|more| - 1];
    forall k | 0 <= k < |before| ensures before[k] == all[k] {}
  }

  lemma {:induction false} Continued(r: Repairs, n: nat, steps: seq<Step>, more: seq<Step>)
    requires Covered(r, steps + more)
    ensures Evolves(Exec(r, n, steps), Exec(r, n, steps + more))
    ensures Covered(r, steps)
  {
    hide Next, Inv, Extends, Exec;
    if more == [] {
      assert steps + more == steps;
      ExtendsSelf(Exec(r, n, steps).leads);
    } else {
      var before, step := steps + more[..|more| - 1], more[|more| - 1];
      LastStep(r, n, steps, more);
      Continued(r, n, steps, more[..|more| - 1]);
      Reached(r, n, before);
      NextEvolves(r, Exec(r, n, before), step);
      ExtendsTrans(Exec(r, n, steps).leads, Exec(r, n, before).leads, Next(r, Exec(r, n, before), step).leads);
    }
  }

  lemma {:induction false} SettledForever(r: Repairs, n: nat, steps: seq<Step>, more: seq<Step>, i: nat, xs: Log, hi: nat)
    requires Covered(r, steps + more) && i < n
    requires var s := Exec(r, n, steps);
      && |s.nodes| == n && Settled(s.leads, s.acks, n, xs, hi) && hi <= s.nodes[i].term && xs <= s.nodes[i].log
    ensures var s' := Exec(r, n, steps + more);
      && |s'.nodes| == n && Settled(s'.leads, s'.acks, n, xs, hi) && hi <= s'.nodes[i].term && xs <= s'.nodes[i].log
  {
    hide Next, Inv, Settled, Extends, Exec;
    if more == [] {
      assert steps + more == steps;
    } else {
      var before, step := steps + more[..|more| - 1], more[|more| - 1];
      LastStep(r, n, steps, more);
      SettledForever(r, n, steps, more[..|more| - 1], i, xs, hi);
      var m := Exec(r, n, before);
      Reached(r, n, before);
      SettledStays(r, m, step, i, xs, hi);
      NextEvolves(r, m, step);
      SettledKept(m.leads, m.acks, Next(r, m, step).leads, Next(r, m, step).acks, n, xs, hi, hi);
    }
  }

  // ---------------------------------------------------------------- commitment

  /** Whatever a node has committed is, from then on, in the log of every leader of that node's
      term or a later one. */
  lemma LeaderCompleteness(r: Repairs, n: nat, steps: seq<Step>, more: seq<Step>, i: nat, j: nat)
    requires Covered(r, steps + more) && i < n && j < n
    requires var s, s' := Exec(r, n, steps), Exec(r, n, steps + more);
      && |s.nodes| == n && |s'.nodes| == n
      && s'.nodes[j].role == Leader && s.nodes[i].term <= s'.nodes[j].term
    ensures var nd, leader := Exec(r, n, steps).nodes[i], Exec(r, n, steps + more).nodes[j];
      && nd.commitIndex < |nd.log|
      && nd.log[..nd.commitIndex + 1] <= leader.log
  {
    hide Exec, Inv, Settled, LeadsOk;
    var s, s' := Exec(r, n, steps), Exec(r, n, steps + more);
    Continued(r, n, steps, more);
    Reached(r, n, steps);
    Reached(r, n, steps + more);
    NodeIn(r, s, i);
    NodeIn(r, s', j);
    var nd := s.nodes[i];
    var xs := nd.log[..nd.commitIndex + 1];
    SettledKept(s.leads, s.acks, s'.leads, s'.acks, n, xs, nd.term, nd.term);
    SettledCarried(s'.leads, s'.acks, n, xs, nd.term, s'.nodes[j].term);
    assert xs[..|xs|] == xs;
  }

  /** What a node has committed stays in its log for ever, crashes included, and the committed
      range lies inside the log. */
  lemma CommittedForever(r: Repairs, n: nat, steps: seq<Step>, more: seq<Step>, i: nat)
    requires Covered(r, steps + more) && i < n
    ensures var s, s' := Exec(r, n, steps), Exec(r, n, steps + more);
      && |s.nodes| == n && |s'.nodes| == n
      && s.nodes[i].commitIndex < |s.nodes[i].log|
      && s.nodes[i].log[..s.nodes[i].commitIndex + 1] <= s'.nodes[i].log
  {
    hide Exec, Next, Inv;
    var s := Exec(r, n, steps);
    Continued(r, n, steps, more);
    Reached(r, n, steps);
    NodeIn(r, s, i);
    var nd := s.nodes[i];
    SettledForever(r, n, steps, more, i, nd.log[..nd.commitIndex + 1], nd.term);
  }

  /** Only a restart lowers a commit index. */
  lemma CommitNeverFalls(r: Repairs, n: nat, steps: seq<Step>, step: Step, i: nat)
    requires Covered(r, steps) && CoveredStep(r, step) && i < n && step != RestartNode(i)
    ensures var s, s' := Exec(r, n, steps), Next(r, Exec(r, n, steps), step);
      && |s.nodes| == n && |s'.nodes| == n && s.nodes[i].commitIndex <= s'.nodes[i].commitIndex
  {
    hide Next, Exec;
    var s := Exec(r, n, steps);
    Reached(r, n, steps);
    NodeOf(r, s, i);
    NextOnward(r, s, step, i);
    if Receives(s, step, i) { ReceiveStays(r, s, step, i, [], 0); }
  }

  // ---------------------------------------------------------------- delivery

  /** State machine safety: no two entries ever put on commit channels at the same index differ,
      whichever nodes and whichever of their incarnations sent them; nor do the entries before. */
  lemma StateMachineSafety(r: Repairs, n: nat, steps: seq<Step>, d: Delivery, e: Delivery)
    requires Covered(r, steps)
    requires d in Exec(r, n, steps).delivered && e in Exec(r, n, steps).delivered
    requires d.entry.index == e.entry.index
    ensures d.entry.command == e.entry.command && d.prefix == e.prefix
  {
    var s := Exec(r, n, steps);
    Reached(r, n, steps);
    QuorumsOf(r, s);
    assert DeliveryOk(s.leads, s.acks, s.nodes, d) && DeliveryOk(s.leads, s.acks, s.nodes, e);
    SettledSame(s.leads, s.acks, n, d.prefix, d.entry.term, e.prefix, e.entry.term);
  }

  /** Exactly once and in order: the commit channel of a process carries entries 0, 1, 2, ... of
      its log up to lastApplied, and with no notification left nothing committed is unsent. */
  lemma DeliveredInOrder(r: Repairs, n: nat, steps: seq<Step>, i: nat)
    requires Covered(r, steps) && i < n
    ensures var s := Exec(r, n, steps); |s.nodes| == n
    ensures var nd := Exec(r, n, steps).nodes[i];
      && nd.lastApplied <= nd.commitIndex < |nd.log|
      && |nd.sent| == nd.lastApplied + 1
      && (forall k :: 0 <= k < |nd.sent| ==> nd.sent[k].index == k && nd.sent[k].command == nd.log[k].command)
      && (nd.ready == 0 ==> nd.lastApplied == nd.commitIndex)
  {
    Reached(r, n, steps);
    NodeOf(r, Exec(r, n, steps), i);
  }

  /** Two processes, at two moments of one run, have sent the same commands as far as both have
      sent any; they may be the same node before and after a restart. */
  lemma SameStream(r: Repairs, n: nat, steps: seq<Step>, more: seq<Step>, i: nat, j: nat, k: nat)
    requires Covered(r, steps + more) && i < n && j < n
    requires var s, s' := Exec(r, n, steps), Exec(r, n, steps + more);
      && |s.nodes| == n && |s'.nodes| == n
      && k < |s.nodes[i].sent| && k < |s'.nodes[j].sent|
    ensures Exec(r, n, steps).nodes[i].sent[k].command == Exec(r, n, steps + more).nodes[j].sent[k].command
  {
    hide Exec, Inv, Settled, LeadsOk, Extends;
    var s, s' := Exec(r, n, steps), Exec(r, n, steps + more);
    Continued(r, n, steps, more);
    Reached(r, n, steps);
    Reached(r, n, steps + more);
    NodeIn(r, s, i);
    NodeIn(r, s', j);
    var nd, nd' := s.nodes[i], s'.nodes[j];
    SentSettled(s.leads, s.acks, n, nd, k);
    SentSettled(s'.leads, s'.acks, n, nd', k);
    var a, b := nd.log[..k + 1], nd'.log[..k + 1];
    SettledKept(s.leads, s.acks, s'.leads, s'.acks, n, a, nd.term, nd.term);
    SettledSame(s'.leads, s'.acks, n, a, nd.term, b, nd'.term);
    assert a[k] == b[k];
  }

  /** Real-time order: once a node has sent entry k, whatever any leader appends from then on is
      applied behind entry k, or nowhere. */
  lemma RealTimeOrder(r: Repairs, n: nat, steps: seq<Step>, more: seq<Step>, later: seq<Step>,
                      i: nat, k: nat, j: nat, d: Delivery, p: nat)
    requires Covered(r, steps + more + later) && i < n && j < n
    requires var s, s' := Exec(r, n, steps), Exec(r, n, steps + more);
      && |s.nodes| == n && |s'.nodes| == n
      && k < |s.nodes[i].sent|
      && s'.nodes[j].role == Leader
      && |s'.nodes[j].log| <= p < |d.prefix| && d.prefix[p].term == s'.nodes[j].term
    requires d in Exec(r, n, steps + more + later).delivered
    ensures k < p
  {
    hide Exec, Inv, Settled, LeadsOk, Extends;
    if p <= k {
      var s, s', z := Exec(r, n, steps), Exec(r, n, steps + more), Exec(r, n, steps + more + later);
      Continued(r, n, steps + more, later);
      Continued(r, n, steps, more);
      Reached(r, n, steps);
      Reached(r, n, steps + more);
      Reached(r, n, steps + more + later);
      NodeIn(r, s, i);
      NodeIn(r, s', j);
      var nd := s.nodes[i];
      var a := nd.log[..p + 1];
      SentSettled(s.leads, s.acks, n, nd, p);
      ExtendsTrans(s.leads, s'.leads, z.leads);
      SettledKept(s.leads, s.acks, z.leads, z.acks, n, a, nd.term, nd.term);
      DeliveredPrefix(r, z, d, p);
      SettledSame(z.leads, z.acks, n, a, nd.term, d.prefix[..p + 1], d.entry.term);
      assert a[p] == d.prefix[..p + 1][p];
      assert AtRoot(s.leads, nd.log, p);
      GrownAgree(s.leads, s'.leads, nd.log[p].term, nd.log, p + 1);
      assert false;
    }
  }

  lemma DeliveredPrefix(r: Repairs, s: State, d: Delivery, p: nat)
    requires Inv(r, s) && d in s.delivered && p < |d.prefix|
    ensures Settled(s.leads, s.acks, |s.nodes|, d.prefix[..p + 1], d.entry.term)
    ensures LeadsOk(s.leads) && QuorumAcksOk(s.leads, s.acks, |s.nodes|)
  {
    hide NodeOk, Settled;
    QuorumsOf(r, s);
    assert DeliveryOk(s.leads, s.acks, s.nodes, d);
    SettledPrefix(s.leads, s.acks, |s.nodes|, d.prefix, d.entry.term, p + 1);
  }

  lemma SentSettled(leads: Leads, acks: set<Ack>, n: nat, nd: Node, k: nat)
    requires CommitOk(leads, acks, n, nd) && SentOk(nd) && k < |nd.sent|
    ensures Settled(leads, acks, n, nd.log[..k + 1], nd.term)
  {
    SettledPrefix(leads, acks, n, nd.log[..nd.commitIndex + 1], nd.term, k + 1);
    assert nd.log[..nd.commitIndex + 1][..k + 1] == nd.log[..k + 1];
  }

  // ---------------------------------------------------------------- the leader's books

  /** A leader that holds matchIndex k for a peer is right: the peer has reached the leader's term,
      and while it is in that term the two logs are the same on 0..k. */
  lemma MatchIndexSound(r: Repairs, n: nat, steps: seq<Step>, i: nat, p: nat)
    requires Covered(r, steps) && i < n && p in Peers(n, i)
    requires var s := Exec(r, n, steps); |s.nodes| == n && s.nodes[i].role == Leader
    ensures var s := Exec(r, n, steps); var nd, peer := s.nodes[i], s.nodes[p];
      && p in nd.matchIndex
      && (nd.matchIndex[p] >= 0 ==>
            && nd.term <= peer.term
            && (nd.term == peer.term ==> Agree(nd.log, peer.log, nd.matchIndex[p] + 1)))
  {
    hide Exec, Settled, Rooted;
    var s := Exec(r, n, steps);
    Reached(r, n, steps);
    NodeIn(r, s, i);
    var nd := s.nodes[i];
    assert PeerOk(s.acks, nd, p);
    var k := nd.matchIndex[p];
    if k >= 0 {
      assert Ack(p, nd.term, k) in AcksThrough(p, nd.term, k);
      assert AckOk(s, Ack(p, nd.term, k));
    }
  }

  /** The slices a leader takes of its log to build requests are in range. */
  lemma NextIndexInRange(r: Repairs, n: nat, steps: seq<Step>, i: nat, p: nat)
    requires Covered(r, steps) && i < n && p in Peers(n, i)
    requires var s := Exec(r, n, steps); |s.nodes| == n && s.nodes[i].role == Leader
    ensures var nd := Exec(r, n, steps).nodes[i];
      && p in nd.nextIndex && nd.nextIndex[p] <= |nd.log|
      && Snapshot(r, i, nd, nd.term, p).Some?
  {
    hide Exec, Inv, LeadsOk, Settled;
    var s := Exec(r, n, steps);
    Reached(r, n, steps);
    NodeOf(r, s, i);
    assert PeerOk(s.acks, s.nodes[i], p);
  }

  /** A follower never commits past what it matched with the sender: after a successful
      AppendEntries its log agrees with the request through LastSent, and the commit index it takes
      from the request lies there, so the clamp to the end of the log never bites. */
  lemma FollowerCommitMatched(r: Repairs, n: nat, steps: seq<Step>, call: AppendCall)
    requires Covered(r, steps) && call in Exec(r, n, steps).appendCalls
    ensures var s := Exec(r, n, steps); call.to < |s.nodes|
    ensures var s := Exec(r, n, steps); var a := call.args;
      var (nd', reply) := HandleAppend(r, s.nodes[call.to], a);
      reply.success ==>
        && a.leaderCommit <= LastSent(a) < |nd'.log|
        && nd'.log[a.prevLogIndex + 1..LastSent(a) + 1] == a.entries
        && s.nodes[call.to].commitIndex <= nd'.commitIndex
        && (nd'.commitIndex == s.nodes[call.to].commitIndex || nd'.commitIndex == a.leaderCommit)
  {
    hide Exec, HandleAppend, Inv, NodeOk, Settled;
    var s := Exec(r, n, steps);
    Reached(r, n, steps);
    ReceiverOf(r, s, call);
    TailMatched(r, s.leads, s.acks, n, s.nodes[call.to], call.to, call.args);
  }

  lemma TailMatched(r: Repairs, leads: Leads, acks: set<Ack>, n: nat, nd: Node, i: nat, a: AppendArgs)
    requires r.mergeAtStart && NodeOk(r, leads, acks, n, nd, i) && LeadsOk(leads) && QuorumAcksOk(leads, acks, n)
    requires CallOk(leads, acks, n, AppendCall(i, a))
    ensures var (nd', reply) := HandleAppend(r, nd, a);
      reply.success ==>
        && a.leaderCommit <= LastSent(a) < |nd'.log|
        && nd'.log[a.prevLogIndex + 1..LastSent(a) + 1] == a.entries
        && nd.commitIndex <= nd'.commitIndex
        && (nd'.commitIndex == nd.commitIndex || nd'.commitIndex == a.leaderCommit)
  {
    hide HandleAppend, NodeOk, LeadsOk, QuorumAcksOk, Settled;
    var (nd', reply) := HandleAppend(r, nd, a);
    HandleAppendOk(r, leads, acks, n, nd, i, a);
    if reply.success {
      AgreeSlice(nd'.log, leads[a.term].log, LastSent(a) + 1, a.prevLogIndex + 1);
      CommitTaken(r, leads, acks, n, nd, i, a);
    }
  }

  lemma CommitTaken(r: Repairs, leads: Leads, acks: set<Ack>, n: nat, nd: Node, i: nat, a: AppendArgs)
    requires r.mergeAtStart && NodeOk(r, leads, acks, n, nd, i) && LeadsOk(leads) && QuorumAcksOk(leads, acks, n)
    requires CallOk(leads, acks, n, AppendCall(i, a)) && HandleAppend(r, nd, a).1.success
    ensures HandleAppend(r, nd, a).0.commitIndex
      == if a.leaderCommit > nd.commitIndex then a.leaderCommit else nd.commitIndex
  {
    hide NodeOk, LeadsOk, QuorumAcksOk, Settled, Merge, Hint;
    YieldOk(r, leads, acks, n, nd, i, a.term);
    MergedOk(r, leads, acks, n, Yield(r, nd, a.term), i, a);
  }
}

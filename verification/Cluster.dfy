/** The whole cluster as a step system. Messages are never removed from their sets, so they may be
    lost, delayed, reordered and delivered again; every locked region of the code is one step. */
module Cluster {
  import opened RaftTypes
  import opened NodeSteps
  import opened Commands

  /** One goroutine of an election calling RequestVote on a peer, and the answer to the call. */
  datatype VoteCall = VoteCall(election: nat, to: nat, args: VoteArgs)
  datatype VoteAnswer = VoteAnswer(call: VoteCall, reply: VoteReply)

  /** One goroutine of a heartbeat calling AppendEntries on a peer, and the answer to the call. */
  datatype AppendCall = AppendCall(to: nat, args: AppendArgs)
  datatype AppendAnswer = AppendAnswer(call: AppendCall, reply: AppendReply)

  /** One call of startElection: its shared variables, the peers whose goroutine is still running
      and (history) the peers whose vote was counted. */
  datatype Election = Election(id: nat, tally: Tally, pending: set<nat>, granted: set<nat>)

  /** A goroutine started by leaderSendHeartbeats while `id` was leader of `term`. */
  datatype Round = Round(id: nat, term: nat, peer: nat)

  // ---------------------------------------------------------------- history

  /** A vote given in a term, with the log position its request claimed. */
  datatype Grant = Grant(voter: nat, term: nat, candidate: nat, lastIndex: Index, lastTerm: int)

  /** A leadership: the length of the log and the voters at the election, and the leader's log. */
  datatype Lead = Lead(id: nat, base: nat, log: Log, quorum: set<nat>)

  type Leads = map<nat, Lead>

  /** `node` held, in `term`, the entry at `index` of the log of that term's leader. */
  datatype Ack = Ack(node: nat, term: nat, index: nat)

  datatype Win = Win(id: nat, term: nat)

  /** An entry put on a node's commit channel, with the log up to that entry. */
  datatype Delivery = Delivery(node: nat, prefix: Log, entry: CommitEntry)

  datatype State = State(
    nodes: seq<Node>,
    elections: seq<Election>,
    rounds: set<Round>,
    voteCalls: set<VoteCall>,
    voteAnswers: set<VoteAnswer>,
    appendCalls: set<AppendCall>,
    appendAnswers: set<AppendAnswer>,
    // history, read by no step
    grants: set<Grant>,
    leads: Leads,
    acks: set<Ack>,
    wins: set<Win>,
    delivered: set<Delivery>)

  datatype Step =
    | Timeout(id: nat)
    | SendVote(election: nat, peer: nat)
    | ReceiveVote(voteCall: VoteCall)
    | VoteReturn(voteAnswer: VoteAnswer)
    | VoteFail(election: nat, peer: nat)
    | ClientSubmit(id: nat, command: Command)
    | Heartbeat(id: nat)
    | SendAppend(round: Round)
    | ReceiveAppend(appendCall: AppendCall)
    | AppendReturn(appendAnswer: AppendAnswer)
    | DeliverReady(id: nat)
    | KillNode(id: nat)
    | RestartNode(id: nat)

  const FRESH_NODE := Node(0, -1, [], -1, -1, Follower, map[], map[], 0, [], Blank)

  function Init(n: nat): State {
    State(seq(n, _ => FRESH_NODE), [], {}, {}, {}, {}, {}, {}, map[], {}, {}, {})
  }

  function PeersOf(s: State, id: nat): set<nat> {
    Peers(|s.nodes|, id)
  }

  // ---------------------------------------------------------------- steps

  function DoTimeout(r: Repairs, s: State, id: nat): (s': State)
    ensures |s'.nodes| == |s.nodes|
  {
    if id < |s.nodes| && s.nodes[id].role in {Follower, Candidate} then
      var nd := StartElection(r, id, s.nodes[id]);
      var peers := PeersOf(s, id);
      s.(nodes := s.nodes[id := nd],
         elections := s.elections + [Election(id, Tally(nd.term, 0, |peers|), peers, {})],
         grants := s.grants + {Grant(id, nd.term, id, LastIndex(nd.log), LastTerm(nd.log))})
    else s
  }

  function DoSendVote(s: State, election: nat, peer: nat): (s': State)
    ensures |s'.nodes| == |s.nodes|
  {
    if election < |s.elections| && peer in s.elections[election].pending
      && s.elections[election].id < |s.nodes| then
      var el := s.elections[election];
      var log := s.nodes[el.id].log;
      s.(voteCalls := s.voteCalls
        + {VoteCall(election, peer, VoteArgs(el.tally.term, el.id, LastIndex(log), LastTerm(log)))})
    else s
  }

  function DoReceiveVote(r: Repairs, s: State, call: VoteCall): (s': State)
    ensures |s'.nodes| == |s.nodes|
  {
    if call in s.voteCalls && call.to < |s.nodes| then
      var a := call.args;
      var (nd, reply) := HandleVote(r, s.nodes[call.to], a);
      s.(nodes := s.nodes[call.to := nd],
         voteAnswers := s.voteAnswers + {VoteAnswer(call, reply)},
         grants := s.grants + if reply.voteGranted
           then {Grant(call.to, a.term, a.candidateId, a.lastLogIndex, a.lastLogTerm)} else {})
    else s
  }

  function DoVoteReturn(r: Repairs, s: State, election: nat, peer: nat, reply: Option<VoteReply>): (s': State)
    ensures |s'.nodes| == |s.nodes|
  {
    if election < |s.elections| && peer in s.elections[election].pending
      && s.elections[election].id < |s.nodes| then
      var el := s.elections[election];
      var id := el.id;
      var nd := s.nodes[id];
      var peers := PeersOf(s, id);
      var granted := el.granted + if Counts(r, nd, el.tally, reply) then {peer} else {};
      var nd' := OnVoteReply(r, peers, nd, el.tally, reply);
      var el' := el.(tally := TallyAfter(r, nd, el.tally, reply), pending := el.pending - {peer}, granted := granted);
      var s' := s.(nodes := s.nodes[id := nd'], elections := s.elections[election := el']);
      if Wins(r, peers, nd, el.tally, reply) then
        s'.(leads := s.leads[nd'.term := Lead(id, |nd'.log|, nd'.log, granted + {id})],
            wins := s.wins + {Win(id, nd'.term)})
      else s'
    else s
  }

  function DoSubmit(s: State, id: nat, command: Command): (s': State)
    ensures |s'.nodes| == |s.nodes|
  {
    if id < |s.nodes| then
      var nd := s.nodes[id];
      var (nd', index) := Submit(nd, command);
      var s' := s.(nodes := s.nodes[id := nd']);
      if index >= 0 && nd.term in s.leads then
        s'.(leads := s.leads[nd.term := s.leads[nd.term].(log := nd'.log)],
            acks := s.acks + {Ack(id, nd.term, |nd.log|)})
      else s'
    else s
  }

  function DoHeartbeat(s: State, id: nat): (s': State)
    ensures |s'.nodes| == |s.nodes|
  {
    if id < |s.nodes| && s.nodes[id].role == Leader
    then s.(rounds := s.rounds + set p | p in PeersOf(s, id) :: Round(id, s.nodes[id].term, p))
    else s
  }

  function DoSendAppend(r: Repairs, s: State, round: Round): (s': State)
    ensures |s'.nodes| == |s.nodes|
  {
    if round in s.rounds && round.id < |s.nodes| then
      match Snapshot(r, round.id, s.nodes[round.id], round.term, round.peer)
      case None => s
      case Some(args) => s.(appendCalls := s.appendCalls + {AppendCall(round.peer, args)})
    else s
  }

  function AcksThrough(node: nat, term: nat, index: Index): (acks: set<Ack>)
    ensures forall a :: a in acks <==> a.node == node && a.term == term && a.index <= index
  {
    if index < 0 then {} else AcksThrough(node, term, index - 1) + {Ack(node, term, index)}
  }

  function LastSent(a: AppendArgs): Index {
    a.prevLogIndex + |a.entries|
  }

  function DoReceiveAppend(r: Repairs, s: State, call: AppendCall): (s': State)
    ensures |s'.nodes| == |s.nodes|
  {
    if call in s.appendCalls && call.to < |s.nodes| then
      var (nd, reply) := HandleAppend(r, s.nodes[call.to], call.args);
      s.(nodes := s.nodes[call.to := nd],
         appendAnswers := s.appendAnswers + {AppendAnswer(call, reply)},
         acks := s.acks + if reply.success
           then AcksThrough(call.to, call.args.term, LastSent(call.args)) else {})
    else s
  }

  function DoAppendReturn(r: Repairs, s: State, answer: AppendAnswer): (s': State)
    ensures |s'.nodes| == |s.nodes|
  {
    var id := answer.call.args.leaderId;
    if answer in s.appendAnswers && id < |s.nodes| then
      var nd := OnAppendReply(r, PeersOf(s, id), s.nodes[id], answer.call.to, answer.call.args, answer.reply);
      s.(nodes := s.nodes[id := nd])
    else s
  }

  function Deliveries(id: nat, log: Log, out: seq<CommitEntry>): set<Delivery>
    requires forall e :: e in out ==> e.index < |log|
  {
    set e | e in out :: Delivery(id, log[..e.index + 1], e)
  }

  function DoDeliver(s: State, id: nat): (s': State)
    ensures |s'.nodes| == |s.nodes|
  {
    if id < |s.nodes| then
      var (nd, out) := Deliver(s.nodes[id]);
      s.(nodes := s.nodes[id := nd], delivered := s.delivered + Deliveries(id, nd.log, out))
    else s
  }

  function DoKill(s: State, id: nat): (s': State)
    ensures |s'.nodes| == |s.nodes|
  {
    if id < |s.nodes| then s.(nodes := s.nodes[id := Kill(s.nodes[id])]) else s
  }

  function Halt(elections: seq<Election>, id: nat): (es: seq<Election>)
    ensures |es| == |elections|
    ensures forall e :: 0 <= e < |es| ==>
      es[e] == if elections[e].id == id then elections[e].(pending := {}) else elections[e]
  {
    seq(|elections|, e requires 0 <= e < |elections| =>
      if elections[e].id == id then elections[e].(pending := {}) else elections[e])
  }

  /** A crash at any moment followed by a start from storage; the old goroutines are gone. */
  function DoRestart(s: State, id: nat): (s': State)
    ensures |s'.nodes| == |s.nodes|
  {
    if id < |s.nodes| then
      s.(nodes := s.nodes[id := Restart(s.nodes[id])],
         elections := Halt(s.elections, id),
         rounds := set x | x in s.rounds && x.id != id)
    else s
  }

  /** A step that is not enabled leaves the state as it is. */
  function Next(r: Repairs, s: State, step: Step): (s': State)
    ensures |s'.nodes| == |s.nodes|
  {
    match step
    case Timeout(id) => DoTimeout(r, s, id)
    case SendVote(election, peer) => DoSendVote(s, election, peer)
    case ReceiveVote(call) => DoReceiveVote(r, s, call)
    case VoteReturn(answer) =>
      if answer in s.voteAnswers
      then DoVoteReturn(r, s, answer.call.election, answer.call.to, Some(answer.reply)) else s
    case VoteFail(election, peer) => DoVoteReturn(r, s, election, peer, None)
    case ClientSubmit(id, command) => DoSubmit(s, id, command)
    case Heartbeat(id) => DoHeartbeat(s, id)
    case SendAppend(round) => DoSendAppend(r, s, round)
    case ReceiveAppend(call) => DoReceiveAppend(r, s, call)
    case AppendReturn(answer) => DoAppendReturn(r, s, answer)
    case DeliverReady(id) => DoDeliver(s, id)
    case KillNode(id) => DoKill(s, id)
    case RestartNode(id) => DoRestart(s, id)
  }

  /** The state after a run: any sequence of steps from the start of a cluster of n nodes. */
  function Exec(r: Repairs, n: nat, steps: seq<Step>): State {
    if steps == [] then Init(n)
    else Next(r, Exec(r, n, steps[..|steps| - 1]), steps[|steps| - 1])
  }

  predicate CrashFree(steps: seq<Step>) {
    forall k :: 0 <= k < |steps| ==> !steps[k].RestartNode?
  }
}

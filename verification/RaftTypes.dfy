/** State, RPC arguments and RPC replies of one Raft node (internal/raft). */
module RaftTypes {
  import opened Commands

  datatype LogEntry = LogEntry(command: Command, term: nat)

  /** What `commitChanSender` puts on the commit channel. */
  datatype CommitEntry = CommitEntry(command: Command, index: nat, term: nat)

  type Log = seq<LogEntry>

  /** A log index, or -1 for "before the log". */
  type Index = i: int | -1 <= i witness -1

  datatype Role = Follower | Candidate | Leader | Dead

  /** The three storage keys written by `persistToStorage`; Blank until the first write. */
  datatype Disk = Blank | Saved(term: nat, votedFor: int, log: Log)

  /** `ready` counts the notifications waiting on newCommitReadyChan; `sent` is everything this
      process has put on commitChan so far. */
  datatype Node = Node(
    term: nat,
    votedFor: int,
    log: Log,
    commitIndex: Index,
    lastApplied: Index,
    role: Role,
    nextIndex: map<nat, nat>,
    matchIndex: map<nat, Index>,
    ready: nat,
    sent: seq<CommitEntry>,
    disk: Disk)

  datatype VoteArgs = VoteArgs(term: nat, candidateId: nat, lastLogIndex: Index, lastLogTerm: int)

  datatype VoteReply = VoteReply(term: nat, voteGranted: bool)

  datatype AppendArgs = AppendArgs(
    term: nat,
    leaderId: nat,
    prevLogIndex: Index,
    prevLogTerm: int,
    entries: Log,
    leaderCommit: Index)

  datatype AppendReply = AppendReply(term: nat, success: bool, conflictIndex: nat, conflictTerm: int)

  /** The variables shared by the goroutines of one `startElection` call. */
  datatype Tally = Tally(term: nat, votesReceived: nat, repliesNeeded: int)

  /** Each flag switches on one repair of the code; the code as written has none of them.
      - sameElection: a vote reply counts only while still in the term of its election
        (chunab.go:120-133, 147-149);
      - mergeAtStart: PrevLogIndex -1 always matches and is merged (heartbeat.go:53-59);
      - hintOnMismatch: a mismatch in the current term returns conflict hints (heartbeat.go:86-103);
      - freshSnapshot: a heartbeat is built only while still leader of its term (heartbeat.go:116-138);
      - sameTermReply: an append reply counts only in the term of its request (heartbeat.go:150);
      - persistAlways: elections and step-downs write to storage (chunab.go:70-74, raft.go:180-193). */
  datatype Repairs = Repairs(
    sameElection: bool,
    mergeAtStart: bool,
    hintOnMismatch: bool,
    freshSnapshot: bool,
    sameTermReply: bool,
    persistAlways: bool)

  /** The repairs that the safety of a crash-free run rests on. */
  predicate Sound(r: Repairs) {
    r.sameElection && r.mergeAtStart && r.freshSnapshot && r.sameTermReply
  }

  /** The nodes of a cluster of size n are numbered from 0. */
  function Ids(n: nat): (ids: set<nat>)
    ensures forall p: nat :: p in ids <==> p < n
    ensures |ids| == n
  {
    if n == 0 then {} else Ids(n - 1) + {n - 1}
  }

  function Peers(n: nat, id: nat): (peers: set<nat>)
    ensures forall p: nat :: p in peers <==> p < n && p != id
    ensures id < n ==> |peers| == n - 1
  {
    Ids(n) - {id}
  }

  /** Reading a Go map: a missing key yields the zero value. */
  function Lookup<T>(m: map<nat, T>, key: nat, zero: T): T {
    if key in m then m[key] else zero
  }

  function LastIndex(log: Log): Index {
    |log| - 1
  }

  function LastTerm(log: Log): int {
    if |log| > 0 then log[|log| - 1].term else -1
  }
}

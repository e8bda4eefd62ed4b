/** The Raft object (internal/raft): its methods update its fields in place and are proved equal to
    the functions of NodeSteps. Each method is one region of code run under the mutex. */
module RaftServer {
  import opened RaftTypes
  import opened Commands
  import opened Storage
  import opened NodeMeanings
  import Spec = NodeSteps

  /** votesReceived and repliesNeeded, shared by the goroutines of one election. */
  class ElectionRun {
    const term: nat
    var votesReceived: nat
    var repliesNeeded: int

    constructor (term: nat, repliesNeeded: int)
      ensures Tally() == RaftTypes.Tally(term, 0, repliesNeeded)
    {
      this.term := term;
      this.votesReceived := 0;
      this.repliesNeeded := repliesNeeded;
    }

    ghost function Tally(): RaftTypes.Tally
      reads this
    {
      RaftTypes.Tally(term, votesReceived, repliesNeeded)
    }
  }

  class Raft {
    const id: nat
    const peerIds: seq<nat>
    const storage: MapStorage
    const fix: Repairs

    // persistent state
    var currentTerm: nat
    var votedFor: int
    var log: Log

    // volatile state
    var commitIndex: Index
    var lastApplied: Index
    var state: Role
    var nextIndex: map<nat, nat>
    var matchIndex: map<nat, Index>

    // the notifications waiting on newCommitReadyChan, and what went out on commitChan
    var newCommitReady: nat
    var commitChan: seq<CommitEntry>

    /** newCommitReadyChan and triggerAEChan have been closed. */
    var channelsClosed: bool

    /** log.Fatal ended the process. */
    var fatal: bool

    ghost predicate Valid()
      reads this, storage
    {
      && (forall j, k :: 0 <= j < k < |peerIds| ==> peerIds[j] != peerIds[k])
      && id !in peerIds
      && (storage.m == map[] || Complete(storage.m))
      && (state == Dead ==> channelsClosed)
      && !fatal
    }

    ghost function Abs(): Node
      reads this, storage
    {
      Node(currentTerm, votedFor, log, commitIndex, lastApplied, state, nextIndex, matchIndex,
           newCommitReady, commitChan, DiskOf(storage.m))
    }

    ghost function PeerSet(): set<nat> {
      set p | p in peerIds
    }

    // -------------------------------------------------------------- construction, storage

    /** Make: a fresh node, or one restored from the storage of an earlier process. */
    constructor Make(id: nat, peerIds: seq<nat>, storage: MapStorage, fix: Repairs)
      requires forall j, k :: 0 <= j < k < |peerIds| ==> peerIds[j] != peerIds[k]
      requires id !in peerIds
      ensures this.id == id && this.peerIds == peerIds && this.storage == storage && this.fix == fix
      ensures storage.m == old(storage.m)
      ensures fatal <==> storage.m != map[] && !Complete(storage.m)
      ensures !fatal ==> Valid() && forall nd: Node ::
        nd.disk == DiskOf(storage.m) ==> Abs() == Spec.Restart(nd)
    {
      this.id := id;
      this.peerIds := peerIds;
      this.storage := storage;
      this.fix := fix;
      state := Follower;
      currentTerm := 0;
      votedFor := -1;
      log := [];
      commitIndex := -1;
      lastApplied := -1;
      nextIndex := map[];
      matchIndex := map[];
      newCommitReady := 0;
      commitChan := [];
      channelsClosed := false;
      fatal := false;
      new;
      var found := storage.HasData();
      if found {
        RestoreFromStorage();
      }
    }

    method RestoreFromStorage()
      modifies this`currentTerm, this`votedFor, this`log, this`fatal
      ensures fatal <==> !Complete(storage.m)
      ensures !fatal ==> DiskOf(storage.m) == Saved(currentTerm, votedFor, log)
    {
      fatal := false;
      var termData := storage.Get(TERM_KEY);
      if termData.None? || !termData.value.GobInt? || termData.value.n < 0 { fatal := true; return; }
      currentTerm := termData.value.n;
      var votedData := storage.Get(VOTE_KEY);
      if votedData.None? || !votedData.value.GobInt? { fatal := true; return; }
      votedFor := votedData.value.n;
      var logData := storage.Get(LOG_KEY);
      if logData.None? || !logData.value.GobLog? { fatal := true; return; }
      log := logData.value.log;
    }

    method PersistToStorage()
      requires Valid()
      modifies storage
      ensures Valid() && Complete(storage.m)
      ensures Abs() == Spec.Persist(old(Abs()))
    {
      storage.Set(TERM_KEY, GobInt(currentTerm));
      storage.Set(VOTE_KEY, GobInt(votedFor));
      storage.Set(LOG_KEY, GobLog(log));
    }

    // -------------------------------------------------------------- role changes

    method BecomeFollower(term: nat)
      requires Valid()
      modifies this, storage
      ensures Valid() && Abs() == Spec.BecomeFollower(fix, old(Abs()), term)
      ensures SteppedDown(fix, old(Abs()), Abs(), term)
    {
      state := Follower;
      currentTerm := term;
      votedFor := -1;
      if fix.persistAlways {
        PersistToStorage();
      }
    }

    method StartLeader()
      requires Valid()
      modifies this
      ensures Valid() && Abs() == Spec.StartLeader(old(Abs()), PeerSet())
    {
      hide Spec.Fill, PutAll;
      state := Leader;
      FillBooks(|log|, -1);
      PutAllIsUpdate<nat>(old(nextIndex), peerIds, PeerSet(), |log|);
      PutAllIsUpdate<Index>(old(matchIndex), peerIds, PeerSet(), -1);
    }

    /** The loop of startLeader over the peers. */
    method FillBooks(next: nat, matched: Index)
      modifies this`nextIndex, this`matchIndex
      ensures nextIndex == PutAll<nat>(old(nextIndex), peerIds, next)
      ensures matchIndex == PutAll<Index>(old(matchIndex), peerIds, matched)
    {
      var k := 0;
      while k < |peerIds|
        invariant 0 <= k <= |peerIds|
        invariant nextIndex == PutAll<nat>(old(nextIndex), peerIds[..k], next)
        invariant matchIndex == PutAll<Index>(old(matchIndex), peerIds[..k], matched)
      {
        assert peerIds[..k + 1][..k] == peerIds[..k];
        nextIndex := nextIndex[peerIds[k] := next];
        matchIndex := matchIndex[peerIds[k] := matched];
        k := k + 1;
      }
      assert peerIds[..k] == peerIds;
    }

    /** Closes both notification channels, which panics if an earlier Kill has closed them. */
    method Kill() returns (panics: bool)
      requires Valid()
      modifies this`state, this`channelsClosed
      ensures Valid() && Abs() == Spec.Kill(old(Abs())) && channelsClosed
      ensures panics <==> old(state) != Dead && old(channelsClosed)
    {
      if state == Dead {
        return false;
      }
      state := Dead;
      panics := channelsClosed;
      channelsClosed := true;
    }

    // -------------------------------------------------------------- elections

    method LastLogIndexAndTerm() returns (index: Index, term: int)
      ensures index == LastIndex(log) && term == LastTerm(log)
    {
      if |log| > 0 {
        index := |log| - 1;
        term := log[index].term;
      } else {
        index, term := -1, -1;
      }
    }

    method StartElection() returns (run: ElectionRun)
      requires Valid()
      modifies this, storage
      ensures Valid() && fresh(run)
      ensures Abs() == Spec.StartElection(fix, id, old(Abs()))
      ensures run.Tally() == Tally(currentTerm, 0, |peerIds|)
    {
      state := Candidate;
      currentTerm := currentTerm + 1;
      votedFor := id;
      if fix.persistAlways {
        PersistToStorage();
      }
      run := new ElectionRun(currentTerm, |peerIds|);
    }

    method RequestVote(args: VoteArgs) returns (reply: VoteReply)
      requires Valid()
      modifies this, storage
      ensures Valid()
      ensures (Abs(), reply) == Spec.HandleVote(fix, old(Abs()), args)
      ensures old(state) != Dead ==>
        (reply.voteGranted <==>
          && args.term >= old(currentTerm)
          && (args.term > old(currentTerm) || old(votedFor) == -1 || old(votedFor) == args.candidateId)
          && NoOlder(args.lastLogTerm, args.lastLogIndex, old(log)))
    {
      if state != Dead { VoteMeaning(fix, Abs(), args); }
      if state == Dead {
        return VoteReply(0, false);
      }
      var localLastIndex, localLastTerm := LastLogIndexAndTerm();
      if args.term > currentTerm {
        BecomeFollower(args.term);
      }
      assert Abs() == Spec.SeeTerm(fix, old(Abs()), args.term);
      hide Spec.SeeTerm;
      var voteGranted := false;
      if currentTerm == args.term
        && (votedFor == -1 || votedFor == args.candidateId)
        && (args.lastLogTerm > localLastTerm
            || (args.lastLogTerm == localLastTerm && args.lastLogIndex >= localLastIndex)) {
        voteGranted := true;
        votedFor := args.candidateId;
      }
      reply := VoteReply(currentTerm, voteGranted);
      PersistToStorage();
    }

    /** The end of one vote goroutine: a reply, or None when the call failed. */
    method OnVoteReply(run: ElectionRun, reply: Option<VoteReply>)
      requires Valid()
      modifies this, storage, run
      ensures Valid()
      ensures Abs() == Spec.OnVoteReply(fix, PeerSet(), old(Abs()), old(run.Tally()), reply)
      ensures run.Tally() == Spec.TallyAfter(fix, old(Abs()), old(run.Tally()), reply)
    {
      hide Spec.StartLeader, Spec.BecomeFollower, DiskOf, Complete, PeerSet;
      PeerCount();
      run.repliesNeeded := run.repliesNeeded - 1;
      if reply.Some? && state == Candidate && (fix.sameElection ==> currentTerm == run.term) {
        if reply.value.term > run.term {
          BecomeFollower(reply.value.term);
        } else if reply.value.term == run.term && reply.value.voteGranted {
          run.votesReceived := run.votesReceived + 1;
        }
      }
      if run.repliesNeeded == 0 {
        run.votesReceived := run.votesReceived + 1;
        if state == Candidate && (fix.sameElection ==> currentTerm == run.term) {
          if run.votesReceived * 2 > |peerIds| + 1 {
            StartLeader();
          }
        }
      }
    }

    lemma PeerCount()
      requires Valid()
      ensures |PeerSet()| == |peerIds|
    {
      DistinctCount(peerIds);
      assert PeerSet() == ToSet(peerIds);
    }

    // -------------------------------------------------------------- replication

    method Submit(command: Command) returns (index: int)
      requires Valid()
      modifies this, storage
      ensures Valid()
      ensures (Abs(), index) == Spec.Submit(old(Abs()), command)
      ensures old(state) == Leader ==>
        index == |old(log)| < |log| && log == old(log) + [LogEntry(command, old(currentTerm))] && currentTerm == old(currentTerm)
      ensures old(state) != Leader ==> index == -1 && Abs() == old(Abs())
    {
      if state != Leader {
        return -1;
      }
      index := |log|;
      log := log + [LogEntry(command, currentTerm)];
      PersistToStorage();
    }

    /** The offset at which the entries of a request first differ from the log, by terms. */
    method FindOffset(at: nat, entries: Log) returns (offset: nat)
      requires at <= |log|
      ensures offset == Spec.MatchLen(log, at, entries)
    {
      offset := 0;
      while at + offset < |log| && offset < |entries| && log[at + offset].term == entries[offset].term
        invariant offset <= |entries| && at + offset <= |log|
        invariant Spec.MatchLen(log, at, entries) == offset + Spec.MatchLen(log, at + offset, entries[offset..])
      {
        assert entries[offset..][1..] == entries[offset + 1..];
        offset := offset + 1;
      }
    }

    /** The start of the run of equal terms that ends at prev. */
    method FindRunStart(prev: nat) returns (start: nat)
      requires prev < |log|
      ensures start == Spec.RunStart(log, prev)
    {
      var conflictTerm := log[prev].term;
      var i := prev - 1;
      while i >= 0 && log[i].term == conflictTerm
        invariant -1 <= i < prev
        invariant log[i + 1].term == conflictTerm
        invariant Spec.RunStart(log, prev) == Spec.RunStart(log, i + 1)
      {
        i := i - 1;
      }
      start := i + 1;
    }

    method AppendEntries(args: AppendArgs) returns (reply: AppendReply)
      requires Valid()
      modifies this, storage
      ensures Valid()
      ensures (Abs(), reply) == Spec.HandleAppend(fix, old(Abs()), args)
      ensures old(state) != Dead && args.term >= old(currentTerm) ==>
        && state == Follower && currentTerm == reply.term == args.term
        && votedFor == (if args.term == old(currentTerm) && old(state) == Follower then old(votedFor) else -1)
        && (reply.success <==> Fitting(fix, old(log), args))
    {
      if state != Dead && args.term >= currentTerm { SuccessIffFits(fix, Abs(), args); }
      hide Spec.AppendCurrent, Spec.AppendStale;
      if state == Dead {
        return AppendReply(0, false, 0, 0);
      }
      if args.term > currentTerm {
        BecomeFollower(args.term);
      }
      if args.term == currentTerm {
        if state != Follower {
          BecomeFollower(args.term);
        }
        reply := AppendCurrent(args);
      } else {
        reply := AppendStale(args);
      }
    }

    /** The branch of AppendEntries for a request of the current term. */
    method AppendCurrent(args: AppendArgs) returns (reply: AppendReply)
      requires Valid()
      modifies this, storage
      ensures Valid()
      ensures (Abs(), reply) == Spec.AppendCurrent(fix, old(Abs()), args)
    {
      var success: bool, conflictIndex: nat, conflictTerm: int := false, 0, 0;
      if args.prevLogIndex == -1 && !fix.mergeAtStart {
        if |log| == 0 {
          success := true;
        } else {
          conflictIndex, conflictTerm := 0, log[0].term;
        }
      } else if args.prevLogIndex == -1
        || (args.prevLogIndex < |log| && args.prevLogTerm == log[args.prevLogIndex].term) {
        success := true;
        MergeAndCommit(args);
      } else if fix.hintOnMismatch {
        if args.prevLogIndex >= |log| {
          conflictIndex, conflictTerm := |log|, -1;
        } else {
          conflictIndex := FindRunStart(args.prevLogIndex);
          conflictTerm := log[args.prevLogIndex].term;
        }
      }
      reply := AppendReply(currentTerm, success, conflictIndex, conflictTerm);
      PersistToStorage();
    }

    /** The branch of AppendEntries for a request of an older term. */
    method AppendStale(args: AppendArgs) returns (reply: AppendReply)
      requires Valid()
      modifies storage
      ensures Valid()
      ensures (Abs(), reply) == Spec.AppendStale(old(Abs()), args)
    {
      var conflictIndex: nat, conflictTerm: int;
      if args.prevLogIndex >= |log| {
        conflictIndex, conflictTerm := |log|, -1;
      } else if args.prevLogIndex < 0 {
        return AppendReply(currentTerm, false, |log|, 0);
      } else {
        conflictIndex := FindRunStart(args.prevLogIndex);
        conflictTerm := log[args.prevLogIndex].term;
      }
      reply := AppendReply(currentTerm, false, conflictIndex, conflictTerm);
      PersistToStorage();
    }

    method MergeAndCommit(args: AppendArgs)
      requires Valid() && args.prevLogIndex < |log|
      modifies this`log, this`commitIndex, this`newCommitReady
      ensures Valid()
      ensures Abs() == Spec.AdvanceCommit(
        old(Abs()).(log := Spec.Merge(old(log), args.prevLogIndex + 1, args.entries)), args.leaderCommit)
    {
      hide DiskOf, Complete, Spec.Merge;
      MergeEntries(args.prevLogIndex + 1, args.entries);
      if args.leaderCommit > commitIndex {
        commitIndex := Spec.Min(args.leaderCommit, |log| - 1);
        newCommitReady := newCommitReady + 1;
      }
    }

    method MergeEntries(at: nat, entries: Log)
      requires at <= |log|
      modifies this`log
      ensures log == Spec.Merge(old(log), at, entries) && |log| >= at
    {
      hide Spec.MatchLen;
      var offset := FindOffset(at, entries);
      var insertIndex := at + offset;
      if offset < |entries| {
        log := log[..insertIndex] + entries[offset..];
      }
    }

    /** The request of one heartbeat goroutine. */
    method BuildAppend(term: nat, peer: nat) returns (args: Option<AppendArgs>)
      ensures args == Spec.Snapshot(fix, id, Abs(), term, peer)
    {
      if fix.freshSnapshot && !(state == Leader && currentTerm == term) {
        return None;
      }
      var next := if peer in nextIndex then nextIndex[peer] else 0;
      if next > |log| {
        return None;
      }
      var prevLogTerm: int := -1;
      if next > 0 {
        prevLogTerm := log[next - 1].term;
      }
      args := Some(AppendArgs(term, id, next - 1, prevLogTerm, log[next..], commitIndex));
    }

    /** The end of one heartbeat goroutine whose call succeeded. */
    method OnAppendReply(peer: nat, args: AppendArgs, reply: AppendReply)
      requires Valid()
      modifies this, storage
      ensures Valid()
      ensures Abs() == Spec.OnAppendReply(fix, PeerSet(), old(Abs()), peer, args, reply)
      ensures reply.term > old(currentTerm) ==> SteppedDown(fix, old(Abs()), Abs(), reply.term)
    {
      hide DiskOf, Complete, Spec.BecomeFollower, Spec.ScanCommit, Spec.LastOfTerm, PeerSet;
      if reply.term > currentTerm {
        BecomeFollower(reply.term);
        return;
      }
      if state == Leader && args.term == reply.term && (fix.sameTermReply ==> currentTerm == args.term) {
        if reply.success {
          var next: int := args.prevLogIndex + 1 + |args.entries|;
          nextIndex := nextIndex[peer := next];
          matchIndex := matchIndex[peer := next - 1];
          ScanCommit();
        } else {
          var next := reply.conflictIndex;
          if reply.conflictTerm >= 0 {
            var lastIndexOfTerm := FindLastOfTerm(reply.conflictTerm);
            if lastIndexOfTerm >= 0 {
              next := lastIndexOfTerm + 1;
            }
          }
          nextIndex := nextIndex[peer := next];
        }
      }
    }

    method CountHolders(i: nat) returns (matchCount: nat)
      requires Valid()
      ensures matchCount == 1 + |Spec.Holders(PeerSet(), matchIndex, i)|
    {
      matchCount := 1;
      var k := 0;
      while k < |peerIds|
        invariant 0 <= k <= |peerIds|
        invariant matchCount == 1 + |HoldersIn(peerIds[..k], matchIndex, i)|
      {
        HoldersStep(peerIds, k, matchIndex, i);
        if (if peerIds[k] in matchIndex then matchIndex[peerIds[k]] else 0) >= i {
          matchCount := matchCount + 1;
        }
        k := k + 1;
      }
      assert peerIds[..k] == peerIds;
      assert Spec.Holders(PeerSet(), matchIndex, i) == HoldersIn(peerIds, matchIndex, i);
    }

    method ScanCommit()
      requires Valid()
      modifies this`commitIndex, this`newCommitReady
      ensures Valid()
      ensures Abs() == Spec.ScanCommit(PeerSet(), old(Abs()))
    {
      hide Spec.Holders;
      PeerCount();
      ghost var nd := Abs();
      var oldCommitIndex := commitIndex;
      var i := commitIndex + 1;
      while i < |log|
        invariant oldCommitIndex + 1 <= i
        invariant i <= |log| || i == oldCommitIndex + 1
        invariant commitIndex == if i <= |log| then Spec.Scan(PeerSet(), nd, i) else oldCommitIndex
        invariant Abs() == nd.(commitIndex := commitIndex)
        invariant Valid()
      {
        if log[i].term == currentTerm {
          var matchCount := CountHolders(i);
          if matchCount * 2 > |peerIds| + 1 {
            commitIndex := i;
          }
        }
        i := i + 1;
      }
      assert commitIndex == Spec.Scan(PeerSet(), nd, |log|);
      if commitIndex != oldCommitIndex {
        newCommitReady := newCommitReady + 1;
      }
    }

    method FindLastOfTerm(term: int) returns (last: Index)
      ensures last == Spec.LastOfTerm(log, |log|, term)
    {
      last := -1;
      var i := |log| - 1;
      while i >= 0
        invariant -1 <= i < |log|
        invariant Spec.LastOfTerm(log, |log|, term) == Spec.LastOfTerm(log, i + 1, term)
      {
        if log[i].term == term {
          return i;
        }
        i := i - 1;
      }
    }

    // -------------------------------------------------------------- delivery

    /** One notification taken by commitChanSender. */
    method DeliverReady()
      requires Valid() && newCommitReady > 0
      requires lastApplied < commitIndex ==> commitIndex < |log|
      modifies this`newCommitReady, this`lastApplied, this`commitChan
      ensures Valid() && Abs() == Spec.Deliver(old(Abs())).0
    {
      newCommitReady := newCommitReady - 1;
      if commitIndex > lastApplied {
        var savedLastApplied := lastApplied;
        var readyEntries := log[lastApplied + 1..commitIndex + 1];
        lastApplied := commitIndex;
        SendEntries(savedLastApplied + 1, readyEntries, currentTerm);
      }
    }

    /** The loop of commitChanSender that sends the entries it has read. */
    method SendEntries(first: nat, readyEntries: Log, savedTerm: nat)
      requires first + |readyEntries| <= |log| && readyEntries == log[first..first + |readyEntries|]
      modifies this`commitChan
      ensures commitChan == old(commitChan) + Spec.Outgoing(log, first, |readyEntries|, savedTerm)
    {
      var i := 0;
      while i < |readyEntries|
        invariant 0 <= i <= |readyEntries|
        invariant commitChan == old(commitChan) + Spec.Outgoing(log, first, i, savedTerm)
      {
        var entry := CommitEntry(readyEntries[i].command, first + i, savedTerm);
        assert Spec.Outgoing(log, first, i + 1, savedTerm) == Spec.Outgoing(log, first, i, savedTerm) + [entry];
        commitChan := commitChan + [entry];
        i := i + 1;
      }
    }
  }

  /** The map after writing v at each key of s in turn. */
  ghost function PutAll<T>(m: map<nat, T>, s: seq<nat>, v: T): map<nat, T> {
    if s == [] then m else PutAll(m, s[..|s| - 1], v)[s[|s| - 1] := v]
  }

  lemma PutAllMeaning<T>(m: map<nat, T>, s: seq<nat>, v: T)
    ensures forall q :: q in PutAll(m, s, v) <==> q in m || q in s
    ensures forall q :: q in PutAll(m, s, v) ==> PutAll(m, s, v)[q] == if q in s then v else m[q]
  {
    if s != [] {
      PutAllMeaning(m, s[..|s| - 1], v);
      assert forall q :: q in s <==> q in s[..|s| - 1] || q == s[|s| - 1];
    }
  }

  lemma PutAllIsUpdate<T>(m: map<nat, T>, s: seq<nat>, ids: set<nat>, v: T)
    requires forall q :: q in ids <==> q in s
    ensures PutAll<T>(m, s, v) == Spec.Fill<T>(m, ids, v)
  {
    PutAllMeaning(m, s, v);
  }

  /** The nodes of s whose match index reaches i. */
  ghost function HoldersIn(s: seq<nat>, matchIndex: map<nat, Index>, i: nat): set<nat> {
    set p | p in s && Lookup(matchIndex, p, 0) >= i
  }

  lemma HoldersStep(s: seq<nat>, k: nat, matchIndex: map<nat, Index>, i: nat)
    requires k < |s| && s[k] !in s[..k]
    ensures |HoldersIn(s[..k + 1], matchIndex, i)|
      == |HoldersIn(s[..k], matchIndex, i)| + if Lookup(matchIndex, s[k], 0) >= i then 1 else 0
  {
    assert s[..k + 1] == s[..k] + [s[k]];
    assert HoldersIn(s[..k + 1], matchIndex, i)
        == HoldersIn(s[..k], matchIndex, i) + if Lookup(matchIndex, s[k], 0) >= i then {s[k]} else {};
  }

  ghost function ToSet(s: seq<nat>): set<nat> {
    set p | p in s
  }

  lemma DistinctCount(s: seq<nat>)
    requires forall j, k :: 0 <= j < k < |s| ==> s[j] != s[k]
    ensures |ToSet(s)| == |s|
  {
    if s != [] {
      var t := s[..|s| - 1];
      DistinctCount(t);
      assert forall p :: p in s <==> p in t || p == s[|s| - 1];
      assert ToSet(s) == ToSet(t) + {s[|s| - 1]};
    }
  }
}

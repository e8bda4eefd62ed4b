/** The KVService object (internal/kv/server/server.go): its methods update the store and the map of
    subscriptions in place and are proved equal to the state machine of Subscriptions. */
module KvServer {
  import opened Commands
  import opened RaftTypes
  import opened StateMachine
  import opened RaftServer
  import NodeSteps
  import Spec = Subscriptions

  /** How far a request handler gets before it waits: it answers at once, it waits on a
      subscription, or it panics on a duplicate one. */
  datatype Outcome = Done(response: Spec.Response) | Waiting(sub: nat) | Panicked

  class KVService {
    const id: int
    const rs: Raft
    const ds: DataStore
    var commitSubs: map<nat, nat>
    var chans: seq<Spec.Channel>

    // the updater goroutine: its local newEntry, and whether it panicked
    var newEntry: Option<CommitEntry>
    var panicked: bool

    // history
    ghost var born: seq<nat>
    ghost var taken: seq<CommitEntry>
    ghost var routed: nat

    constructor (id: int, rs: Raft)
      ensures this.id == id && this.rs == rs && fresh(ds)
      ensures Valid() && View() == Spec.EMPTY
    {
      this.id := id;
      this.rs := rs;
      ds := new DataStore();
      commitSubs := map[];
      chans := [];
      newEntry := None;
      panicked := false;
      born := [];
      taken := [];
      routed := 0;
    }

    ghost predicate Valid()
      reads this
    {
      forall i :: i in commitSubs ==> commitSubs[i] < |chans|
    }

    ghost function View(): Spec.Service
      reads this, ds
    {
      Spec.Service(ds.data, commitSubs, chans, newEntry, panicked, born, taken, routed)
    }

    /** What a request leads to: a node that does not lead refuses it; a leader's log holds the command at the
        index of the fresh channel that the handler waits on, or that index has a waiting handler already. */
    ghost predicate AnsweredFor(outcome: Outcome, led: bool, cmd: Command)
      reads this, rs
    {
      match outcome
      case Done(response) => !led && response == Spec.Response(Spec.StatusNotLeader, false, "")
      case Waiting(sub) =>
        && led && sub + 1 == |chans| && chans[sub].sent == [] && !chans[sub].closed
        && chans[sub].index < |rs.log| && rs.log[chans[sub].index] == LogEntry(cmd, rs.currentTerm)
        && chans[sub].index in commitSubs && commitSubs[chans[sub].index] == sub
      case Panicked =>
        led && rs.log != [] && |rs.log| - 1 in commitSubs && rs.log[|rs.log| - 1] == LogEntry(cmd, rs.currentTerm)
    }

    /** None: the duplicate check panics. */
    method CreateCommitSubscription(logIndex: nat) returns (sub: Option<nat>)
      requires Valid()
      modifies this
      ensures Valid()
      ensures (View(), sub) == Spec.Create(old(View()), logIndex)
      ensures sub.None? <==> logIndex in old(commitSubs)
      ensures sub.Some? ==>
        && sub.value == |old(chans)| && chans == old(chans) + [Spec.Channel(logIndex, [], false)]
        && commitSubs == old(commitSubs)[logIndex := sub.value]
      ensures sub.None? ==> chans == old(chans) && commitSubs == old(commitSubs)
    {
      if logIndex in commitSubs {
        return None;
      }
      sub := Some(|chans|);
      commitSubs := commitSubs[logIndex := |chans|];
      chans := chans + [Spec.Channel(logIndex, [], false)];
      born := born + [routed];
    }

    method PopCommitSubscription(logIndex: nat) returns (sub: Option<nat>)
      requires Valid()
      modifies this`commitSubs
      ensures Valid()
      ensures commitSubs == old(commitSubs) - {logIndex}
      ensures sub == if logIndex in old(commitSubs) then Some(old(commitSubs)[logIndex]) else None
    {
      sub := if logIndex in commitSubs then Some(commitSubs[logIndex]) else None;
      commitSubs := commitSubs - {logIndex};
    }

    /** The updater receives an entry: it runs the command and keeps the entry with its result. */
    method TakeEntry(entry: CommitEntry)
      requires newEntry == None && !panicked
      modifies this, ds
      ensures View() == Spec.Take(old(View()), entry) && commitSubs == old(commitSubs) && chans == old(chans)
    {
      var cmd := entry.command;
      match cmd.kind {
        case CommandGet =>
          var value, found := ds.Get(cmd.key);
          cmd := cmd.(resultValue := value, resultFound := found);
        case CommandPut =>
          var value, found := ds.Put(cmd.key, cmd.value);
          cmd := cmd.(resultValue := value, resultFound := found);
        case CommandInvalid =>
          panicked := true;
          return;
      }
      newEntry := Some(CommitEntry(cmd, entry.index, entry.term));
      taken := taken + [entry];
    }

    /** The updater sends the kept entry to the subscription at its index, if there is one. */
    method RouteEntry()
      requires Valid() && newEntry.Some?
      modifies this
      ensures Valid() && View() == Spec.Route(old(View())) && newEntry == None
    {
      var e := newEntry.value;
      var sub := PopCommitSubscription(e.index);
      if sub.Some? {
        var h := sub.value;
        chans := chans[h := chans[h].(sent := chans[h].sent + [e], closed := true)];
      }
      newEntry := None;
      routed := routed + 1;
    }

    /** The loop over commitChan, for the entries it carries until it is closed. */
    method RunUpdater(commitChan: seq<CommitEntry>)
      requires Valid() && newEntry == None && !panicked
      modifies this, ds
      ensures Valid() && View() == Updated(old(View()), commitChan)
    {
      var k := 0;
      while k < |commitChan| && !panicked
        invariant k <= |commitChan| && Valid() && newEntry == None
        invariant Updated(old(View()), commitChan) == Updated(View(), commitChan[k..])
      {
        TakeEntry(commitChan[k]);
        if !panicked { RouteEntry(); }
        assert commitChan[k..][1..] == commitChan[k + 1..];
        k := k + 1;
      }
      if panicked { PanicIsFinal(View(), commitChan[k..]); }
    }

    method SubmitAndSubscribe(cmd: Command) returns (outcome: Outcome)
      requires Valid() && rs.Valid()
      modifies this, rs, rs.storage
      ensures Valid() && rs.Valid()
      ensures var (nd, index) := NodeSteps.Submit(old(rs.Abs()), cmd);
        rs.Abs() == nd && (View(), outcome) == Subscribed(old(View()), index)
      ensures AnsweredFor(outcome, old(rs.state) == Leader, cmd)
    {
      var logIndex := rs.Submit(cmd);
      if logIndex < 0 {
        return Done(Spec.NOT_LEADER);
      }
      var sub := CreateCommitSubscription(logIndex);
      outcome := if sub.Some? then Waiting(sub.value) else Panicked;
    }

    /** handlePut up to its wait. */
    method HandlePut(key: string, value: string) returns (outcome: Outcome)
      requires Valid() && rs.Valid()
      modifies this, rs, rs.storage
      ensures Valid() && rs.Valid()
      ensures var (nd, index) := NodeSteps.Submit(old(rs.Abs()), Command(CommandPut, key, value, "", false, id));
        rs.Abs() == nd && (View(), outcome) == Subscribed(old(View()), index)
      ensures AnsweredFor(outcome, old(rs.state) == Leader, Command(CommandPut, key, value, "", false, id))
    {
      outcome := SubmitAndSubscribe(Command(CommandPut, key, value, "", false, id));
    }

    /** handleGet up to its wait. */
    method HandleGet(key: string) returns (outcome: Outcome)
      requires Valid() && rs.Valid()
      modifies this, rs, rs.storage
      ensures Valid() && rs.Valid()
      ensures var (nd, index) := NodeSteps.Submit(old(rs.Abs()), Command(CommandGet, key, "", "", false, id));
        rs.Abs() == nd && (View(), outcome) == Subscribed(old(View()), index)
      ensures AnsweredFor(outcome, old(rs.state) == Leader, Command(CommandGet, key, "", "", false, id))
    {
      outcome := SubmitAndSubscribe(Command(CommandGet, key, "", "", false, id));
    }

    /** The end of either handler: what it answers once its subscription has an entry. */
    method Respond(sub: nat) returns (response: Option<Spec.Response>)
      requires sub < |chans|
      ensures response == Spec.Respond(View(), id, sub)
    {
      if chans[sub].sent == [] {
        return None;
      }
      var cmd := chans[sub].sent[0].command;
      if cmd.id == id {
        response := Some(Spec.Response(Spec.StatusOK, cmd.resultFound, cmd.resultValue));
      } else {
        response := Some(Spec.Response(Spec.StatusFailedCommit, false, ""));
      }
    }
  }

  /** The service after its updater has run these entries with no request in between. */
  function Updated(s: Spec.Service, es: seq<CommitEntry>): Spec.Service
    decreases |es|
  {
    if es == [] then s else Updated(Spec.Route(Spec.Take(s, es[0])), es[1..])
  }

  function Subscribed(s: Spec.Service, index: int): (Spec.Service, Outcome) {
    if index < 0 then (s, Done(Spec.NOT_LEADER))
    else
      var (s', sub) := Spec.Create(s, index);
      (s', if sub.Some? then Waiting(sub.value) else Panicked)
  }

  lemma {:induction false} PanicIsFinal(s: Spec.Service, es: seq<CommitEntry>)
    requires s.panicked && s.held.None?
    ensures Updated(s, es) == s
  {
    if es != [] { PanicIsFinal(s, es[1..]); }
  }

  /** The updater's loop as events, so that what holds of every interleaving holds of it. */
  function UpdaterEvents(es: seq<CommitEntry>): seq<Spec.Event> {
    if es == [] then [] else UpdaterEvents(es[..|es| - 1]) + [Spec.TakeEntry(es[|es| - 1]), Spec.RouteEntry]
  }

  lemma {:induction false} UpdatedLast(s: Spec.Service, es: seq<CommitEntry>)
    requires es != []
    decreases |es|
    ensures Updated(s, es) == Spec.Route(Spec.Take(Updated(s, es[..|es| - 1]), es[|es| - 1]))
  {
    if |es| == 1 {
      assert es[..0] == [] && es[1..] == [];
    } else {
      UpdatedLast(Spec.Route(Spec.Take(s, es[0])), es[1..]);
      assert es[..|es| - 1][1..] == es[1..][..|es| - 2];
    }
  }

  lemma {:induction false} UpdaterRuns(es: seq<CommitEntry>)
    ensures Updated(Spec.EMPTY, es) == Spec.Run(UpdaterEvents(es))
  {
    if es != [] {
      var init, e := es[..|es| - 1], es[|es| - 1];
      UpdatedLast(Spec.EMPTY, es);
      UpdaterRuns(init);
      var evs := UpdaterEvents(es);
      assert evs[..|evs| - 1] == UpdaterEvents(init) + [Spec.TakeEntry(e)];
      assert (UpdaterEvents(init) + [Spec.TakeEntry(e)])[..|UpdaterEvents(init)|] == UpdaterEvents(init);
    }
  }

  /** The updater took the entries before the first command of an unknown kind, and the store is
      the fold of their commands. */
  ghost predicate FoldsThrough(s: Spec.Service, es: seq<CommitEntry>) {
    && s.held.None? && |s.taken| <= |es| && s.taken == es[..|s.taken|] && s.routed == |s.taken|
    && (s.panicked <==> |s.taken| < |es|)
    && (s.panicked ==> es[|s.taken|].command.kind.CommandInvalid?)
    && (forall k :: 0 <= k < |s.taken| ==> !s.taken[k].command.kind.CommandInvalid?)
    && s.table == Fold(Spec.CommandsOf(s.taken))
  }

  lemma FoldsOneMore(s: Spec.Service, es: seq<CommitEntry>, e: CommitEntry)
    requires FoldsThrough(s, es)
    ensures FoldsThrough(Spec.Route(Spec.Take(s, e)), es + [e])
  {
    hide Fold, Spec.CommandsOf;
    Spec.FoldNext(s.taken, e);
    assert (es + [e])[..|s.taken|] == es[..|s.taken|];
  }

  /** The updater alone, and so any node that replays its stream from index 0, runs every command up
      to the first of an unknown kind. */
  lemma {:induction false} UpdaterFolds(es: seq<CommitEntry>)
    ensures FoldsThrough(Updated(Spec.EMPTY, es), es)
  {
    hide Spec.Route, Spec.Take;
    if es != [] {
      UpdatedLast(Spec.EMPTY, es);
      UpdaterFolds(es[..|es| - 1]);
      FoldsOneMore(Updated(Spec.EMPTY, es[..|es| - 1]), es[..|es| - 1], es[|es| - 1]);
      assert es[..|es| - 1] + [es[|es| - 1]] == es;
    }
  }
}

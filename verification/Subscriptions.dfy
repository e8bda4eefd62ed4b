/** The apply path of the key-value service (internal/kv/server/server.go) as a state machine over
    its locked regions: the updater takes an entry and then routes its answer, and request handlers
    create subscriptions in between, in any order. */
module Subscriptions {
  import opened Commands
  import opened RaftTypes
  import opened StateMachine

  /** A channel of capacity 1 made for a subscription, with everything ever sent on it. */
  datatype Channel = Channel(index: nat, sent: seq<CommitEntry>, closed: bool)

  /** Channels are named by their position in `chans`; `held` is the updater's entry between the
      store and the subscription. History: `born[h]` counts the entries routed before channel h was
      made, `taken` is the stream of entries applied, `routed` counts the entries routed. */
  datatype Service = Service(
    table: Table,
    subs: map<nat, nat>,
    chans: seq<Channel>,
    held: Option<CommitEntry>,
    panicked: bool,
    born: seq<nat>,
    taken: seq<CommitEntry>,
    routed: nat)

  const EMPTY := Service(map[], map[], [], None, false, [], [], 0)

  /** createCommitSubsciption; None is its panic, which ends the request only. */
  function Create(s: Service, index: nat): (Service, Option<nat>) {
    if index in s.subs then (s, None)
    else (s.(subs := s.subs[index := |s.chans|],
             chans := s.chans + [Channel(index, [], false)],
             born := s.born + [s.routed]), Some(|s.chans|))
  }

  /** The updater receives an entry and applies it; an unknown kind panics and ends the updater. */
  function Take(s: Service, e: CommitEntry): Service {
    if s.panicked || s.held.Some? then s
    else if e.command.kind.CommandInvalid? then s.(panicked := true)
    else s.(table := Effect(s.table, e.command),
            held := Some(e.(command := Answered(s.table, e.command))),
            taken := s.taken + [e])
  }

  /** The updater pops the subscription of the entry, if any, sends the entry and closes. */
  function Route(s: Service): Service {
    if s.held.None? then s
    else
      var e := s.held.value;
      var s1 := s.(held := None, routed := s.routed + 1);
      if e.index in s.subs && s.subs[e.index] < |s.chans| then
        var h := s.subs[e.index];
        s1.(subs := s.subs - {e.index},
            chans := s.chans[h := s.chans[h].(sent := s.chans[h].sent + [e], closed := true)])
      else s1
  }

  datatype Event = CreateSub(index: nat) | TakeEntry(entry: CommitEntry) | RouteEntry

  function Happens(s: Service, ev: Event): Service {
    match ev
    case CreateSub(index) => Create(s, index).0
    case TakeEntry(e) => Take(s, e)
    case RouteEntry => Route(s)
  }

  /** Any interleaving of handlers and updater. */
  function Run(events: seq<Event>): Service {
    if events == [] then EMPTY else Happens(Run(events[..|events| - 1]), events[|events| - 1])
  }

  /** What the Raft node promises of its commit channel. */
  predicate InOrder(es: seq<CommitEntry>) {
    forall k :: 0 <= k < |es| ==> es[k].index == k
  }

  function CommandsOf(es: seq<CommitEntry>): (cs: seq<Command>)
    ensures |cs| == |es|
    ensures forall k :: 0 <= k < |es| ==> cs[k] == es[k].command
  {
    seq(|es|, k requires 0 <= k < |es| => es[k].command)
  }

  /** Entry i of the stream with its answer. */
  function AnswerEntry(es: seq<CommitEntry>, i: nat): CommitEntry
    requires i < |es|
  {
    es[i].(command := AnswerAt(CommandsOf(es), i))
  }

  /** Channel h was made before the entry at its index was routed, and that entry has been routed. */
  predicate Due(s: Service, h: nat)
    requires h < |s.chans| == |s.born|
  {
    s.born[h] <= s.chans[h].index < s.routed
  }

  ghost predicate ChannelOk(s: Service, h: nat)
    requires h < |s.chans| == |s.born| && s.routed <= |s.taken|
  {
    var c := s.chans[h];
    && c.sent == (if Due(s, h) then [AnswerEntry(s.taken, c.index)] else [])
    && c.closed == Due(s, h)
    && (!c.closed <==> c.index in s.subs && s.subs[c.index] == h)
  }

  ghost predicate ServiceOk(s: Service) {
    && s.table == Fold(CommandsOf(s.taken))
    && |s.taken| == s.routed + (if s.held.Some? then 1 else 0)
    && (s.held.Some? ==> s.held.value == AnswerEntry(s.taken, s.routed))
    && |s.born| == |s.chans|
    && (forall h :: 0 <= h < |s.chans| ==> s.born[h] <= s.routed && ChannelOk(s, h))
    && (forall i :: i in s.subs ==> s.subs[i] < |s.chans| && s.chans[s.subs[i]].index == i)
  }

  // ---------------------------------------------------------------- the invariant

  lemma CreateOk(s: Service, index: nat)
    requires ServiceOk(s)
    ensures ServiceOk(Create(s, index).0)
  {
    var s' := Create(s, index).0;
    if index !in s.subs {
      forall h | 0 <= h < |s'.chans| ensures s'.born[h] <= s'.routed && ChannelOk(s', h) {
        if h < |s.chans| { assert ChannelOk(s, h); }
      }
    }
  }

  lemma AnswerKept(es: seq<CommitEntry>, e: CommitEntry, i: nat)
    requires i < |es|
    ensures AnswerEntry(es + [e], i) == AnswerEntry(es, i)
  {
    assert CommandsOf(es) <= CommandsOf(es + [e]);
    AnswerOfPrefix(CommandsOf(es), CommandsOf(es + [e]), i);
  }

  lemma FoldNext(es: seq<CommitEntry>, e: CommitEntry)
    ensures Fold(CommandsOf(es + [e])) == Effect(Fold(CommandsOf(es)), e.command)
    ensures AnswerEntry(es + [e], |es|) == e.(command := Answered(Fold(CommandsOf(es)), e.command))
  {
    assert CommandsOf(es + [e])[..|es|] == CommandsOf(es);
  }

  lemma TakeOk(s: Service, e: CommitEntry)
    requires ServiceOk(s)
    ensures ServiceOk(Take(s, e))
  {
    hide Fold, AnswerEntry;
    var s' := Take(s, e);
    if s' != s && !s'.panicked {
      FoldNext(s.taken, e);
      forall h | 0 <= h < |s'.chans| ensures s'.born[h] <= s'.routed && ChannelOk(s', h) {
        assert ChannelOk(s, h);
        if Due(s, h) { AnswerKept(s.taken, e, s.chans[h].index); }
      }
    }
  }

  lemma HeldIndex(s: Service)
    requires ServiceOk(s) && InOrder(s.taken)
    ensures s.held.Some? ==> s.held.value.index == s.routed
  {
    hide Fold, AnswerAt, CommandsOf, ChannelOk;
  }

  lemma RouteOk(s: Service)
    requires ServiceOk(s) && InOrder(s.taken)
    ensures ServiceOk(Route(s))
  {
    hide Fold, AnswerEntry, CommandsOf, InOrder;
    HeldIndex(s);
    var s' := Route(s);
    if s.held.Some? {
      forall h | 0 <= h < |s'.chans| ensures s'.born[h] <= s'.routed && ChannelOk(s', h) {
        assert ChannelOk(s, h);
      }
    }
  }

  lemma TakenGrows(s: Service, ev: Event)
    ensures s.taken <= Happens(s, ev).taken
  {}

  lemma {:induction false} RunOk(events: seq<Event>)
    requires InOrder(Run(events).taken)
    ensures ServiceOk(Run(events))
  {
    if events != [] {
      var s, ev := Run(events[..|events| - 1]), events[|events| - 1];
      TakenGrows(s, ev);
      assert InOrder(s.taken) by {
        forall k | 0 <= k < |s.taken| ensures s.taken[k].index == k { assert Run(events).taken[k] == s.taken[k]; }
      }
      RunOk(events[..|events| - 1]);
      match ev
      case CreateSub(index) => CreateOk(s, index);
      case TakeEntry(e) => TakeOk(s, e);
      case RouteEntry => RouteOk(s);
    }
  }

  // ---------------------------------------------------------------- results

  /** The store holds the fold of exactly the entries taken, whatever the handlers do. */
  lemma StoreIsFold(events: seq<Event>)
    requires InOrder(Run(events).taken)
    ensures Run(events).table == Fold(CommandsOf(Run(events).taken))
  {
    RunOk(events);
  }

  /** A subscription receives the answer of the entry at its own index, once, exactly when it was
      made before that entry was routed; one made later receives nothing. */
  lemma Routing(events: seq<Event>, h: nat)
    requires InOrder(Run(events).taken) && h < |Run(events).chans|
    ensures var s := Run(events); var c := s.chans[h];
      && |s.born| == |s.chans| && s.routed <= |s.taken|
      && (Due(s, h) ==>
            && c.sent == [AnswerEntry(s.taken, c.index)]
            && c.sent[0].index == c.index && c.sent[0].term == s.taken[c.index].term)
      && (!Due(s, h) ==> c.sent == [])
      && (c.closed <==> Due(s, h))
  {
    RunOk(events);
    assert ChannelOk(Run(events), h);
  }

  /** At most one subscription per index is waiting, and exactly then is a new one refused. */
  lemma OneLiveSubscription(events: seq<Event>, index: nat)
    requires InOrder(Run(events).taken)
    ensures var s := Run(events);
      && (forall g, h :: 0 <= g < h < |s.chans| && s.chans[g].index == s.chans[h].index ==>
            s.chans[g].closed || s.chans[h].closed)
      && (Create(s, index).1.None? <==>
            exists h :: 0 <= h < |s.chans| && s.chans[h].index == index && !s.chans[h].closed)
  {
    var s := Run(events);
    RunOk(events);
    forall g, h | 0 <= g < h < |s.chans| && s.chans[g].index == s.chans[h].index
      ensures s.chans[g].closed || s.chans[h].closed
    {
      assert ChannelOk(s, g) && ChannelOk(s, h);
    }
    if h :| 0 <= h < |s.chans| && s.chans[h].index == index && !s.chans[h].closed {
      assert ChannelOk(s, h);
    }
    if index in s.subs { assert ChannelOk(s, s.subs[index]); }
  }

  /** A new subscription is a new, empty channel of its own, registered at its index; the other channels and
      registrations stay. A refused one changes nothing. */
  lemma NewSubscription(s: Service, index: nat)
    requires |s.born| == |s.chans|
    ensures var (s', sub) := Create(s, index);
      if sub.None? then
        s' == s && index in s.subs
      else
        && index !in s.subs
        && sub.value == |s.chans| && |s'.chans| == |s'.born| == |s.chans| + 1
        && s'.chans[sub.value] == Channel(index, [], false) && s'.born[sub.value] == s.routed
        && s'.chans[..|s.chans|] == s.chans && s'.born[..|s.born|] == s.born
        && index in s'.subs && s'.subs[index] == sub.value
        && s'.subs.Keys == s.subs.Keys + {index} && (forall i :: i in s.subs ==> s'.subs[i] == s.subs[i])
        && s'.table == s.table && s'.held == s.held && s'.taken == s.taken && s'.routed == s.routed && s'.panicked == s.panicked
  {}

  /** A channel keeps its index, its time of making and what was sent on it. */
  ghost predicate Keeps(s: Service, s': Service, h: nat) {
    h < |s.chans| == |s.born| && |s'.chans| == |s'.born| && h < |s'.chans| &&
    s'.chans[h].index == s.chans[h].index && s'.born[h] == s.born[h] && s.chans[h].sent <= s'.chans[h].sent
  }

  lemma KeepsOn(s: Service, s': Service, ev: Event, h: nat)
    requires Keeps(s, s', h)
    ensures Keeps(s, Happens(s', ev), h)
  {}

  lemma {:induction false} ChannelKeeps(events: seq<Event>, more: seq<Event>, h: nat)
    requires |Run(events).chans| == |Run(events).born| && h < |Run(events).chans|
    ensures Keeps(Run(events), Run(events + more), h)
  {
    hide Happens;
    if more == [] {
      assert events + more == events;
    } else {
      ChannelKeeps(events, more[..|more| - 1], h);
      KeepsOn(Run(events), Run(events + more[..|more| - 1]), more[|more| - 1], h);
      assert (events + more)[..|events + more| - 1] == events + more[..|more| - 1];
    }
  }

  /** A subscription made after its entry was routed is never answered, however long it waits. */
  lemma LateSubscriptionStarves(events: seq<Event>, more: seq<Event>, h: nat)
    requires InOrder(Run(events + more).taken) && h < |Run(events).chans| == |Run(events).born|
    requires Run(events).born[h] > Run(events).chans[h].index
    ensures h < |Run(events + more).chans| && Run(events + more).chans[h].sent == []
  {
    ChannelKeeps(events, more, h);
    Routing(events + more, h);
  }

  // ---------------------------------------------------------------- responses

  datatype ResponseStatus = StatusInvalid | StatusOK | StatusNotLeader | StatusFailedCommit

  /** PutResponse and GetResponse: `value` is PrevValue of the one and Value of the other. */
  datatype Response = Response(status: ResponseStatus, keyFound: bool, value: string)

  const NOT_LEADER := Response(StatusNotLeader, false, "")

  function Decide(id: int, e: CommitEntry): Response {
    if e.command.id == id then Response(StatusOK, e.command.resultFound, e.command.resultValue)
    else Response(StatusFailedCommit, false, "")
  }

  /** What a handler of service `id` waiting on channel h answers; None while it waits. */
  function Respond(s: Service, id: int, h: nat): Option<Response>
    requires h < |s.chans|
  {
    if s.chans[h].sent == [] then None else Some(Decide(id, s.chans[h].sent[0]))
  }

  /** The response of service `id` for position i, told from the committed commands alone. */
  function RightResponse(cs: seq<Command>, id: int, i: nat): Response
    requires i < |cs|
  {
    var k := LastPut(cs, i, cs[i].key);
    if cs[i].id != id then Response(StatusFailedCommit, false, "")
    else Response(StatusOK, k >= 0, if k >= 0 then cs[k].value else "")
  }

  /** A handler that gets a response gets OK exactly when the committed entry at its index came from
      its service, and then the result is the value of the last Put before that entry. */
  lemma ResponseMeaning(events: seq<Event>, id: int, h: nat)
    requires InOrder(Run(events).taken) && h < |Run(events).chans|
    ensures var s := Run(events); var i := s.chans[h].index; var response := Respond(s, id, h);
      && |s.born| == |s.chans|
      && (response.Some? <==> Due(s, h))
      && (response.Some? ==> i < |s.taken| && response.value == RightResponse(CommandsOf(s.taken), id, i))
  {
    var s := Run(events);
    Routing(events, h);
    if Due(s, h) { AnswerIsLastPut(CommandsOf(s.taken), s.chans[h].index); }
  }

  /** What a caller gets in the end: the channel handed out by a successful Create is, however the run goes
      on, the one at the caller's index, and its response comes exactly when the entry at that index is routed
      after the Create, and is the right one for that index. */
  lemma CallerAnswered(events: seq<Event>, index: nat, more: seq<Event>, id: int, h: nat)
    requires Create(Run(events), index).1 == Some(h)
    requires InOrder(Run(events + [CreateSub(index)] + more).taken)
    ensures var s, s' := Run(events), Run(events + [CreateSub(index)] + more);
      && h < |s'.chans| && s'.chans[h].index == index
      && (Respond(s', id, h).Some? <==> s.routed <= index < s'.routed)
      && (Respond(s', id, h).Some? ==>
            index < |s'.taken| && Respond(s', id, h).value == RightResponse(CommandsOf(s'.taken), id, index))
  {
    hide Run, InOrder;
    var s := Run(events);
    TakenStays(events, [CreateSub(index)] + more);
    assert events + ([CreateSub(index)] + more) == events + [CreateSub(index)] + more;
    InOrderBefore(s.taken, Run(events + [CreateSub(index)] + more).taken);
    RunOk(events);
    NewSubscription(s, index);
    RunStep(events, CreateSub(index));
    ChannelKeeps(events + [CreateSub(index)], more, h);
    ResponseMeaning(events + [CreateSub(index)] + more, id, h);
  }

  lemma {:induction false} TakenStays(events: seq<Event>, more: seq<Event>)
    ensures Run(events).taken <= Run(events + more).taken
  {
    hide Happens;
    if more == [] {
      assert events + more == events;
    } else {
      var init := more[..|more| - 1];
      TakenStays(events, init);
      assert (events + more)[..|events + more| - 1] == events + init;
      TakenGrows(Run(events + init), more[|more| - 1]);
    }
  }

  lemma InOrderBefore(es: seq<CommitEntry>, all: seq<CommitEntry>)
    requires es <= all && InOrder(all)
    ensures InOrder(es)
  {
    forall k | 0 <= k < |es| ensures es[k].index == k { assert es[k] == all[k]; }
  }

  lemma RunStep(events: seq<Event>, ev: Event)
    ensures Run(events + [ev]) == Happens(Run(events), ev)
  {
    assert (events + [ev])[..|events|] == events;
  }
}

/** The inductive invariant of the repaired cluster. */
module Invariants {
  import opened RaftTypes
  import opened Cluster
  import opened LogHistory
  import opened Votes

  // ---------------------------------------------------------------- commitment

  ghost function Ackers(acks: set<Ack>, n: nat, t: nat, m: nat): set<nat> {
    set p | p in Ids(n) && Ack(p, t, m) in acks
  }

  /** A majority held entry m of the leader of term t, an entry of that term, in that term. */
  ghost predicate Committed(leads: Leads, acks: set<Ack>, n: nat, t: nat, m: nat) {
    && t in leads && m < |leads[t].log| && leads[t].log[m].term == t
    && IsMajority(Ackers(acks, n, t, m), n)
  }

  /** xs is a prefix of what was committed in some term up to hi. */
  ghost predicate Settled(leads: Leads, acks: set<Ack>, n: nat, xs: Log, hi: nat) {
    xs == [] || exists t: nat, m: nat ::
      t <= hi && Committed(leads, acks, n, t, m) && |xs| <= m + 1 && Agree(xs, leads[t].log, |xs|)
  }

  // ---------------------------------------------------------------- nodes

  ghost predicate RoleOk(leads: Leads, nd: Node, i: nat) {
    && TermsBelow(nd.log, nd.term + 1)
    && (nd.role == Candidate ==> TermsBelow(nd.log, nd.term))
    && (nd.role == Leader ==>
          nd.term in leads && leads[nd.term].id == i && leads[nd.term].log == nd.log)
  }

  ghost predicate CommitOk(leads: Leads, acks: set<Ack>, n: nat, nd: Node) {
    && nd.commitIndex < |nd.log|
    && Settled(leads, acks, n, nd.log[..nd.commitIndex + 1], nd.term)
  }

  /** commitChan carries the applied prefix of the log, and no notification is lost. */
  ghost predicate SentOk(nd: Node) {
    && nd.lastApplied <= nd.commitIndex < |nd.log|
    && (nd.lastApplied < nd.commitIndex ==> nd.ready > 0)
    && |nd.sent| == nd.lastApplied + 1
    && forall k :: 0 <= k < |nd.sent| ==>
         nd.sent[k].index == k && nd.sent[k].command == nd.log[k].command
  }

  ghost predicate PeerOk(acks: set<Ack>, nd: Node, p: nat) {
    && p in nd.nextIndex && nd.nextIndex[p] <= |nd.log|
    && p in nd.matchIndex && nd.matchIndex[p] < |nd.log|
    && AcksThrough(p, nd.term, nd.matchIndex[p]) <= acks
  }

  ghost predicate BooksOk(acks: set<Ack>, n: nat, nd: Node, i: nat) {
    nd.role == Leader ==>
      && (forall p :: p in Peers(n, i) ==> PeerOk(acks, nd, p))
      && (forall k: nat :: k < |nd.log| && nd.log[k].term == nd.term ==> Ack(i, nd.term, k) in acks)
  }

  ghost predicate DiskOk(r: Repairs, nd: Node) {
    r.persistAlways ==>
      if nd.disk.Blank? then nd.term == 0 && nd.votedFor == -1 && nd.log == []
      else nd.disk == Saved(nd.term, nd.votedFor, nd.log)
  }

  ghost predicate NodeOk(r: Repairs, leads: Leads, acks: set<Ack>, n: nat, nd: Node, i: nat) {
    && Rooted(leads, nd.log)
    && RoleOk(leads, nd, i)
    && CommitOk(leads, acks, n, nd)
    && SentOk(nd)
    && BooksOk(acks, n, nd, i)
    && DiskOk(r, nd)
  }

  // ---------------------------------------------------------------- elections

  ghost predicate VotedFor(grants: set<Grant>, p: nat, t: nat, c: nat) {
    exists g :: g in grants && g.voter == p && g.term == t && g.candidate == c
  }

  ghost predicate LeaderOk(s: State, t: nat)
    requires t in s.leads
  {
    var l := s.leads[t];
    && l.id < |s.nodes|
    && t <= s.nodes[l.id].term
    && (t == s.nodes[l.id].term ==> s.nodes[l.id].votedFor == l.id && s.nodes[l.id].role != Candidate)
    && IsMajority(l.quorum, |s.nodes|)
    && forall p :: p in l.quorum ==> VotedFor(s.grants, p, t, l.id)
  }

  /** A vote request claims the log its sender has for as long as it is that term's candidate. */
  ghost predicate ClaimOk(s: State, c: nat, t: nat, lastIndex: Index, lastTerm: int) {
    && c < |s.nodes|
    && t <= s.nodes[c].term
    && (s.nodes[c].role == Candidate && s.nodes[c].term == t ==>
          lastIndex == LastIndex(s.nodes[c].log) && lastTerm == LastTerm(s.nodes[c].log))
  }

  /** A leader's vote in its own term is its own. */
  ghost predicate Loyal(leads: Leads, g: Grant) {
    g.term in leads && leads[g.term].id == g.voter ==> g.candidate == g.voter
  }

  ghost predicate GrantClaimOk(s: State, g: Grant) {
    ClaimOk(s, g.candidate, g.term, g.lastIndex, g.lastTerm) && Loyal(s.leads, g)
  }

  ghost predicate VoteCallClaimOk(s: State, c: VoteCall) {
    ClaimOk(s, c.args.candidateId, c.args.term, c.args.lastLogIndex, c.args.lastLogTerm)
  }

  ghost predicate TallyOk(s: State, e: nat)
    requires e < |s.elections|
  {
    var el := s.elections[e];
    && el.id < |s.nodes|
    && el.tally.term <= s.nodes[el.id].term
    && el.granted !! el.pending
    && el.granted <= PeersOf(s, el.id)
    && (el.pending != {} ==>
          el.tally.repliesNeeded == |el.pending| && el.tally.votesReceived == |el.granted|)
    && forall p :: p in el.granted + {el.id} ==> VotedFor(s.grants, p, el.tally.term, el.id)
  }

  ghost predicate WinOk(leads: Leads, w: Win) {
    w.term in leads && leads[w.term].id == w.id
  }

  // ---------------------------------------------------------------- replication messages

  /** The request carries a stretch of the log `lead`, and claims no commit beyond it. */
  ghost predicate Excerpt(lead: Log, a: AppendArgs) {
    && LastSent(a) < |lead|
    && a.entries == lead[a.prevLogIndex + 1..LastSent(a) + 1]
    && (a.prevLogIndex >= 0 ==> a.prevLogTerm == lead[a.prevLogIndex].term)
    && a.leaderCommit <= LastSent(a)
  }

  ghost predicate CallOk(leads: Leads, acks: set<Ack>, n: nat, c: AppendCall) {
    var a := c.args;
    && a.term in leads && leads[a.term].id == a.leaderId
    && c.to < n && c.to != a.leaderId
    && Excerpt(leads[a.term].log, a)
    && Settled(leads, acks, n, leads[a.term].log[..a.leaderCommit + 1], a.term)
  }

  ghost predicate AnswerOk(calls: set<AppendCall>, acks: set<Ack>, x: AppendAnswer) {
    var a := x.call.args;
    && x.call in calls
    && (x.reply.success ==> x.reply.term == a.term && AcksThrough(x.call.to, a.term, LastSent(a)) <= acks)
    && (x.reply.term == a.term && !x.reply.success ==> x.reply.conflictIndex <= a.prevLogIndex + 1)
  }

  // ---------------------------------------------------------------- acknowledgements

  ghost predicate Holds(leads: Leads, nd: Node, t: nat, m: nat) {
    t in leads && (Agree(nd.log, leads[t].log, m + 1) || Overtaken(leads, t, m, nd.term))
  }

  ghost predicate AckOk(s: State, a: Ack) {
    && a.node < |s.nodes|
    && a.term in s.leads && a.index < |s.leads[a.term].log|
    && a.term <= s.nodes[a.node].term
    && Holds(s.leads, s.nodes[a.node], a.term, a.index)
  }

  /** The acknowledged entry is of the leader's own term. */
  ghost predicate OwnTerm(leads: Leads, a: Ack) {
    a.term in leads && a.index < |leads[a.term].log| && leads[a.term].log[a.index].term == a.term
  }

  ghost predicate Beats(lastTerm: int, lastIndex: int, t: nat, m: nat) {
    lastTerm > t || (lastTerm == t && lastIndex >= m)
  }

  /** A voter that acknowledged an entry voted only for logs at least that far, unless an
      intermediate leader lacked the entry. */
  ghost predicate GrantAckOk(leads: Leads, g: Grant, a: Ack) {
    g.voter == a.node && a.term < g.term && g.term !in leads && OwnTerm(leads, a) ==>
      Beats(g.lastTerm, g.lastIndex, a.term, a.index) || Overtaken(leads, a.term, a.index, g.term)
  }

  ghost predicate QuorumAckOk(leads: Leads, u: nat, a: Ack)
    requires u in leads
  {
    leads[u].base <= |leads[u].log| &&
    (a.node in leads[u].quorum && a.term < u && OwnTerm(leads, a) ==>
      var won := leads[u].log[..leads[u].base];
      Beats(LastTerm(won), LastIndex(won), a.term, a.index) || Overtaken(leads, a.term, a.index, u - 1))
  }

  // ---------------------------------------------------------------- deliveries

  ghost predicate DeliveryOk(leads: Leads, acks: set<Ack>, nodes: seq<Node>, d: Delivery) {
    && d.node < |nodes|
    && |d.prefix| == d.entry.index + 1
    && d.prefix[d.entry.index].command == d.entry.command
    && Settled(leads, acks, |nodes|, d.prefix, d.entry.term)
    && d.entry.term <= nodes[d.node].term
    && Agree(nodes[d.node].log, d.prefix, |d.prefix|)
  }

  // ---------------------------------------------------------------- the invariant

  ghost predicate NodesInv(r: Repairs, s: State) {
    forall i :: 0 <= i < |s.nodes| ==> NodeOk(r, s.leads, s.acks, |s.nodes|, s.nodes[i], i)
  }

  ghost predicate ElectionInv(s: State) {
    && (forall t :: t in s.leads ==> LeaderOk(s, t))
    && (forall g :: g in s.grants ==> GrantClaimOk(s, g))
    && (forall c :: c in s.voteCalls ==> VoteCallClaimOk(s, c))
    && (forall e :: 0 <= e < |s.elections| ==> TallyOk(s, e))
    && (forall w :: w in s.wins ==> WinOk(s.leads, w))
  }

  ghost predicate RoundOk(n: nat, x: Round) {
    x.peer in Peers(n, x.id)
  }

  ghost predicate MessageInv(s: State) {
    && (forall x :: x in s.rounds ==> RoundOk(|s.nodes|, x))
    && (forall c :: c in s.appendCalls ==> CallOk(s.leads, s.acks, |s.nodes|, c))
    && (forall x :: x in s.appendAnswers ==> AnswerOk(s.appendCalls, s.acks, x))
  }

  ghost predicate AckInv(s: State) {
    && (forall a :: a in s.acks ==> AckOk(s, a))
    && (forall g, a :: g in s.grants && a in s.acks ==> GrantAckOk(s.leads, g, a))
    && (forall u, a :: u in s.leads && a in s.acks ==> QuorumAckOk(s.leads, u, a))
  }

  ghost predicate DeliveryInv(s: State) {
    forall d :: d in s.delivered ==> DeliveryOk(s.leads, s.acks, s.nodes, d)
  }

  ghost predicate Inv(r: Repairs, s: State) {
    && VotesInv(s)
    && LeadsOk(s.leads)
    && NodesInv(r, s)
    && ElectionInv(s)
    && MessageInv(s)
    && AckInv(s)
    && DeliveryInv(s)
  }
}

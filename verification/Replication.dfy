/** A follower under any sequence of requests from one leader (heartbeat.go:60-84). */
module Replication {
  import opened RaftTypes
  import opened NodeSteps
  import opened Cluster
  import opened LogHistory
  import opened Invariants
  import opened ReceiveStep

  /** The node after handling the requests one after the other. */
  function HandleAll(r: Repairs, nd: Node, requests: seq<AppendArgs>): Node {
    if requests == [] then nd
    else HandleAppend(r, HandleAll(r, nd, requests[..|requests| - 1]), requests[|requests| - 1]).0
  }

  /** Request k of the sequence is answered with success. */
  ghost predicate Accepted(r: Repairs, nd: Node, requests: seq<AppendArgs>, k: nat)
    requires k < |requests|
  {
    HandleAppend(r, HandleAll(r, nd, requests[..k]), requests[k]).1.success
  }

  /** A follower of term t's leader, with a log of the same origin. */
  ghost predicate Follows(leads: Leads, nd: Node, t: nat) {
    nd.role == Follower && nd.term == t && Rooted(leads, nd.log)
  }

  lemma HandleOne(r: Repairs, leads: Leads, nd: Node, a: AppendArgs)
    requires r.mergeAtStart && LeadsOk(leads) && a.term in leads && Follows(leads, nd, a.term)
    requires Excerpt(leads[a.term].log, a)
    ensures var (nd', reply) := HandleAppend(r, nd, a); var lead := leads[a.term].log;
      && Follows(leads, nd', a.term)
      && KeepsShared(nd, nd', lead)
      && (reply.success ==> Agree(nd'.log, lead, LastSent(a) + 1))
  {
    hide Excerpt, LeadsOk, Rooted, HandleAppend, Merge, Agree;
    FollowerHandles(r, nd, a);
    if Matches(r, nd.log, a) {
      MergeShares(r, leads, {}, 0, nd, a);
    } else {
      forall x: nat | Agree(nd.log, leads[a.term].log, x) ensures Agree(nd.log, nd.log, x) {
        SelfAgree(nd.log, leads[a.term].log, x);
      }
    }
  }

  lemma FollowerHandles(r: Repairs, nd: Node, a: AppendArgs)
    requires r.mergeAtStart && nd.role == Follower && nd.term == a.term
    ensures var (nd', reply) := HandleAppend(r, nd, a);
      && nd'.role == Follower && nd'.term == nd.term
      && reply.success == Matches(r, nd.log, a)
      && nd'.log == if reply.success then Merge(nd.log, a.prevLogIndex + 1, a.entries) else nd.log
  {
    hide Merge, Hint;
  }

  lemma KeepsSharedTrans(a: Node, b: Node, c: Node, lead: Log)
    requires KeepsShared(a, b, lead) && KeepsShared(b, c, lead)
    ensures KeepsShared(a, c, lead)
  {
    forall x: nat | Agree(a.log, lead, x) ensures Agree(c.log, lead, x) && Agree(c.log, a.log, x) {
      assert Agree(b.log, lead, x);
    }
  }

  /** Whatever order, loss and repetition the requests of one leader arrive with, the follower's
      log ends up equal to the leader's through the end of every request it accepted. */
  lemma {:induction false} EveryOrder(r: Repairs, leads: Leads, nd: Node, t: nat, requests: seq<AppendArgs>)
    requires r.mergeAtStart && LeadsOk(leads) && t in leads && Follows(leads, nd, t)
    requires forall k :: 0 <= k < |requests| ==> requests[k].term == t && Excerpt(leads[t].log, requests[k])
    ensures var nd' := HandleAll(r, nd, requests); var lead := leads[t].log;
      && Follows(leads, nd', t)
      && KeepsShared(nd, nd', lead)
      && forall k: nat :: k < |requests| && Accepted(r, nd, requests, k) ==>
           Agree(nd'.log, lead, LastSent(requests[k]) + 1)
  {
    hide Excerpt, LeadsOk, Rooted, HandleAppend, Agree;
    if requests != [] {
      var init, last := requests[..|requests| - 1], requests[|requests| - 1];
      EveryOrder(r, leads, nd, t, init);
      var mid := HandleAll(r, nd, init);
      HandleOne(r, leads, mid, last);
      KeepsSharedTrans(nd, mid, HandleAll(r, nd, requests), leads[t].log);
      forall k: nat | k < |requests| && Accepted(r, nd, requests, k)
        ensures Agree(HandleAll(r, nd, requests).log, leads[t].log, LastSent(requests[k]) + 1)
      {
        if k < |init| {
          assert init[..k] == requests[..k];
          assert Accepted(r, nd, init, k);
        } else {
          assert requests[..k] == init;
        }
      }
    } else {
      forall x: nat | Agree(nd.log, leads[t].log, x) ensures Agree(nd.log, nd.log, x) {
        SelfAgree(nd.log, leads[t].log, x);
      }
    }
  }

  lemma SelfAgree(a: Log, b: Log, x: nat)
    requires Agree(a, b, x)
    ensures Agree(a, a, x)
  {}

  /** A request whose entries are already there, a late or a repeated one, changes no entry: what
      lies beyond it is not erased. */
  lemma {:induction false} HeldEntriesStay(log: Log, at: nat, es: Log)
    requires at + |es| <= |log| && log[at..at + |es|] == es
    ensures Merge(log, at, es) == log
    decreases es
  {
    if es != [] {
      assert log[at + 1..at + 1 + |es[1..]|] == log[at..at + |es|][1..] == es[1..];
      assert log[at] == log[at..at + |es|][0] == es[0];
      HeldEntriesStay(log, at + 1, es[1..]);
    }
  }

  /** Under log matching, comparing terms is comparing entries. */
  lemma TermsDecide(leads: Leads, log: Log, lead: Log, k: nat)
    requires Rooted(leads, log) && Rooted(leads, lead) && k < |log| && k < |lead|
    ensures log[k].term == lead[k].term <==> log[k] == lead[k]
  {
    if log[k].term == lead[k].term {
      EqualTermsAgree(leads, log, lead, k);
      AgreeAt(log, lead, k + 1, k);
    }
  }
}

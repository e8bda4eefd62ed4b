/** Services of several replicas, each fed by the commit channel of its Raft node. */
module Replicas {
  import opened RaftTypes
  import opened Cluster
  import opened Safety
  import opened Subscriptions

  /** The service, after these events, has taken entries of this node's commit channel. */
  ghost predicate FedBy(events: seq<Event>, nd: Node) {
    Run(events).taken <= nd.sent
  }

  lemma FedInOrder(r: Repairs, n: nat, steps: seq<Step>, i: nat, events: seq<Event>)
    requires Covered(r, steps) && i < n && |Exec(r, n, steps).nodes| == n
    requires FedBy(events, Exec(r, n, steps).nodes[i])
    ensures InOrder(Run(events).taken)
  {
    hide Exec, Run;
    DeliveredInOrder(r, n, steps, i);
    var sent, taken := Exec(r, n, steps).nodes[i].sent, Run(events).taken;
    forall k | 0 <= k < |taken| ensures taken[k].index == k {
      assert taken[k] == sent[k];
    }
  }

  /** The commands two services have run agree position by position. */
  ghost predicate SameCommands(a: seq<CommitEntry>, b: seq<CommitEntry>) {
    forall k :: 0 <= k < |a| && k < |b| ==> a[k].command == b[k].command
  }

  lemma SameAnswers(a: seq<CommitEntry>, b: seq<CommitEntry>, k: nat)
    requires SameCommands(a, b) && k < |a| && k < |b|
    ensures AnswerEntry(a, k).command == AnswerEntry(b, k).command
  {
    assert CommandsOf(a)[..k] == CommandsOf(b)[..k];
  }

  lemma FedSame(r: Repairs, n: nat, steps: seq<Step>, more: seq<Step>, i: nat, j: nat, ei: seq<Event>, ej: seq<Event>)
    requires Covered(r, steps + more) && i < n && j < n
    requires var s, s' := Exec(r, n, steps), Exec(r, n, steps + more);
      && |s.nodes| == n && |s'.nodes| == n
      && FedBy(ei, s.nodes[i]) && FedBy(ej, s'.nodes[j])
    ensures SameCommands(Run(ei).taken, Run(ej).taken)
    ensures InOrder(Run(ei).taken) && InOrder(Run(ej).taken)
  {
    hide Exec, Run, InOrder;
    var s, s' := Exec(r, n, steps), Exec(r, n, steps + more);
    Continued(r, n, steps, more);
    FedInOrder(r, n, steps, i, ei);
    FedInOrder(r, n, steps + more, j, ej);
    var a, b := Run(ei).taken, Run(ej).taken;
    forall k | 0 <= k < |a| && k < |b| ensures a[k].command == b[k].command {
      SameStream(r, n, steps, more, i, j, k);
      assert a[k] == s.nodes[i].sent[k] && b[k] == s'.nodes[j].sent[k];
    }
  }

  /** Replicas that have run equally many entries hold the same store, at whatever moments of the
      run they are looked at, and also when one is the restart of the other. */
  lemma StoresAgree(r: Repairs, n: nat, steps: seq<Step>, more: seq<Step>, i: nat, j: nat, ei: seq<Event>, ej: seq<Event>)
    requires Covered(r, steps + more) && i < n && j < n
    requires var s, s' := Exec(r, n, steps), Exec(r, n, steps + more);
      && |s.nodes| == n && |s'.nodes| == n
      && FedBy(ei, s.nodes[i]) && FedBy(ej, s'.nodes[j])
    requires |Run(ei).taken| == |Run(ej).taken|
    ensures Run(ei).table == Run(ej).table
  {
    hide Exec, Run, InOrder;
    FedSame(r, n, steps, more, i, j, ei, ej);
    StoreIsFold(ei);
    StoreIsFold(ej);
    assert CommandsOf(Run(ei).taken) == CommandsOf(Run(ej).taken);
  }

  /** Two subscriptions for the same index that are both answered get the same command with the same
      result, on whichever replicas and in whichever incarnations of them. */
  lemma AnswersAgree(r: Repairs, n: nat, steps: seq<Step>, more: seq<Step>, i: nat, j: nat,
                     ei: seq<Event>, ej: seq<Event>, g: nat, h: nat)
    requires Covered(r, steps + more) && i < n && j < n
    requires var s, s' := Exec(r, n, steps), Exec(r, n, steps + more);
      && |s.nodes| == n && |s'.nodes| == n
      && FedBy(ei, s.nodes[i]) && FedBy(ej, s'.nodes[j])
    requires g < |Run(ei).chans| && h < |Run(ej).chans|
    requires Run(ei).chans[g].index == Run(ej).chans[h].index
    requires Run(ei).chans[g].sent != [] && Run(ej).chans[h].sent != []
    ensures |Run(ei).chans[g].sent| == |Run(ej).chans[h].sent| == 1
    ensures Run(ei).chans[g].sent[0].command == Run(ej).chans[h].sent[0].command
  {
    hide Exec, Run, InOrder, AnswerEntry;
    FedSame(r, n, steps, more, i, j, ei, ej);
    Routing(ei, g);
    Routing(ej, h);
    SameAnswers(Run(ei).taken, Run(ej).taken, Run(ei).chans[g].index);
  }
}

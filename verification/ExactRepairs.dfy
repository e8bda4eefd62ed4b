/** The exact repairs that the guarantees need: for every choice of repairs, a guarantee holds of all
    runs, or some run breaks it. */
module ExactRepairs {
  import opened RaftTypes
  import opened Cluster
  import opened Votes
  import opened Leaders
  import opened Safety
  import opened UnrepairedStart
  import opened Runs
  import opened BrokenRuns
  import opened LateMessages
  import opened LostTerm

  // ---------------------------------------------------------------- votes and elections

  /** No node has granted its vote of one term to two candidates. */
  ghost predicate OneVote(s: State) {
    forall x, y ::
      x in s.voteAnswers && y in s.voteAnswers && x.reply.voteGranted && y.reply.voteGranted
      && x.call.to == y.call.to && x.reply.term == y.reply.term
      ==> x.call.args.candidateId == y.call.args.candidateId
  }

  /** Votes to peers are durable over all runs, crashes included, exactly when vote replies count only
      in the term of their election. */
  lemma OneVoteExactly(r: Repairs)
    ensures (forall n: nat, steps :: OneVote(Exec(r, n, steps))) <==> r.sameElection
  {
    hide Exec, Reaches;
    if r.sameElection {
      forall n: nat, steps ensures OneVote(Exec(r, n, steps)) {
        var s := Exec(r, n, steps);
        forall x, y | x in s.voteAnswers && y in s.voteAnswers && x.reply.voteGranted && y.reply.voteGranted
          && x.call.to == y.call.to && x.reply.term == y.reply.term
          ensures x.call.args.candidateId == y.call.args.candidateId
        {
          OneVotePerTerm(r, n, steps, x, y);
        }
      }
    } else {
      var s, x, y := SecondVote(r);
      var steps := ReachedBy(r, 3, s, false);
      assert !OneVote(Exec(r, 3, steps));
    }
  }

  ghost predicate OneWinner(s: State) {
    forall v, w :: v in s.wins && w in s.wins && v.term == w.term ==> v.id == w.id
  }

  lemma WinsOnce(r: Repairs, n: nat, steps: seq<Step>)
    requires Electing(r, steps)
    ensures OneWinner(Exec(r, n, steps))
  {
    hide Exec;
    var s := Exec(r, n, steps);
    forall v, w | v in s.wins && w in s.wins && v.term == w.term ensures v.id == w.id {
      ElectionSafety(r, n, steps, v, w);
    }
  }

  /** Election safety holds of all crash-free runs exactly when vote replies count only in the term of
      their election, and of all runs exactly when elections are also written to storage. */
  lemma ElectionSafetyExactly(r: Repairs)
    ensures (forall n: nat, steps :: CrashFree(steps) ==> OneWinner(Exec(r, n, steps))) <==> r.sameElection
    ensures (forall n: nat, steps :: OneWinner(Exec(r, n, steps))) <==> r.sameElection && r.persistAlways
  {
    hide Exec, Reaches;
    if r.sameElection {
      forall n: nat, steps | CrashFree(steps) || r.persistAlways ensures OneWinner(Exec(r, n, steps)) {
        WinsOnce(r, n, steps);
      }
      if !r.persistAlways {
        var s := ForgottenVote(r);
        var steps := ReachedBy(r, 3, s, true);
        assert Win(0, 1) in s.wins && Win(2, 1) in s.wins;
        assert !OneWinner(Exec(r, 3, steps));
      }
    } else {
      var s := TwoLeaders(r);
      var steps := ReachedBy(r, 3, s, false);
      assert Win(0, 2) in s.wins && Win(1, 2) in s.wins;
      assert !OneWinner(Exec(r, 3, steps));
    }
  }

  // ---------------------------------------------------------------- logs

  /** Logs with equal terms at an index are the same up to it. */
  ghost predicate LogsMatch(s: State) {
    forall i, j, k ::
      0 <= i < |s.nodes| && 0 <= j < |s.nodes| && 0 <= k < |s.nodes[i].log| && k < |s.nodes[j].log|
      && s.nodes[i].log[k].term == s.nodes[j].log[k].term
      ==> s.nodes[i].log[..k + 1] == s.nodes[j].log[..k + 1]
  }

  /** Log matching holds of all crash-free runs exactly when vote replies count only in the term of
      their election. */
  lemma LogMatchingExactly(r: Repairs)
    ensures (forall n: nat, steps :: CrashFree(steps) ==> LogsMatch(Exec(r, n, steps))) <==> r.sameElection
  {
    hide Exec, Reaches;
    if r.sameElection {
      forall n: nat, steps | CrashFree(steps) ensures LogsMatch(Exec(r, n, steps)) {
        CoreReached(r, n, steps);
        var s := Exec(r, n, steps);
        forall i, j, k | 0 <= i < |s.nodes| && 0 <= j < |s.nodes| && 0 <= k < |s.nodes[i].log| && k < |s.nodes[j].log|
          && s.nodes[i].log[k].term == s.nodes[j].log[k].term
          ensures s.nodes[i].log[..k + 1] == s.nodes[j].log[..k + 1]
        {
          LogMatching(r, n, steps, i, j, k);
        }
      }
    } else {
      var s := TwoLogs(r);
      var steps := ReachedBy(r, 3, s, false);
      assert s.nodes[0].log[..1][0] != s.nodes[1].log[..1][0];
      assert s.nodes[0].log[0].term == s.nodes[1].log[0].term;
      assert !LogsMatch(s);
    }
  }

  /** No term has entries in the logs of two nodes; so no entry is in the logs of two nodes. */
  ghost predicate NothingShared(s: State) {
    forall i, j, e, f ::
      0 <= i < |s.nodes| && 0 <= j < |s.nodes| && i != j && e in s.nodes[i].log && f in s.nodes[j].log
      ==> e.term != f.term
  }

  /** No two nodes share a term in their logs, over all crash-free runs, exactly when vote replies
      count only in the term of their election and the start of the log is as written. */
  lemma NothingSharedExactly(r: Repairs)
    ensures (forall n: nat, steps :: CrashFree(steps) ==> NothingShared(Exec(r, n, steps)))
      <==> r.sameElection && !r.mergeAtStart
  {
    hide Exec, Reaches;
    if r.sameElection && !r.mergeAtStart {
      forall n: nat, steps | CrashFree(steps) ensures NothingShared(Exec(r, n, steps)) {
        CoreReached(r, n, steps);
        var s := Exec(r, n, steps);
        forall i, j, e, f | 0 <= i < |s.nodes| && 0 <= j < |s.nodes| && i != j
          && e in s.nodes[i].log && f in s.nodes[j].log
          ensures e.term != f.term
        {
          NothingReplicates(r, n, steps, i, j, e, f);
        }
      }
    } else {
      var s: State;
      if r.mergeAtStart { s := Replicates(r); } else { s := TwoLogs(r); }
      var steps := ReachedBy(r, 3, s, false);
      assert s.nodes[0].log[0] in s.nodes[0].log && s.nodes[1].log[0] in s.nodes[1].log;
      assert !NothingShared(s);
    }
  }

  // ---------------------------------------------------------------- state machine safety

  lemma NeverSplit(r: Repairs, n: nat, steps: seq<Step>)
    requires Covered(r, steps)
    ensures !Split(Exec(r, n, steps))
  {
    hide Exec;
    var s := Exec(r, n, steps);
    forall d, e | d in s.delivered && e in s.delivered && d.entry.index == e.entry.index
      ensures d.entry.command == e.entry.command
    {
      StateMachineSafety(r, n, steps, d, e);
    }
  }

  /** A crash-free run that ends in a split, for every choice that lacks one of the four repairs. */
  lemma SplitsWithout(r: Repairs) returns (n: nat, steps: seq<Step>)
    requires !Sound(r)
    ensures CrashFree(steps) && Split(Exec(r, n, steps))
  {
    hide Exec, Reaches, Split;
    var s: State;
    if !r.mergeAtStart {
      n := 3;
      s := LostEntry(r);
    } else if !r.sameElection {
      n := 3;
      s := TwoCommits(r);
    } else if !r.freshSnapshot {
      n := 5;
      s := StaleSnapshot(r);
    } else {
      n := 5;
      s := LateReply(r);
    }
    steps := ReachedBy(r, n, s, false);
  }

  /** State machine safety holds of all crash-free runs exactly with the four repairs of Sound, and of
      all runs exactly when elections and step-downs are also written to storage. */
  lemma StateMachineSafetyExactly(r: Repairs)
    ensures (forall n: nat, steps :: CrashFree(steps) ==> !Split(Exec(r, n, steps))) <==> Sound(r)
    ensures (forall n: nat, steps :: !Split(Exec(r, n, steps))) <==> Sound(r) && r.persistAlways
  {
    hide Exec, Reaches, Split;
    if Sound(r) {
      forall n: nat, steps | CrashFree(steps) || r.persistAlways ensures !Split(Exec(r, n, steps)) {
        NeverSplit(r, n, steps);
      }
      if !r.persistAlways {
        var s := LosesTerm(r);
        var steps := ReachedBy(r, 5, s, true);
        assert Split(Exec(r, 5, steps));
      }
    } else {
      var n, steps := SplitsWithout(r);
      assert CrashFree(steps) && Split(Exec(r, n, steps));
    }
  }
}

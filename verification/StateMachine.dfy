/** The replicated state machine of the key-value service (internal/kv/server/store.go) and the
    answers that belong to a list of committed commands. */
module StateMachine {
  import opened Commands
  import opened RaftTypes

  type Table = map<string, string>

  /** What the updater does to the store for one command. */
  function Effect(t: Table, c: Command): Table {
    if c.kind.CommandPut? then t[c.key := c.value] else t
  }

  /** The store after these commands, from an empty one. */
  function Fold(cs: seq<Command>): Table {
    if cs == [] then map[] else Effect(Fold(cs[..|cs| - 1]), cs[|cs| - 1])
  }

  function ValueOf(t: Table, key: string): string {
    if key in t then t[key] else ""
  }

  /** The command with its result filled in from the store it runs on. */
  function Answered(t: Table, c: Command): Command {
    c.(resultValue := ValueOf(t, c.key), resultFound := c.key in t)
  }

  function AnswerAt(cs: seq<Command>, i: nat): Command
    requires i < |cs|
  {
    Answered(Fold(cs[..i]), cs[i])
  }

  /** The last Put of the key before position i, or -1. */
  function LastPut(cs: seq<Command>, i: nat, key: string): (k: Index)
    requires i <= |cs|
    ensures k < i && (k >= 0 ==> cs[k].kind.CommandPut? && cs[k].key == key)
    ensures forall j: nat :: k < j < i ==> !(cs[j].kind.CommandPut? && cs[j].key == key)
  {
    if i == 0 then -1
    else if cs[i - 1].kind.CommandPut? && cs[i - 1].key == key then i - 1
    else LastPut(cs, i - 1, key)
  }

  lemma {:induction false} FoldIsLastPut(cs: seq<Command>, i: nat, key: string)
    requires i <= |cs|
    ensures var k := LastPut(cs, i, key); var t := Fold(cs[..i]);
      && (key in t <==> k >= 0)
      && (k >= 0 ==> t[key] == cs[k].value)
  {
    if i > 0 {
      FoldIsLastPut(cs, i - 1, key);
      assert cs[..i][..i - 1] == cs[..i - 1];
    }
  }

  /** The result attached to position i is the value of the last Put of its key before i. */
  lemma AnswerIsLastPut(cs: seq<Command>, i: nat)
    requires i < |cs|
    ensures var k, a := LastPut(cs, i, cs[i].key), AnswerAt(cs, i);
      && a.resultFound == (k >= 0)
      && a.resultValue == (if k >= 0 then cs[k].value else "")
      && a.(resultFound := cs[i].resultFound, resultValue := cs[i].resultValue) == cs[i]
  {
    FoldIsLastPut(cs, i, cs[i].key);
  }

  /** Answers depend only on the commands up to their position. */
  lemma AnswerOfPrefix(cs: seq<Command>, more: seq<Command>, i: nat)
    requires i < |cs| && cs <= more
    ensures AnswerAt(cs, i) == AnswerAt(more, i)
  {
    assert cs[..i] == more[..i];
  }

  class DataStore {
    var data: Table

    constructor ()
      ensures data == Fold([])
    {
      data := map[];
    }

    method Get(key: string) returns (value: string, ok: bool)
      ensures ok == (key in data) && value == ValueOf(data, key)
    {
      ok := key in data;
      value := if ok then data[key] else "";
    }

    method Put(key: string, value: string) returns (previous: string, ok: bool)
      modifies this
      ensures data == old(data)[key := value]
      ensures ok == (key in old(data)) && previous == ValueOf(old(data), key)
    {
      ok := key in data;
      previous := if ok then data[key] else "";
      data := data[key := value];
    }
  }
}

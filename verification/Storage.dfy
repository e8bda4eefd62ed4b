/** What survives a crash: MapStorage (internal/raft/storage.go) and the three keys a node keeps
    in it (internal/raft/persist.go). */
module Storage {
  import opened RaftTypes
  import opened Commands

  /** A gob-encoded value; decoding returns what was encoded. */
  datatype Blob = GobInt(n: int) | GobLog(log: Log)

  const TERM_KEY := "currentTerm"
  const VOTE_KEY := "votedFor"
  const LOG_KEY := "log"

  ghost predicate Complete(m: map<string, Blob>) {
    && TERM_KEY in m && m[TERM_KEY].GobInt? && m[TERM_KEY].n >= 0
    && VOTE_KEY in m && m[VOTE_KEY].GobInt?
    && LOG_KEY in m && m[LOG_KEY].GobLog?
  }

  /** The persistent state that a storage holds. */
  ghost function DiskOf(m: map<string, Blob>): Disk {
    if Complete(m) then Saved(m[TERM_KEY].n, m[VOTE_KEY].n, m[LOG_KEY].log) else Blank
  }

  class MapStorage {
    var m: map<string, Blob>

    constructor ()
      ensures m == map[]
    {
      m := map[];
    }

    method Get(key: string) returns (value: Option<Blob>)
      ensures value == if key in m then Some(m[key]) else None
    {
      value := if key in m then Some(m[key]) else None;
    }

    method Set(key: string, value: Blob)
      modifies this
      ensures m == old(m)[key := value]
    {
      m := m[key := value];
    }

    method HasData() returns (b: bool)
      ensures b <==> m != map[]
    {
      b := |m| > 0;
    }
  }
}

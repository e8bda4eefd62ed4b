/** The in-memory log (internal/logger/zlog.go): a ring of cells that is a bounded FIFO. */
module LogRing {
  import opened Commands

  datatype LogEntry = LogEntry(data: seq<bv8>)

  // ---------------------------------------------------------------- the bounded FIFO

  function Pushed(items: seq<LogEntry>, capacity: nat, e: LogEntry): seq<LogEntry>
    requires |items| <= capacity && capacity > 0
  {
    (if |items| < capacity then items else items[1..]) + [e]
  }

  function FlushCount(items: seq<LogEntry>, limit: int): (c: nat)
    ensures c <= |items|
  {
    if limit <= 0 then 0 else if limit < |items| then limit else |items|
  }

  // ---------------------------------------------------------------- the ring of cells

  /** The cell of the k-th oldest of `size` entries: size - k places behind the head. */
  function CellOf(capacity: nat, pos: nat, size: nat, k: nat): (c: nat)
    requires pos < capacity && k < size <= capacity
    ensures c < capacity
  {
    if pos + k >= size then pos + k - size else pos + k + capacity - size
  }

  ghost predicate RingOk(cells: seq<Option<LogEntry>>, pos: nat, size: nat) {
    && pos < |cells| && size <= |cells|
    && forall k :: 0 <= k < size ==> cells[CellOf(|cells|, pos, size, k)].Some?
  }

  /** The retained entries, oldest first. */
  ghost function Items(cells: seq<Option<LogEntry>>, pos: nat, size: nat): (items: seq<LogEntry>)
    requires RingOk(cells, pos, size)
    ensures |items| == size
    ensures forall k :: 0 <= k < size ==> items[k] == cells[CellOf(|cells|, pos, size, k)].value
  {
    seq(size, k requires 0 <= k < size => cells[CellOf(|cells|, pos, size, k)].value)
  }

  /** ring.Next, with the cells numbered around the ring. */
  function Next(capacity: nat, pos: nat): (q: nat)
    requires pos < capacity
    ensures q < capacity
  {
    if pos + 1 == capacity then 0 else pos + 1
  }

  lemma WriteCell(cells: seq<Option<LogEntry>>, pos: nat, size: nat, e: LogEntry)
    requires RingOk(cells, pos, size)
    ensures var cells', size' := cells[pos := Some(e)], if size < |cells| then size + 1 else size;
      && RingOk(cells', Next(|cells|, pos), size')
      && Items(cells', Next(|cells|, pos), size') == Pushed(Items(cells, pos, size), |cells|, e)
  {
    var n, pos' := |cells|, Next(|cells|, pos);
    var cells', size' := cells[pos := Some(e)], if size < n then size + 1 else size;
    var items := Pushed(Items(cells, pos, size), n, e);
    forall k | 0 <= k < size' ensures cells'[CellOf(n, pos', size', k)] == Some(items[k]) {
      if k < size' - 1 {
        var was := if size < n then k else k + 1;
        assert CellOf(n, pos', size', k) == CellOf(n, pos, size, was);
        assert items[k] == Items(cells, pos, size)[was];
      }
    }
  }

  lemma RingBounds(cells: seq<Option<LogEntry>>, pos: nat, size: nat)
    requires RingOk(cells, pos, size)
    ensures pos < |cells| && size <= |cells|
  {}

  lemma ClearOldest(cells: seq<Option<LogEntry>>, pos: nat, size: nat)
    requires RingOk(cells, pos, size) && size > 0
    ensures var oldest := CellOf(|cells|, pos, size, 0); var cells' := cells[oldest := None];
      && RingOk(cells', pos, size - 1)
      && cells[oldest] == Some(Items(cells, pos, size)[0])
      && Items(cells', pos, size - 1) == Items(cells, pos, size)[1..]
      && (size > 1 ==> Next(|cells|, oldest) == CellOf(|cells|, pos, size - 1, 0))
  {
    var n, left, oldest := |cells|, size - 1, CellOf(|cells|, pos, size, 0);
    var cells', rest := cells[oldest := None], Items(cells, pos, size)[1..];
    forall k | 0 <= k < left ensures cells'[CellOf(n, pos, left, k)] == Some(rest[k]) {
      assert CellOf(n, pos, left, k) == CellOf(n, pos, size, k + 1);
    }
  }

  /** Taking the oldest of the entries all[i..] leaves all[i + 1..]. */
  lemma TakeOne(cells: seq<Option<LogEntry>>, pos: nat, size: nat, all: seq<LogEntry>, i: nat)
    requires RingOk(cells, pos, size) && i < |all| && size == |all| - i && Items(cells, pos, size) == all[i..]
    ensures pos < |cells| && size <= |cells|
    ensures var oldest := CellOf(|cells|, pos, size, 0); var cells' := cells[oldest := None];
      && cells[oldest] == Some(all[i])
      && all[..i + 1] == all[..i] + [all[i]]
      && RingOk(cells', pos, size - 1)
      && Items(cells', pos, size - 1) == all[i + 1..]
      && (size > 1 ==> Next(|cells|, oldest) == CellOf(|cells|, pos, size - 1, 0))
  {
    hide CellOf, Items, RingOk, Next;
    RingBounds(cells, pos, size);
    ClearOldest(cells, pos, size);
    assert all[i..][1..] == all[i + 1..];
  }

  class MemoryLogger {
    const maxLogs: nat
    const logs: array<Option<LogEntry>>
    var pos: nat
    var currentSize: nat

    /** History: the calls made so far. */
    ghost var calls: seq<Call>

    ghost predicate Valid()
      reads this, logs
    {
      && maxLogs == logs.Length > 0
      && RingOk(logs[..], pos, currentSize)
      && Contents() == After(maxLogs, calls).items
    }

    ghost function Contents(): seq<LogEntry>
      requires RingOk(logs[..], pos, currentSize)
      reads this, logs
    {
      Items(logs[..], pos, currentSize)
    }

    constructor (maxLogs: int)
      ensures Valid() && fresh(logs) && Contents() == [] && calls == []
      ensures this.maxLogs == if maxLogs <= 0 then 150 else maxLogs
    {
      var size := if maxLogs <= 0 then 150 else maxLogs;
      this.maxLogs := size;
      logs := new Option<LogEntry>[size](_ => None);
      pos := 0;
      currentSize := 0;
      calls := [];
    }

    /** The caller's buffer is copied into the log. */
    method Write(p: array<bv8>) returns (n: nat)
      requires Valid()
      modifies this, logs
      ensures Valid() && n == p.Length
      ensures Contents() == Pushed(old(Contents()), maxLogs, LogEntry(old(p[..])))
      ensures calls == old(calls) + [WriteCall(LogEntry(old(p[..])))]
    {
      var entry := LogEntry(p[..]);
      n := p.Length;
      WriteCell(logs[..], pos, currentSize, entry);
      if currentSize < maxLogs {
        currentSize := currentSize + 1;
      }
      logs[pos] := Some(entry);
      pos := Next(maxLogs, pos);
      calls := calls + [WriteCall(entry)];
      CallAppended(maxLogs, old(calls), WriteCall(entry));
    }

    method GetAndFlushLogs(limit: int) returns (result: seq<LogEntry>)
      requires Valid()
      modifies this, logs
      ensures Valid()
      ensures result == old(Contents())[..FlushCount(old(Contents()), limit)]
      ensures limit <= 0 ==> result == []
      ensures limit > 0 ==> |result| <= limit && (|result| == limit || Contents() == [])
      ensures old(Contents()) == result + Contents()
      ensures Contents() == old(Contents())[|result|..]
      ensures calls == old(calls) + [FlushCall(limit)]
      ensures After(maxLogs, calls).flushed == After(maxLogs, old(calls)).flushed + result
    {
      hide After, CellOf, Items, RingOk, Record;
      RecordFlush(maxLogs, calls, limit);
      calls := calls + [FlushCall(limit)];
      result := [];
      if limit <= 0 || currentSize == 0 {
        return;
      }
      result := TakeOldest(if limit < currentSize then limit else currentSize);
      currentSize := currentSize - |result|;
    }

    /** The loop of GetAndFlushLogs: it empties the cells of the oldest entries. */
    method TakeOldest(count: nat) returns (result: seq<LogEntry>)
      requires RingOk(logs[..], pos, currentSize) && logs.Length == maxLogs && 0 < count <= currentSize
      modifies logs
      ensures result == old(Contents())[..count]
      ensures RingOk(logs[..], pos, currentSize - count)
      ensures Items(logs[..], pos, currentSize - count) == old(Contents())[count..]
    {
      hide CellOf, Items, RingOk, Next;
      ghost var before := Contents();
      RingBounds(logs[..], pos, currentSize);
      result := [];
      var oldestPos := CellOf(maxLogs, pos, currentSize, 0);
      var i := 0;
      while i < count
        invariant 0 <= i <= count && result == before[..i]
        invariant i < currentSize ==> oldestPos == CellOf(maxLogs, pos, currentSize - i, 0)
        invariant RingOk(logs[..], pos, currentSize - i)
        invariant Items(logs[..], pos, currentSize - i) == before[i..]
      {
        ghost var cells := logs[..];
        TakeOne(cells, pos, currentSize - i, before, i);
        if logs[oldestPos] == None {
          assert false; // a retained entry is never nil
          break;
        }
        result := result + [logs[oldestPos].value];
        logs[oldestPos] := None;
        assert logs[..] == cells[oldestPos := None];
        oldestPos := Next(maxLogs, oldestPos);
        i := i + 1;
      }
    }

    method HasLogs() returns (b: bool)
      requires Valid()
      ensures b <==> Contents() != []
    {
      b := currentSize > 0;
    }
  }

  // ---------------------------------------------------------------- sequences of calls

  datatype Call = WriteCall(entry: LogEntry) | FlushCall(limit: int)

  /** The entries retained after some calls, with history: everything written and everything flushed,
      in order, and for every entry no longer retained whether it was flushed (or overwritten). */
  datatype Ledger = Ledger(items: seq<LogEntry>, written: seq<LogEntry>, flushed: seq<LogEntry>, fates: seq<bool>)

  function Record(capacity: nat, g: Ledger, call: Call): (g': Ledger)
    requires |g.items| <= capacity && capacity > 0
    ensures |g'.items| <= capacity
  {
    match call
    case WriteCall(e) =>
      g.(items := Pushed(g.items, capacity, e), written := g.written + [e],
         fates := g.fates + if |g.items| < capacity then [] else [false])
    case FlushCall(limit) =>
      var c := FlushCount(g.items, limit);
      g.(items := g.items[c..], flushed := g.flushed + g.items[..c], fates := g.fates + seq(c, _ => true))
  }

  function After(capacity: nat, calls: seq<Call>): (g: Ledger)
    requires capacity > 0
    ensures |g.items| <= capacity
  {
    if calls == [] then Ledger([], [], [], [])
    else Record(capacity, After(capacity, calls[..|calls| - 1]), calls[|calls| - 1])
  }

  lemma CallAppended(capacity: nat, calls: seq<Call>, call: Call)
    requires capacity > 0
    ensures After(capacity, calls + [call]) == Record(capacity, After(capacity, calls), call)
  {
    assert (calls + [call])[..|calls|] == calls;
  }

  /** A flush hands out the oldest retained entries, as many as there are up to the limit, and keeps the rest. */
  lemma FlushMeaning(capacity: nat, calls: seq<Call>, limit: int) returns (flushed: seq<LogEntry>)
    requires capacity > 0
    ensures var g, g' := After(capacity, calls), After(capacity, calls + [FlushCall(limit)]);
      && g'.flushed == g.flushed + flushed && g.items == flushed + g'.items && g'.written == g.written
      && (limit <= 0 ==> flushed == [])
      && (limit > 0 ==> |flushed| <= limit && (|flushed| == limit || g'.items == []))
  {
    hide After;
    CallAppended(capacity, calls, FlushCall(limit));
    var items := After(capacity, calls).items;
    flushed := items[..FlushCount(items, limit)];
  }

  /** A write retains the new entry as the newest; a full log gives up its oldest, any other nothing. */
  lemma WriteMeaning(capacity: nat, calls: seq<Call>, e: LogEntry)
    requires capacity > 0
    ensures var g, g' := After(capacity, calls), After(capacity, calls + [WriteCall(e)]);
      && g'.flushed == g.flushed && g'.written == g.written + [e]
      && (if |g.items| == capacity then [g.items[0]] + g'.items == g.items + [e] else g'.items == g.items + [e])
  {
    hide After;
    CallAppended(capacity, calls, WriteCall(e));
  }

  lemma RecordFlush(capacity: nat, calls: seq<Call>, limit: int)
    requires capacity > 0
    ensures var g, g' := After(capacity, calls), After(capacity, calls + [FlushCall(limit)]);
      && g'.items == g.items[FlushCount(g.items, limit)..]
      && g'.flushed == g.flushed + g.items[..FlushCount(g.items, limit)]
  {
    CallAppended(capacity, calls, FlushCall(limit));
  }

  /** The entries whose fate is true, in order. */
  function Pick(es: seq<LogEntry>, fates: seq<bool>): (out: seq<LogEntry>)
    requires |fates| <= |es|
  {
    if fates == [] then []
    else
      var last := |fates| - 1;
      Pick(es, fates[..last]) + if fates[last] then [es[last]] else []
  }

  /** How many entries have the fate b. */
  function Count(fates: seq<bool>, b: bool): nat {
    if fates == [] then 0
    else Count(fates[..|fates| - 1], b) + if fates[|fates| - 1] == b then 1 else 0
  }

  lemma {:induction false} PickLonger(es: seq<LogEntry>, more: seq<LogEntry>, fates: seq<bool>)
    requires |fates| <= |es|
    ensures Pick(es + more, fates) == Pick(es, fates)
  {
    if fates != [] { PickLonger(es, more, fates[..|fates| - 1]); }
  }

  lemma {:induction false} PickRun(es: seq<LogEntry>, fates: seq<bool>, c: nat)
    requires |fates| + c <= |es|
    ensures Pick(es, fates + seq(c, _ => true)) == Pick(es, fates) + es[|fates|..|fates| + c]
    ensures Count(fates + seq(c, _ => true), false) == Count(fates, false)
  {
    var run := fates + seq(c, _ => true);
    if c == 0 {
      assert run == fates;
    } else {
      PickRun(es, fates, c - 1);
      assert run[..|run| - 1] == fates + seq(c - 1, _ => true);
      assert es[|fates|..|fates| + c] == es[|fates|..|fates| + c - 1] + [es[|fates| + c - 1]];
    }
  }

  lemma DropFate(es: seq<LogEntry>, fates: seq<bool>)
    requires |fates| < |es|
    ensures Pick(es, fates + [false]) == Pick(es, fates)
  {
    assert (fates + [false])[..|fates|] == fates;
  }

  lemma CountOneMore(fates: seq<bool>, b: bool)
    ensures Count(fates + [b], false) == Count(fates, false) + if b then 0 else 1
  {
    assert (fates + [b])[..|fates|] == fates;
  }

  lemma {:induction false} CountPick(es: seq<LogEntry>, fates: seq<bool>)
    requires |fates| <= |es|
    ensures |Pick(es, fates)| + Count(fates, false) == |fates|
  {
    if fates != [] { CountPick(es, fates[..|fates| - 1]); }
  }

  ghost predicate LedgerOk(g: Ledger) {
    && |g.written| == |g.fates| + |g.items|
    && g.items == g.written[|g.fates|..]
    && g.flushed == Pick(g.written, g.fates)
  }

  lemma RecordOk(capacity: nat, g: Ledger, call: Call)
    requires capacity > 0 && |g.items| <= capacity && LedgerOk(g)
    ensures LedgerOk(Record(capacity, g, call))
  {
    hide Pick;
    match call
    case WriteCall(e) =>
      PickLonger(g.written, [e], g.fates);
      DropFate(g.written + [e], g.fates);
      assert g.fates + [] == g.fates;
    case FlushCall(limit) =>
      PickRun(g.written, g.fates, FlushCount(g.items, limit));
  }

  /** For any capacity and any calls: what is retained is the newest stretch of what was written;
      what was flushed is, in write order, what was written and neither retained nor overwritten; and
      nothing is flushed twice or lost without being overwritten. */
  lemma {:induction false} FifoConservation(capacity: nat, calls: seq<Call>)
    requires capacity > 0
    ensures var g := After(capacity, calls);
      && |g.items| <= capacity
      && |g.written| == |g.fates| + |g.items| && g.items == g.written[|g.fates|..]
      && g.flushed == Pick(g.written, g.fates)
      && |g.written| == |g.flushed| + Count(g.fates, false) + |g.items|
  {
    if calls != [] {
      FifoConservation(capacity, calls[..|calls| - 1]);
      RecordOk(capacity, After(capacity, calls[..|calls| - 1]), calls[|calls| - 1]);
    }
    CountPick(After(capacity, calls).written, After(capacity, calls).fates);
  }

  /** An entry is overwritten by a write to a full log and by nothing else. */
  lemma LostByFullWrite(capacity: nat, calls: seq<Call>, call: Call)
    requires capacity > 0
    ensures var g, g' := After(capacity, calls), After(capacity, calls + [call]);
      Count(g'.fates, false) == Count(g.fates, false)
        + if call.WriteCall? && |g.items| == capacity then 1 else 0
  {
    CallAppended(capacity, calls, call);
    FifoConservation(capacity, calls);
    var g := After(capacity, calls);
    match call
    case WriteCall(e) =>
      CountOneMore(g.fates, false);
      assert g.fates + [] == g.fates;
    case FlushCall(limit) =>
      PickRun(g.written, g.fates, FlushCount(g.items, limit));
  }
}

/** A partition's in-memory write-ahead log, which forgets old entries in batches. */
module Wal {
  import opened Ops

  /** The log entries for `ops`, numbered from just after `after`. */
  function Numbered(after: int, ops: seq<Op>): (entries: seq<LogEntry>)
    ensures |entries| == |ops|
  {
    if ops == [] then []
    else Numbered(after, ops[..|ops| - 1]) + [LogEntry(after + |ops|, ops[|ops| - 1])]
  }

  lemma {:induction false} NumberedAt(after: int, ops: seq<Op>, i: nat)
    requires i < |ops|
    ensures Numbered(after, ops)[i] == LogEntry(after + 1 + i, ops[i])
  {
    if i < |ops| - 1 {
      NumberedAt(after, ops[..|ops| - 1], i);
    }
  }

  lemma NumberedAppend(after: int, ops: seq<Op>, op: Op)
    ensures Numbered(after, ops + [op]) == Numbered(after, ops) + [LogEntry(after + |ops| + 1, op)]
  {
    assert (ops + [op])[..|ops|] == ops;
  }

  lemma {:induction false} NumberedSlice(after: int, ops: seq<Op>, from: nat, to: nat)
    requires from <= to <= |ops|
    ensures Numbered(after, ops)[from..to] == Numbered(after + from, ops[from..to])
  {
    var l, r := Numbered(after, ops)[from..to], Numbered(after + from, ops[from..to]);
    forall i | 0 <= i < to - from
      ensures l[i] == r[i]
    {
      NumberedAt(after, ops, from + i);
      NumberedAt(after + from, ops[from..to], i);
    }
  }

  /** The retained entries: those after `base`, out of a history that starts after `start`. */
  ghost predicate Retains(logs: seq<LogEntry>, base: int, start: int, ops: seq<Op>) {
    && start <= base
    && |logs| == start + |ops| - base
    && forall i :: 0 <= i < |logs| ==> logs[i] == LogEntry(base + 1 + i, ops[base - start + i])
  }

  lemma RetainsSlice(logs: seq<LogEntry>, base: int, start: int, ops: seq<Op>, after: int, n: nat)
    requires Retains(logs, base, start, ops) && base <= after && after + n <= start + |ops|
    ensures logs[after - base..after - base + n] == Numbered(after, ops[after - start..after - start + n])
  {
    var l, slice := logs[after - base..after - base + n], ops[after - start..after - start + n];
    forall i | 0 <= i < n
      ensures l[i] == Numbered(after, slice)[i]
    {
      NumberedAt(after, slice, i);
    }
  }

  /** Sequence number of the newest checkpoint, or the one the log was reset to. */
  function NewestCheckpoint(start: int, ops: seq<Op>): int {
    if ops == [] then start
    else if ops[|ops| - 1].Checkpoint? then start + |ops|
    else NewestCheckpoint(start, ops[..|ops| - 1])
  }

  lemma NewestCheckpointAppend(start: int, ops: seq<Op>, op: Op)
    ensures NewestCheckpoint(start, ops + [op]) ==
      if op.Checkpoint? then start + |ops| + 1 else NewestCheckpoint(start, ops)
  {
    assert (ops + [op])[..|ops|] == ops;
  }

  /** Dropping the oldest entries keeps the rest in place. */
  lemma RetainsDrop(logs: seq<LogEntry>, base: int, start: int, ops: seq<Op>, drop: nat)
    requires Retains(logs, base, start, ops) && 0 < drop <= |logs|
    ensures logs[drop - 1].number == base + drop
    ensures Retains(logs[drop..], base + drop, start, ops)
  {}

  lemma RetainsAppend(logs: seq<LogEntry>, base: int, start: int, ops: seq<Op>, op: Op)
    requires Retains(logs, base, start, ops)
    ensures Retains(logs + [LogEntry(start + |ops| + 1, op)], base, start, ops + [op])
  {}

  /** Entries the log may hold before it drops the oldest ones: one and a half times `retain`. */
  function Limit(retain: nat): (n: nat)
    ensures 3 * retain - 1 <= 2 * n <= 3 * retain
  {
    retain + retain / 2
  }

  /** First retained position once the log ends at `current`. */
  function BaseAfter(base: int, current: int, retain: nat): int {
    if current - base > Limit(retain) then current - retain else base
  }

  function Min(a: int, b: int): int { if a < b then a else b }

  function Excess(n: int, retain: int): int { if n > retain then n - retain else 0 }

  class WAL {
    var logs: seq<LogEntry>
    var base: int
    var currentSeq: int
    var lastCheckpoint: int
    const retain: nat

    /** Full history since the last reset, which left the log at sequence number `start`. */
    ghost var start: int
    ghost var ops: seq<Op>
    /** Entries ever appended, and entries ever copied while truncating. */
    ghost var appended: nat
    ghost var copied: nat

    ghost predicate Valid()
      reads this
    {
      && retain > 0
      && currentSeq == start + |ops|
      && Retains(logs, base, start, ops)
      && lastCheckpoint == NewestCheckpoint(start, ops)
      && Min(retain, |ops|) <= |logs| <= Limit(retain)
      && copied + 2 * Excess(|logs|, retain) <= 2 * appended
    }

    constructor (retain: int)
      ensures Valid() && start == 0 && ops == [] && base == 0
      ensures this.retain == if retain <= 0 then 100000 else retain
    {
      this.retain := if retain <= 0 then 100000 else retain;
      logs, base, currentSeq, lastCheckpoint := [], 0, 0, 0;
      start, ops, appended, copied := 0, [], 0, 0;
    }

    /** Adds the entry that directly follows the log; drops the oldest entries when too many piled up. */
    method AppendLocked(entry: LogEntry)
      requires Valid() && entry.number == currentSeq + 1
      modifies this
      ensures Valid()
      ensures start == old(start) && ops == old(ops) + [entry.op]
      ensures base == BaseAfter(old(base), currentSeq, retain)
      ensures appended == old(appended) + 1
    {
      hide NewestCheckpoint, Numbered;
      NewestCheckpointAppend(start, ops, entry.op);
      RetainsAppend(logs, base, start, ops, entry.op);
      ops, appended := ops + [entry.op], appended + 1;
      currentSeq := entry.number;
      if entry.op.Checkpoint? {
        lastCheckpoint := entry.number;
      }
      var kept := logs + [entry];
      if |kept| > Limit(retain) {
        var drop := |kept| - retain;
        RetainsDrop(kept, base, start, ops, drop);
        base := kept[drop - 1].number;
        kept := kept[drop..];
        copied := copied + |kept|;
      }
      logs := kept;
    }

    /** Assigns the next sequence number to op and records it. */
    method Append(op: Op) returns (entry: LogEntry)
      requires Valid()
      modifies this
      ensures Valid()
      ensures entry == LogEntry(old(currentSeq) + 1, op) && currentSeq == entry.number
      ensures start == old(start) && ops == old(ops) + [op]
      ensures base == BaseAfter(old(base), currentSeq, retain)
    {
      entry := LogEntry(currentSeq + 1, op);
      AppendLocked(entry);
    }

    /** Records an entry received from the leader, if it directly follows the log. */
    method Record(entry: LogEntry) returns (ok: bool)
      requires Valid()
      modifies this
      ensures Valid()
      ensures ok <==> entry.number == old(currentSeq) + 1
      ensures start == old(start)
      ensures ok ==> ops == old(ops) + [entry.op] && base == BaseAfter(old(base), currentSeq, retain)
      ensures !ok ==> ops == old(ops) && base == old(base)
    {
      if entry.number != currentSeq + 1 {
        return false;
      }
      AppendLocked(entry);
      ok := true;
    }

    /**
     * The entries after `after`, at most max of them if max is positive. Fails exactly when some
     * of them were dropped; otherwise returns precisely that slice of the full history.
     */
    method After(after: int, max: int) returns (entries: seq<LogEntry>, ok: bool)
      requires Valid()
      ensures ok <==> base <= after
      ensures ok && after >= currentSeq ==> entries == []
      ensures ok && after < currentSeq ==>
        var n := if max > 0 then Min(max, currentSeq - after) else currentSeq - after;
        entries == Numbered(after, ops[after - start..after - start + n])
      ensures !ok ==> entries == []
    {
      if after < base {
        return [], false;
      }
      if after >= currentSeq {
        return [], true;
      }
      var from := after - base;
      var end := |logs|;
      if max > 0 && end - from > max {
        end := from + max;
      }
      RetainsSlice(logs, base, start, ops, after, end - from);
      entries := logs[from..end];
      ok := true;
    }

    /** Empties the log and continues numbering after `to`. */
    method Reset(to: int)
      requires Valid()
      modifies this
      ensures Valid()
      ensures start == to && ops == [] && base == to
    {
      logs, base, currentSeq, lastCheckpoint := [], to, to, to;
      start, ops := to, [];
    }
  }

  /**
   * What the invariant buys: the newest min(retain, length) entries survive, memory stays within
   * one and a half times the limit, and all truncations together copy at most two entries per append.
   */
  lemma RetentionBounds(w: WAL)
    requires w.Valid()
    ensures Min(w.retain, |w.ops|) <= |w.logs| <= w.retain + w.retain / 2
    ensures w.copied <= 2 * w.appended
    ensures Retains(w.logs, w.start + |w.ops| - |w.logs|, w.start, w.ops)
  {}
}

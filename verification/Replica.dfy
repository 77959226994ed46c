/** One replica of a partition as a value: what each operation of the replica does to it. */
module Replica {
  import opened Ops
  import opened Wal

  datatype Role = Leader | Follower

  /** Writes to the keys accepted by `accept` are refused until the given time has passed. */
  datatype Freeze = Freeze(tag: string, accept: string -> bool, until: int)

  datatype Snapshot = Snapshot(epoch: int, number: int, data: Data)

  /** What an old partition hands over for one partition of the next generation. */
  datatype Chunk =
    | Logs(epoch: int, number: int, entries: seq<LogEntry>)
    | Full(epoch: int, number: int, data: Data)

  datatype Error = NotLeader | NotFollower | NotSynced | Sealed | Frozen | Gap

  datatype Result<T> = Ok(value: T) | Err(error: Error)

  /**
   * The data is `ops` replayed on top of `base`, the content the log was last reset to; the log
   * still holds the operations after walBase.
   */
  datatype Rep = Rep(
    role: Role, epoch: int, dataEpoch: int, prevEpoch: int, promotedSeq: int,
    synced: bool, sealed: bool, freezes: seq<Freeze>,
    base: Data, start: int, ops: seq<Op>, walBase: int, retain: nat)
  {
    /** Sequence number of the newest operation. */
    function Seq(): int { start + |ops| }

    function Content(): Data { Replay(base, ops) }

    /** The content at an earlier sequence number that the log can speak about. */
    function ContentAt(c: int): Data
      requires start <= c <= Seq()
    {
      Replay(base, ops[..c - start])
    }

    function Log(op: Op): Rep {
      this.(ops := ops + [op], walBase := BaseAfter(walBase, Seq() + 1, retain))
    }

    /** A write, followed by a checkpoint when the memtable was full. */
    function Write(op: Op, flush: bool): Rep {
      if flush then Log(op).Log(Checkpoint) else Log(op)
    }

    /** What a client write leaves: refused on a follower, on a sealed leader and for a frozen key. */
    function ClientWrite(op: Op, flush: bool, now: int): Rep
      requires !op.Checkpoint?
    {
      var thawed := this.(freezes := Unexpired(freezes, now));
      if role != Leader || sealed then this
      else if IsFrozen(freezes, op.key, now) then thawed
      else thawed.Write(op, flush)
    }

    /** Several writes in a row; flushes says after which of them the memtable was full. */
    function WriteAll(todo: seq<Op>, flushes: seq<bool>): Rep
      requires |flushes| == |todo|
      decreases |todo|
    {
      if todo == [] then this
      else
        var n := |todo| - 1;
        WriteAll(todo[..n], flushes[..n]).Write(todo[n], flushes[n])
    }

    function Froze(tag: string, accept: string -> bool, until: int): Rep {
      this.(freezes := AddFreeze(freezes, tag, accept, until))
    }

    /** Freezing keys (if asked to), and the checkpoint of a snapshot unless the log reaches back to `after`. */
    function Exported(tag: string, accept: string -> bool, freezeKeys: bool, after: int, until: int): Rep {
      var r := if freezeKeys then Froze(tag, accept, until) else this;
      if freezeKeys && walBase <= after then r else r.Log(Checkpoint)
    }

    function Emptied(): Rep {
      this.(base := map[], start := 0, ops := [], walBase := 0, synced := false, dataEpoch := 0, freezes := [])
    }

    function LeadFresh(e: int): Rep {
      Emptied().(role := Leader, epoch := e, dataEpoch := e, prevEpoch := -1, promotedSeq := 0, synced := true)
    }

    function Promote(e: int): Rep {
      this.(role := Leader, epoch := e, dataEpoch := e, synced := true, sealed := false,
            prevEpoch := if synced then dataEpoch else -1, promotedSeq := Seq())
    }

    function Follow(e: int): Rep {
      (if role.Leader? then Emptied() else this).(role := Follower, epoch := e, sealed := false)
    }

    function Load(snap: Snapshot): Rep {
      this.(base := snap.data, start := snap.number, ops := [], walBase := snap.number,
            dataEpoch := snap.epoch, synced := true)
    }

    /** Appends the entries that continue the log; entries it already has are skipped. */
    function Ingest(entries: seq<LogEntry>): (Rep, bool)
      decreases |entries|
    {
      if entries == [] then (this, true)
      else if entries[0].number <= Seq() then Ingest(entries[1..])
      else if entries[0].number != Seq() + 1 then (this, false)
      else Log(entries[0].op).Ingest(entries[1..])
    }

    function ApplyLogEntries(entries: seq<LogEntry>, leaderEpoch: int): Rep {
      var (r, ok) := Ingest(entries);
      if ok then r.(dataEpoch := leaderEpoch) else r
    }

    /** May a follower whose data came from dataEpoch and ends at `after` continue with our log? */
    predicate CanServe(dataEpoch: int, after: int) {
      && after <= Seq()
      && (dataEpoch == epoch || (prevEpoch >= 0 && dataEpoch == prevEpoch && after <= promotedSeq))
    }
  }

  /** A replica as a node creates it. */
  function Fresh(retain: nat): Rep {
    Rep(Follower, 0, 0, -1, 0, false, false, [], map[], 0, [], 0, retain)
  }

  // ----- freezes -----

  function Unexpired(fs: seq<Freeze>, now: int): seq<Freeze> {
    if fs == [] then []
    else
      var rest := Unexpired(fs[..|fs| - 1], now);
      if now > fs[|fs| - 1].until then rest else rest + [fs[|fs| - 1]]
  }

  predicate IsFrozen(fs: seq<Freeze>, key: string, now: int) {
    exists i :: 0 <= i < |fs| && fs[i].accept(key) && now <= fs[i].until
  }

  /** Renews the freeze with this tag, or adds it. */
  function AddFreeze(fs: seq<Freeze>, tag: string, accept: string -> bool, until: int): seq<Freeze> {
    if fs == [] then [Freeze(tag, accept, until)]
    else if fs[0].tag == tag then [fs[0].(until := until)] + fs[1..]
    else [fs[0]] + AddFreeze(fs[1..], tag, accept, until)
  }

  lemma {:induction false} AddFreezeAt(fs: seq<Freeze>, tag: string, accept: string -> bool, until: int, n: nat)
    requires n <= |fs| && (forall i :: 0 <= i < n ==> fs[i].tag != tag) && (n < |fs| ==> fs[n].tag == tag)
    ensures AddFreeze(fs, tag, accept, until) ==
      if n < |fs| then fs[n := fs[n].(until := until)] else fs + [Freeze(tag, accept, until)]
  {
    if n == 0 {
    } else {
      AddFreezeAt(fs[1..], tag, accept, until, n - 1);
    }
  }

  /** Dropping expired freezes does not thaw anything now or later. */
  lemma {:induction false} UnexpiredKeepsFrozen(fs: seq<Freeze>, now: int, key: string, later: int)
    requires now <= later
    ensures IsFrozen(Unexpired(fs, now), key, later) <==> IsFrozen(fs, key, later)
  {
    if fs == [] {
    } else {
      var n := |fs| - 1;
      var rest := Unexpired(fs[..n], now);
      UnexpiredKeepsFrozen(fs[..n], now, key, later);
      IsFrozenAppend(fs[..n], fs[n], key, later);
      IsFrozenAppend(rest, fs[n], key, later);
      assert fs == fs[..n] + [fs[n]];
    }
  }

  lemma IsFrozenAppend(fs: seq<Freeze>, f: Freeze, key: string, now: int)
    ensures IsFrozen(fs + [f], key, now) <==> IsFrozen(fs, key, now) || (f.accept(key) && now <= f.until)
  {
    var all := fs + [f];
    if f.accept(key) && now <= f.until {
      assert all[|fs|] == f;
    }
    if IsFrozen(fs, key, now) {
      var i :| 0 <= i < |fs| && fs[i].accept(key) && now <= fs[i].until;
      assert all[i] == fs[i];
    }
  }

  lemma IsFrozenCons(f: Freeze, fs: seq<Freeze>, key: string, now: int)
    ensures IsFrozen([f] + fs, key, now) <==> (f.accept(key) && now <= f.until) || IsFrozen(fs, key, now)
  {
    var all := [f] + fs;
    assert all[0] == f;
    if IsFrozen(fs, key, now) {
      var i :| 0 <= i < |fs| && fs[i].accept(key) && now <= fs[i].until;
      assert all[i + 1] == fs[i];
    }
  }

  /** Freezes with the same tag cover the same keys (the tag names the target partition). */
  ghost predicate TagNames(fs: seq<Freeze>, tag: string, accept: string -> bool) {
    forall i, k :: 0 <= i < |fs| && fs[i].tag == tag ==> fs[i].accept(k) == accept(k)
  }

  /** After freezing, every matching key is refused until the new deadline; other freezes stay. */
  lemma {:induction false} AddFreezeFreezes(fs: seq<Freeze>, tag: string, accept: string -> bool, until: int, key: string, now: int)
    requires TagNames(fs, tag, accept) && now <= until
    ensures accept(key) ==> IsFrozen(AddFreeze(fs, tag, accept, until), key, now)
    ensures !accept(key) ==> (IsFrozen(AddFreeze(fs, tag, accept, until), key, now) <==> IsFrozen(fs, key, now))
  {
    if fs == [] {
      assert AddFreeze(fs, tag, accept, until)[0].accept == accept;
    } else {
      assert fs == [fs[0]] + fs[1..];
      IsFrozenCons(fs[0], fs[1..], key, now);
      if fs[0].tag == tag {
        assert fs[0].accept(key) == accept(key);
        IsFrozenCons(fs[0].(until := until), fs[1..], key, now);
      } else {
        AddFreezeFreezes(fs[1..], tag, accept, until, key, now);
        IsFrozenCons(fs[0], AddFreeze(fs[1..], tag, accept, until), key, now);
      }
    }
  }

  /** A fresh leader refuses no key and starts from nothing. */
  lemma LedFreshAcceptsAll(r: Rep, e: int, op: Op, flush: bool, now: int)
    requires !op.Checkpoint? && !r.sealed
    ensures var led := r.LeadFresh(e);
      && led.Content() == map[] && led.Seq() == 0
      && led.ClientWrite(op, flush, now) == led.Write(op, flush) && led.ClientWrite(op, flush, now).Content() == ApplyOp(map[], op)
  {
    var led := r.LeadFresh(e);
    ReplayOne(map[], [], op);
    ReplayOne(map[], [op], Checkpoint);
    assert [] + [op] == [op];
  }

  /** A replica that was reset has nothing left: no data, no freezes, nothing to continue from. */
  lemma EmptiedForgets(r: Rep)
    ensures r.Emptied().Content() == map[] && r.Emptied().Seq() == 0 && !r.Emptied().synced
    ensures forall k, now :: !IsFrozen(r.Emptied().freezes, k, now)
  {}

  // ----- what Ingest does with a batch of the leader's log -----

  /** Any contiguous batch that starts no later than the end of the log extends it to the batch's end. */
  lemma IngestBatch(r: Rep, after: int, batch: seq<Op>)
    requires after <= r.Seq()
    ensures r.Ingest(Numbered(after, batch)).1
    ensures r.Ingest(Numbered(after, batch)).0.ops == r.ops + (if r.Seq() - after <= |batch| then batch[r.Seq() - after..] else [])
    ensures var r' := r.Ingest(Numbered(after, batch)).0; r' == r.(ops := r'.ops, walBase := r'.walBase)
  {
    hide Rep.Ingest, Numbered;
    IngestRest(r, after, batch);
  }

  /** What is left of a batch without its first k operations. */
  function Rest(batch: seq<Op>, k: nat): seq<Op> { if k <= |batch| then batch[k..] else [] }

  lemma RestStep(batch: seq<Op>, k: nat)
    requires batch != []
    ensures Rest(batch, 0) == batch && [batch[0]] + Rest(batch[1..], 0) == batch
    ensures k > 0 ==> Rest(batch[1..], k - 1) == Rest(batch, k)
  {}

  lemma {:induction false} IngestRest(r: Rep, after: int, batch: seq<Op>)
    requires after <= r.Seq()
    ensures var (r', ok) := r.Ingest(Numbered(after, batch));
      ok && r'.ops == r.ops + Rest(batch, r.Seq() - after) && r' == r.(ops := r'.ops, walBase := r'.walBase)
    decreases |batch|
  {
    hide Rep.Content, BaseAfter, Rep.Ingest, Rest, Numbered, Replay;
    var entries := Numbered(after, batch);
    if batch == [] {
      IngestNone(r);
      RestNone(r.Seq() - after);
    } else {
      RestStep(batch, r.Seq() - after);
      IngestHead(r, after, batch);
      if after + 1 <= r.Seq() {
        IngestRest(r, after + 1, batch[1..]);
      } else {
        var l := r.Log(batch[0]);
        IngestRest(l, after + 1, batch[1..]);
        assert l.ops + Rest(batch[1..], 0) == r.ops + ([batch[0]] + Rest(batch[1..], 0));
      }
    }
  }

  /** The first entry is skipped or appended, and the rest of the batch follows. */
  lemma IngestHead(r: Rep, after: int, batch: seq<Op>)
    requires after <= r.Seq() && batch != []
    ensures r.Ingest(Numbered(after, batch)) ==
      (if after + 1 <= r.Seq() then r else r.Log(batch[0])).Ingest(Numbered(after + 1, batch[1..]))
  {
    hide Rep.Content, BaseAfter, Rep.Ingest, Numbered, Rep.Log;
    var entries := Numbered(after, batch);
    NumberedAt(after, batch, 0);
    NumberedSlice(after, batch, 1, |batch|);
    assert entries[1..] == entries[1..|batch|] && batch[1..] == batch[1..|batch|];
    IngestOne(r, entries);
  }

  lemma RestNone(k: nat)
    ensures Rest([], k) == []
  {}

  lemma IngestNone(r: Rep)
    ensures r.Ingest([]) == (r, true)
  {}

  lemma IngestOne(r: Rep, entries: seq<LogEntry>)
    requires entries != [] && entries[0].number <= r.Seq() + 1
    ensures r.Ingest(entries) == if entries[0].number <= r.Seq() then r.Ingest(entries[1..]) else r.Log(entries[0].op).Ingest(entries[1..])
  {}
}

/** A replica on a node: an LSM store fed through a write-ahead log. */
module Partitions {
  import opened Ops
  import opened Wal
  import opened Lsm
  import opened Replica

  /** Every level tagged c holds, together with the levels below it, the data as of sequence number c. */
  ghost predicate Tagged(levels: seq<Level>, frozen: Frozen, base: Data, start: int, ops: seq<Op>) {
    && Known(levels, frozen)
    && forall i :: 0 <= i < |levels| ==> TaggedAt(levels, i, frozen, base, start, ops)
  }

  ghost predicate TaggedAt(levels: seq<Level>, i: nat, frozen: Frozen, base: Data, start: int, ops: seq<Op>)
    requires i < |levels| && Known(levels, frozen)
  {
    var c := levels[i].checkpoint;
    start <= c <= start + |ops| && LevelData(levels[..i + 1], frozen) == Replay(base, ops[..c - start])
  }

  lemma TaggedNone(frozen: Frozen, base: Data, start: int, ops: seq<Op>)
    ensures Tagged([], frozen, base, start, ops)
  {}

  /** A freshly loaded store has one level, tagged with the snapshot's sequence number. */
  lemma TaggedLoad(levels: seq<Level>, frozen: Frozen, data: Data, start: int)
    requires Known(levels, frozen) && |levels| == 1 && levels[0].checkpoint == start
    requires LevelData(levels, frozen) == data
    ensures Tagged(levels, frozen, data, start, [])
  {
    assert levels[..1] == levels;
    assert TaggedAt(levels, 0, frozen, data, start, []);
  }

  lemma TaggedLog(levels: seq<Level>, frozen: Frozen, base: Data, start: int, ops: seq<Op>, op: Op)
    requires Tagged(levels, frozen, base, start, ops)
    ensures Tagged(levels, frozen, base, start, ops + [op])
  {
    forall i | 0 <= i < |levels|
      ensures TaggedAt(levels, i, frozen, base, start, ops + [op])
    {
      assert TaggedAt(levels, i, frozen, base, start, ops);
      var n := levels[i].checkpoint - start;
      assert (ops + [op])[..n] == ops[..n];
    }
  }

  /** A flush at the end of the log keeps the tags right. */
  lemma TaggedFlush(levels: seq<Level>, frozen: Frozen, levels': seq<Level>, frozen': Frozen, base: Data, start: int, ops: seq<Op>)
    requires Tagged(levels, frozen, base, start, ops)
    requires Grows(frozen, frozen') && Known(levels', frozen')
    requires levels' == levels ||
      (|levels'| == |levels| + 1 && levels'[..|levels|] == levels && levels'[|levels|].checkpoint == start + |ops|)
    requires LevelData(levels', frozen') == Replay(base, ops)
    ensures Tagged(levels', frozen', base, start, ops)
  {
    forall i | 0 <= i < |levels'|
      ensures TaggedAt(levels', i, frozen', base, start, ops)
    {
      if i < |levels| {
        assert TaggedAt(levels, i, frozen, base, start, ops);
        assert levels'[i] == levels[i] by { assert levels' != levels ==> levels'[i] == levels'[..|levels|][i]; }
        assert levels'[..i + 1] == levels[..i + 1];
        LevelDataGrows(levels[..i + 1], frozen, frozen');
      } else {
        assert levels'[..i + 1] == levels';
        assert ops[..|ops|] == ops;
      }
    }
  }

  /** Replacing the n oldest levels by their merge keeps the tags right. */
  lemma TaggedCompact(levels: seq<Level>, frozen: Frozen, n: nat, bottom: Level, frozen': Frozen, base: Data, start: int, ops: seq<Op>)
    requires Tagged(levels, frozen, base, start, ops) && 0 < n <= |levels|
    requires Grows(frozen, frozen') && Known([bottom], frozen')
    requires bottom.checkpoint == levels[n - 1].checkpoint
    requires Known(levels[..n], frozen') && LevelData([bottom], frozen') == LevelData(levels[..n], frozen')
    ensures Tagged([bottom] + levels[n..], frozen', base, start, ops)
  {
    var merged := [bottom] + levels[n..];
    assert Known(merged, frozen') by {
      assert forall i :: 1 <= i < |merged| ==> merged[i] == levels[n + i - 1];
    }
    forall i | 0 <= i < |merged|
      ensures TaggedAt(merged, i, frozen', base, start, ops)
    {
      var m := n + i;
      assert TaggedAt(levels, m - 1, frozen, base, start, ops);
      LevelDataGrows(levels[..m], frozen, frozen');
      assert levels[..m] == levels[..n] + levels[n..m];
      LevelDataRebase(levels[..n], [bottom], levels[n..m], frozen');
      assert merged[..i + 1] == [bottom] + levels[n..m];
      assert merged[i].checkpoint == levels[m - 1].checkpoint;
    }
  }

  class Partition {
    var role: Role
    var epoch: int
    var dataEpoch: int
    var prevEpoch: int
    var promotedSeq: int
    var synced: bool
    var sealed: bool
    var keys: int
    var freezes: seq<Freeze>
    const store: Store
    const wal: WAL
    /** The replica as a value. */
    ghost var rep: Rep

    ghost predicate Valid()
      reads this, store, store.active, store.frozen.Keys, wal
    {
      Fields() && Logged(rep) && Stored(rep.base, rep.start, rep.ops)
    }

    ghost predicate Fields()
      reads this
    {
      && role == rep.role && epoch == rep.epoch && dataEpoch == rep.dataEpoch
      && prevEpoch == rep.prevEpoch && promotedSeq == rep.promotedSeq
      && synced == rep.synced && sealed == rep.sealed && freezes == rep.freezes
    }

    /** The log is the value's log. */
    ghost predicate Logged(r: Rep)
      reads wal
    {
      && wal.Valid() && wal.currentSeq == r.Seq()
      && wal.start == r.start && wal.ops == r.ops && wal.base == r.walBase && wal.retain == r.retain
    }

    /** The store holds what replaying the log gives. */
    ghost predicate Stored(base: Data, start: int, ops: seq<Op>)
      reads this`keys, store, store.active, store.frozen.Keys
    {
      && store.Valid()
      && store.Contents() == Replay(base, ops)
      && keys == |Replay(base, ops)|
      && Tagged(store.levels, store.frozen, base, start, ops)
    }

    /** Everything the replica shows is the replay of its log: content, key count and tagged levels. */
    lemma ContentIsReplay()
      requires Valid()
      ensures store.Contents() == rep.Content() && keys == |rep.Content()|
      ensures forall i :: 0 <= i < |store.levels| ==>
        var c := store.levels[i].checkpoint;
        rep.start <= c <= rep.Seq() && LevelData(store.levels[..i + 1], store.frozen) == rep.ContentAt(c)
    {
      forall i | 0 <= i < |store.levels|
        ensures
          var c := store.levels[i].checkpoint;
          rep.start <= c <= rep.Seq() && LevelData(store.levels[..i + 1], store.frozen) == rep.ContentAt(c)
      {
        assert TaggedAt(store.levels, i, store.frozen, rep.base, rep.start, rep.ops);
      }
    }

    constructor (flushSize: int, maxLevels: int, walRetain: int)
      ensures Valid()
      ensures rep == Fresh(if walRetain <= 0 then 100000 else walRetain)
      ensures fresh(store) && fresh(wal) && fresh(store.active)
    {
      role, epoch, dataEpoch, prevEpoch, promotedSeq := Follower, 0, 0, -1, 0;
      synced, sealed, keys, freezes := false, false, 0, [];
      store := new Store(flushSize, maxLevels);
      wal := new WAL(walRetain);
      rep := Fresh(if walRetain <= 0 then 100000 else walRetain);
    }

    method ResetLocked()
      requires Valid()
      modifies this, store, wal
      ensures Valid() && rep == old(rep).Emptied() && fresh(store.active)
    {
      hide Store.Valid, WAL.Valid, Tagged, Known, LevelData, Overlay, Grows;
      store.Reset();
      wal.Reset(0);
      keys, synced, dataEpoch, freezes := 0, false, 0, [];
      rep := rep.Emptied();
      TaggedNone(store.frozen, rep.base, rep.start, rep.ops);
    }

    /** Makes an empty partition the leader. */
    method LeadFresh(e: int)
      requires Valid()
      modifies this, store, wal
      ensures Valid() && rep == old(rep).LeadFresh(e)
    {
      hide Stored, Store.Valid, WAL.Valid;
      ghost var r := rep;
      ResetLocked();
      role, epoch, dataEpoch, prevEpoch, promotedSeq, synced := Leader, e, e, -1, 0, true;
      rep := r.LeadFresh(e);
    }

    /** Turns this replica into the leader of an epoch, keeping its data. */
    method Promote(e: int)
      requires Valid()
      modifies this
      ensures Valid() && rep == old(rep).Promote(e)
    {
      hide Stored, Store.Valid, WAL.Valid;
      if synced {
        prevEpoch := dataEpoch;
      } else {
        prevEpoch := -1;
      }
      promotedSeq := wal.currentSeq;
      role, epoch, dataEpoch, synced, sealed := Leader, e, e, true, false;
      rep := rep.Promote(e);
    }

    /** Makes the partition a follower; a demoted leader throws its data away. */
    method Follow(e: int) returns (demoted: bool)
      requires Valid()
      modifies this, store, wal
      ensures Valid() && rep == old(rep).Follow(e)
      ensures demoted == old(role).Leader?
    {
      hide Stored, Store.Valid, WAL.Valid;
      ghost var r := rep;
      demoted := role == Leader;
      if demoted {
        ResetLocked();
      }
      role, epoch, sealed := Follower, e, false;
      rep := r.Follow(e);
    }

    method Seal(s: bool)
      requires Valid()
      modifies this`sealed, this`rep
      ensures Valid() && rep == old(rep).(sealed := s)
    {
      hide Stored, Store.Valid, WAL.Valid;
      sealed := s;
      rep := rep.(sealed := s);
    }

    /** Flushes the store at the end of the log. */
    method FlushAtEnd() returns (view: View)
      requires Valid()
      modifies store
      ensures Valid()
      ensures Issued(view, rep.Content()) in store.issued
      ensures store.active == old(store.active) || fresh(store.active)
      ensures store.active.data == map[]
      ensures old(|store.active.data|) > 0 ==> store.levels == old(store.levels) + [Level(old(store.active), rep.Seq())]
    {
      hide Store.Valid, WAL.Valid, Tagged, Known, LevelData, Overlay, Grows;
      ghost var levels, frozen := store.levels, store.frozen;
      var need;
      view, need := store.Flush(wal.currentSeq);
      assert store.levels != levels ==> store.levels[..|levels|] == levels;
      TaggedFlush(levels, frozen, store.levels, store.frozen, rep.base, rep.start, rep.ops);
    }

    /** Logs op first (write-ahead), then applies it. */
    method LogAndApply(op: Op) returns (entry: LogEntry)
      requires Valid()
      modifies this`keys, this`rep, store, store.active, wal
      ensures Valid() && rep == old(rep).Log(op)
      ensures entry == LogEntry(rep.Seq(), op)
      ensures store.active == old(store.active) || fresh(store.active)
    {
      hide Store.Valid, WAL.Valid, Tagged, Known, LevelData, Overlay, Grows;
      TaggedLog(store.levels, store.frozen, rep.base, rep.start, rep.ops, op);
      ReplayOne(rep.base, rep.ops, op);
      entry := wal.Append(op);
      rep := rep.Log(op);
      ApplyLocked(op);
    }

    /** Applies the newest log entry to the store. */
    method ApplyLocked(op: Op)
      requires Fields() && Logged(rep) && store.Valid() && keys == |store.Contents()|
      requires ApplyOp(store.Contents(), op) == rep.Content()
      requires Tagged(store.levels, store.frozen, rep.base, rep.start, rep.ops)
      modifies this`keys, store, store.active
      ensures Valid()
      ensures store.active == old(store.active) || fresh(store.active)
    {
      hide Store.Valid, WAL.Valid, Tagged, Known, LevelData, Overlay, Grows;
      match op
      case Set(k, v) => ApplySet(k, v);
      case Delete(k) => ApplyDelete(k);
      case Checkpoint => var _ := FlushAtEnd();
    }

    method ApplySet(k: string, v: string)
      requires store.Valid() && keys == |store.Contents()|
      modifies this`keys, store.active
      ensures store.Valid() && store.Contents() == old(store.Contents())[k := v] && keys == |store.Contents()|
    {
      hide Store.Valid, Store.Contents, Known, LevelData, Overlay, Grows;
      CountSet(store.Contents(), k, v);
      var _, found := store.Get(k);
      store.Put(k, v);
      if !found {
        keys := keys + 1;
      }
    }

    method ApplyDelete(k: string)
      requires store.Valid() && keys == |store.Contents()|
      modifies this`keys, store.active
      ensures store.Valid() && store.Contents() == old(store.Contents()) - {k} && keys == |store.Contents()|
    {
      hide Store.Valid, Store.Contents, Known, LevelData, Overlay, Grows;
      CountDelete(store.Contents(), k);
      var _, found := store.Get(k);
      if found {
        store.Delete(k);
        keys := keys - 1;
      } else {
        assert store.Contents() - {k} == store.Contents();
      }
    }

    /** A write: log, apply, and freeze the memtable with a checkpoint once it is large enough. */
    method AppendLocked(op: Op) returns (entry: LogEntry, ghost flushed: bool)
      requires Valid()
      modifies this`keys, this`rep, store, store.active, wal
      ensures Valid() && rep == old(rep).Write(op, flushed)
      ensures entry == LogEntry(old(rep).Seq() + 1, op)
      ensures store.active == old(store.active) || fresh(store.active)
      ensures !flushed ==> |store.active.data| < store.flushSize
      ensures flushed ==>
        && store.active.data == map[] && store.levels != [] && store.levels[|store.levels| - 1].checkpoint == rep.Seq()
        && |store.levels[|store.levels| - 1].table.data| >= store.flushSize
    {
      hide Stored, Store.Valid, WAL.Valid;
      entry := LogAndApply(op);
      flushed := false;
      var full := store.ShouldFlush();
      if full {
        flushed := true;
        assert store.flushSize > 0 by { FlushesSomething(); }
        LogCheckpoint();
        var _ := FlushAtEnd();
      }
    }

    lemma FlushesSomething()
      requires Valid()
      ensures store.flushSize > 0
    {}

    method LogCheckpoint()
      requires Valid()
      modifies wal, this`rep
      ensures Valid() && rep == old(rep).Log(Checkpoint)
    {
      hide Store.Valid, WAL.Valid, Tagged, Known, LevelData, Overlay, Grows;
      TaggedLog(store.levels, store.frozen, rep.base, rep.start, rep.ops, Checkpoint);
      ReplayOne(rep.base, rep.ops, Checkpoint);
      var _ := wal.Append(Checkpoint);
      rep := rep.Log(Checkpoint);
    }

    /** The end of a background compaction: neither the data nor the tags change. */
    method FinishCompaction()
      requires Valid() && store.job.Some?
      modifies store
      ensures Valid() && store.job.None?
    {
      hide LevelData, Overlay, Tagged, WAL.Valid;
      var input := store.job.value.input;
      ghost var levels, frozen, current := store.levels, store.frozen, store.job.value.resets == store.resets;
      var merged := store.Merge(input);
      store.InstallCompaction(merged);
      if current {
        assert input == levels[..|input|];
        TaggedCompact(levels, frozen, |input|, store.levels[0], store.frozen, rep.base, rep.start, rep.ops);
      } else {
        assert store.levels == levels && store.frozen == frozen;
      }
    }

    /** Is key frozen now? Expired freezes are dropped on the way. */
    method FrozenLocked(key: string, now: int) returns (frozen: bool)
      requires Valid()
      modifies this`freezes, this`rep
      ensures Valid() && rep == old(rep).(freezes := Unexpired(old(freezes), now))
      ensures frozen == IsFrozen(old(freezes), key, now)
    {
      hide Stored, Store.Valid, WAL.Valid;
      var active;
      active, frozen := Sift(freezes, key, now);
      freezes := active;
      rep := rep.(freezes := active);
    }

    static method Sift(fs: seq<Freeze>, key: string, now: int) returns (active: seq<Freeze>, frozen: bool)
      ensures active == Unexpired(fs, now) && frozen == IsFrozen(fs, key, now)
    {
      active, frozen := [], false;
      for n := 0 to |fs|
        invariant active == Unexpired(fs[..n], now)
        invariant frozen == IsFrozen(fs[..n], key, now)
      {
        var f := fs[n];
        assert fs[..n + 1] == fs[..n] + [f];
        assert (fs[..n] + [f])[..n] == fs[..n];
        IsFrozenAppend(fs[..n], f, key, now);
        if now <= f.until {
          active := active + [f];
          if f.accept(key) {
            frozen := true;
          }
        }
      }
      assert fs[..|fs|] == fs;
    }

    /** A client write: accepted exactly on an unsealed leader whose freezes do not cover the key. */
    method Write(op: Op, now: int) returns (r: Result<LogEntry>, ghost flushed: bool)
      requires Valid() && !op.Checkpoint?
      modifies this`keys, this`freezes, this`rep, store, store.active, wal
      ensures Valid()
      ensures r == if old(role) != Leader then Err(NotLeader)
                   else if old(sealed) then Err(Sealed)
                   else if IsFrozen(old(freezes), op.key, now) then Err(Frozen)
                   else Ok(LogEntry(old(rep).Seq() + 1, op))
      ensures rep == old(rep).ClientWrite(op, flushed, now)
    {
      hide Stored, Store.Valid, WAL.Valid;
      flushed := false;
      if role != Leader {
        return Err(NotLeader), false;
      }
      if sealed {
        return Err(Sealed), false;
      }
      var frozen := FrozenLocked(op.key, now);
      if frozen {
        return Err(Frozen), false;
      }
      var entry;
      entry, flushed := AppendLocked(op);
      r := Ok(entry);
    }

    /** Writes migrated operations through the log of the leader, whatever is sealed or frozen. */
    method Import(ops: seq<Op>) returns (r: Result<()>, ghost flushes: seq<bool>)
      requires Valid()
      modifies this`keys, this`rep, store, store.active, wal
      ensures Valid()
      ensures r == if old(role) == Leader then Ok(()) else Err(NotLeader)
      ensures |flushes| == |ops|
      ensures rep == if r.Ok? then old(rep).WriteAll(ops, flushes) else old(rep)
      ensures r.Ok? ==> rep.Content() == Replay(old(rep).Content(), ops)
      ensures rep.role == old(rep.role)
      ensures store.active == old(store.active) || fresh(store.active)
    {
      hide Stored, Store.Valid, WAL.Valid, Rep.Write;
      if role != Leader {
        return Err(NotLeader), seq(|ops|, _ => false);
      }
      ghost var before := rep;
      flushes := [];
      for n := 0 to |ops|
        invariant Valid() && rep.role == old(rep.role)
        invariant |flushes| == n && rep == before.WriteAll(ops[..n], flushes)
        invariant store.active == old(store.active) || fresh(store.active)
      {
        WriteRole(rep, ops[n]);
        var _, flushed := AppendLocked(ops[n]);
        WriteAllStep(before, ops, flushes, n, flushed);
        flushes := flushes + [flushed];
      }
      assert ops[..|ops|] == ops;
      WriteAllContent(before, ops, flushes);
      r := Ok(());
    }

    static lemma WriteRole(r: Rep, op: Op)
      ensures forall flush :: r.Write(op, flush).role == r.role
    {}

    static lemma WriteAllStep(r: Rep, ops: seq<Op>, flushes: seq<bool>, n: nat, flushed: bool)
      requires n < |ops| && |flushes| == n
      ensures r.WriteAll(ops[..n + 1], flushes + [flushed]) == r.WriteAll(ops[..n], flushes).Write(ops[n], flushed)
    {
      assert ops[..n + 1][..n] == ops[..n] && (flushes + [flushed])[..n] == flushes;
    }

    static lemma {:induction false} WriteAllContent(r: Rep, ops: seq<Op>, flushes: seq<bool>)
      requires |flushes| == |ops|
      ensures r.WriteAll(ops, flushes).Content() == Replay(r.Content(), ops)
      decreases |ops|
    {
      hide Rep.Write;
      if ops == [] {
      } else {
        var n := |ops| - 1;
        WriteAllContent(r, ops[..n], flushes[..n]);
        WriteContent(r.WriteAll(ops[..n], flushes[..n]), ops[n]);
      }
    }

    static lemma WriteContent(r: Rep, op: Op)
      ensures forall flush :: r.Write(op, flush).Content() == ApplyOp(r.Content(), op)
    {
      ReplayOne(r.base, r.ops, op);
      ReplayOne(r.base, r.ops + [op], Checkpoint);
    }

    /** Replays entries streamed from the leader. */
    method ApplyLogEntries(entries: seq<LogEntry>, leaderEpoch: int) returns (r: Result<()>)
      requires Valid()
      modifies this, store, store.active, wal
      ensures Valid()
      ensures r == if old(role) != Follower then Err(NotFollower)
                   else if !old(synced) then Err(NotSynced)
                   else if old(rep).Ingest(entries).1 then Ok(()) else Err(Gap)
      ensures rep == if r.Ok? || r.error.Gap? then old(rep).ApplyLogEntries(entries, leaderEpoch) else old(rep)
    {
      hide Stored, Store.Valid, WAL.Valid;
      if role != Follower {
        return Err(NotFollower);
      }
      if !synced {
        return Err(NotSynced);
      }
      assert entries[0..] == entries;
      var n := 0;
      while n < |entries|
        invariant 0 <= n <= |entries| && Valid()
        invariant rep.Ingest(entries[n..]) == old(rep).Ingest(entries)
        invariant store.active == old(store.active) || fresh(store.active)
      {
        assert entries[n..][1..] == entries[n + 1..];
        if entries[n].number > wal.currentSeq {
          if entries[n].number != wal.currentSeq + 1 {
            return Err(Gap);
          }
          var _ := LogAndApply(entries[n].op);
        }
        n := n + 1;
      }
      dataEpoch := leaderEpoch;
      rep := rep.(dataEpoch := leaderEpoch);
      r := Ok(());
    }

    /**
     * The data of the leader as of a new checkpoint. The freeze happens under the lock; flattening
     * the view may happen any time later with the same result.
     */
    method TakeSnapshot(accept: string -> bool) returns (r: Result<Snapshot>)
      requires Valid()
      modifies store, wal, this`rep
      ensures Valid()
      ensures old(role) != Leader ==> r == Err(NotLeader) && rep == old(rep)
      ensures old(role) == Leader ==>
        && rep == old(rep).Log(Checkpoint)
        && r == Ok(Snapshot(epoch, rep.Seq(), Restrict(rep.Content(), accept)))
      ensures store.active == old(store.active) || fresh(store.active)
    {
      hide Store.Valid, WAL.Valid, Tagged, Known, LevelData, Overlay, Grows;
      if role != Leader {
        return Err(NotLeader);
      }
      LogCheckpoint();
      var view := FlushAtEnd();
      var data := store.Materialize(view, accept, rep.Content());
      r := Ok(Snapshot(epoch, wal.currentSeq, data));
    }

    /** Replaces the follower's data; replication continues after the snapshot. */
    method LoadSnapshot(snap: Snapshot) returns (r: Result<()>)
      requires Valid()
      modifies this, store, wal
      ensures Valid()
      ensures r == if old(role) == Follower then Ok(()) else Err(NotFollower)
      ensures rep == if r.Ok? then old(rep).Load(snap) else old(rep)
    {
      hide Store.Valid, WAL.Valid, Tagged, Known, LevelData, Overlay, Grows;
      if role != Follower {
        return Err(NotFollower);
      }
      store.Load(snap.data, snap.number);
      wal.Reset(snap.number);
      rep := rep.Load(snap);
      TaggedLoad(store.levels, store.frozen, snap.data, snap.number);
      keys := |snap.data|;
      dataEpoch := snap.epoch;
      synced := true;
      r := Ok(());
    }

    method CanServe(follower: int, after: int) returns (b: bool)
      requires Valid()
      ensures b == rep.CanServe(follower, after)
      ensures b <==> after <= rep.Seq() && (follower == epoch || (prevEpoch >= 0 && follower == prevEpoch && after <= promotedSeq))
    {
      if after > wal.currentSeq {
        return false;
      }
      if follower == epoch {
        return true;
      }
      b := prevEpoch >= 0 && follower == prevEpoch && after <= promotedSeq;
    }

    method AddFreezeLocked(tag: string, accept: string -> bool, until: int)
      requires Valid()
      modifies this`freezes, this`rep
      ensures Valid() && rep == old(rep).(freezes := AddFreeze(old(freezes), tag, accept, until))
    {
      hide Stored, Store.Valid, WAL.Valid;
      var fs := Renew(freezes, tag, accept, until);
      freezes := fs;
      rep := rep.(freezes := fs);
    }

    static method Renew(fs: seq<Freeze>, tag: string, accept: string -> bool, until: int) returns (out: seq<Freeze>)
      ensures out == AddFreeze(fs, tag, accept, until)
    {
      for n := 0 to |fs|
        invariant forall i :: 0 <= i < n ==> fs[i].tag != tag
      {
        if fs[n].tag == tag {
          AddFreezeAt(fs, tag, accept, until, n);
          return fs[n := fs[n].(until := until)];
        }
      }
      AddFreezeAt(fs, tag, accept, until, |fs|);
      out := fs + [Freeze(tag, accept, until)];
    }

    /**
     * Hands the keys accepted by `accept` to a partition of the next generation: a snapshot, or,
     * with the keys frozen first, the operations on them since `after` (a snapshot if the log no
     * longer reaches back that far).
     */
    method Export(tag: string, accept: string -> bool, freezeKeys: bool, after: int, until: int) returns (r: Result<Chunk>)
      requires Valid()
      modifies this`freezes, this`rep, store, wal
      ensures Valid()
      ensures old(role) != Leader ==> r == Err(NotLeader) && rep == old(rep)
      ensures old(role) == Leader ==>
        && rep == old(rep).Exported(tag, accept, freezeKeys, after, until)
        && r.Ok? && Answered(old(rep), accept, freezeKeys, after, r.value)
    {
      hide Stored, Logged, Store.Valid, WAL.Valid, Matching, Restrict, Replay, AddFreeze;
      if freezeKeys {
        var logs := FreezeKeys(tag, accept, after, until);
        match logs
        case Err(e) => return Err(e);
        case Ok(Some(chunk)) => return Ok(chunk);
        case Ok(None) =>
      }
      r := SnapshotFor(accept);
    }

    /** First critical section of an export: freeze, and answer from the log if it reaches back far enough. */
    method FreezeKeys(tag: string, accept: string -> bool, after: int, until: int) returns (r: Result<Option<Chunk>>)
      requires Valid()
      modifies this`freezes, this`rep
      ensures Valid()
      ensures old(role) != Leader ==> r == Err(NotLeader) && rep == old(rep)
      ensures old(role) == Leader ==>
        && rep == old(rep).Froze(tag, accept, until) && r.Ok? && (r.value.Some? <==> old(rep).walBase <= after)
        && (r.value.Some? ==> LogAnswer(old(rep), accept, after, r.value.value))
    {
      hide Stored, Logged, Store.Valid, WAL.Valid, Matching, AddFreeze;
      if role != Leader {
        return Err(NotLeader);
      }
      AddFreezeLocked(tag, accept, until);
      var logs := ExportLog(accept, after);
      r := Ok(logs);
    }

    /** Second critical section of an export, if there was no answer yet. */
    method SnapshotFor(accept: string -> bool) returns (r: Result<Chunk>)
      requires Valid()
      modifies store, wal, this`rep
      ensures Valid()
      ensures old(role) != Leader ==> r == Err(NotLeader) && rep == old(rep)
      ensures old(role) == Leader ==> rep == old(rep).Log(Checkpoint) && r.Ok? && SnapshotAnswer(old(rep), accept, r.value)
    {
      hide Stored, Logged, Store.Valid, WAL.Valid, Restrict, Replay;
      CheckpointKeeps(rep);
      var snap := TakeSnapshot(accept);
      match snap
      case Ok(s) => r := Ok(Full(s.epoch, s.number, s.data));
      case Err(e) => r := Err(e);
    }

    static lemma CheckpointKeeps(r: Rep)
      ensures r.Log(Checkpoint).Content() == r.Content()
    {
      ReplayOne(r.base, r.ops, Checkpoint);
    }

    /** The matching operations since `after`, if the log still has them. */
    method ExportLog(accept: string -> bool, after: int) returns (chunk: Option<Chunk>)
      requires Valid()
      ensures chunk.Some? <==> rep.walBase <= after
      ensures chunk.Some? ==> LogAnswer(rep, accept, after, chunk.value)
    {
      hide Stored, Store.Valid, WAL.Valid;
      var entries, ok := wal.After(after, 0);
      if !ok {
        return None;
      }
      var filtered := FilterEntries(entries, accept);
      if after < wal.currentSeq {
        LogSuffix(after);
      }
      chunk := Some(Logs(epoch, wal.currentSeq, filtered));
    }

    /** The slice of the log that After returns, as operations. */
    lemma LogSuffix(after: int)
      requires wal.Valid() && wal.base <= after < wal.currentSeq
      ensures wal.start <= after && after - wal.start + (wal.currentSeq - after) == |wal.ops|
      ensures OpsOf(Numbered(after, wal.ops[after - wal.start..after - wal.start + (wal.currentSeq - after)])) == wal.ops[after - wal.start..]
    {
      assert wal.ops[after - wal.start..|wal.ops|] == wal.ops[after - wal.start..];
      OpsNumbered(after, wal.ops[after - wal.start..]);
    }

    static method FilterEntries(entries: seq<LogEntry>, accept: string -> bool) returns (filtered: seq<LogEntry>)
      ensures OpsOf(filtered) == Matching(OpsOf(entries), accept)
    {
      filtered := [];
      for n := 0 to |entries|
        invariant OpsOf(filtered) == Matching(OpsOf(entries[..n]), accept)
      {
        var e := entries[n];
        assert entries[..n + 1][..n] == entries[..n];
        if !e.op.Checkpoint? && accept(e.op.key) {
          assert (filtered + [e])[..|filtered|] == filtered;
          filtered := filtered + [e];
        }
      }
      assert entries[..|entries|] == entries;
    }
  }

  /** The matching operations after a position the log still reaches back to. */
  ghost predicate LogAnswer(r: Rep, accept: string -> bool, after: int, chunk: Chunk) {
    && chunk.Logs? && chunk.epoch == r.epoch && chunk.number == r.Seq()
    && (r.start <= after ==>
          OpsOf(chunk.entries) == Matching(if after < r.Seq() then r.ops[after - r.start..] else [], accept))
  }

  /** The matching data as of a new checkpoint. */
  ghost predicate SnapshotAnswer(r: Rep, accept: string -> bool, chunk: Chunk) {
    chunk.Full? && chunk.epoch == r.epoch && chunk.number == r.Seq() + 1 && chunk.data == Restrict(r.Content(), accept)
  }

  /** What a leader in state r answers to an export request. */
  ghost predicate Answered(r: Rep, accept: string -> bool, freezeKeys: bool, after: int, chunk: Chunk) {
    if freezeKeys && r.walBase <= after then LogAnswer(r, accept, after, chunk) else SnapshotAnswer(r, accept, chunk)
  }

  /** The operations of a list of log entries. */
  function OpsOf(entries: seq<LogEntry>): (ops: seq<Op>)
    ensures |ops| == |entries|
  {
    if entries == [] then [] else OpsOf(entries[..|entries| - 1]) + [entries[|entries| - 1].op]
  }

  lemma {:induction false} OpsNumbered(after: int, ops: seq<Op>)
    ensures OpsOf(Numbered(after, ops)) == ops
  {
    if ops == [] {
    } else {
      var entries := Numbered(after, ops);
      OpsNumbered(after, ops[..|ops| - 1]);
      assert entries[..|entries| - 1] == Numbered(after, ops[..|ops| - 1]);
    }
  }
}

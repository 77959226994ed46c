/** The in-memory LSM store: a mutable memtable over immutable levels, with background compaction. */
module Lsm {
  import opened Ops

  datatype Entry = Entry(value: string, deleted: bool)
  type Slab = map<string, Entry>

  /** A Go map: the memtable while it takes writes, the content of a level afterwards. */
  class Table {
    var data: Slab

    constructor (data: Slab)
      ensures this.data == data
    {
      this.data := data;
    }
  }

  datatype Level = Level(table: Table, checkpoint: int)

  /** An immutable picture of the store: the levels as of a checkpoint. */
  datatype View = View(levels: seq<Level>, checkpoint: int)

  /** What a running compaction remembers between its two critical sections. */
  datatype Job = Job(input: seq<Level>, resets: nat)

  /** A view that was handed out, and the data it stood for at that moment. */
  datatype Issued = Issued(view: View, data: Data)

  // ----- data as a value -----

  /** Newer entries on top of older data; tombstones hide it. */
  function Overlay(m: Data, s: Slab): Data {
    map k | k in m.Keys + s.Keys && (k in s ==> !s[k].deleted) :: if k in s then s[k].value else m[k]
  }

  lemma OverlayLookup(m: Data, s: Slab, k: string)
    ensures Lookup(Overlay(m, s), k) ==
      if k in s then (if s[k].deleted then None else Some(s[k].value)) else Lookup(m, k)
  {}

  lemma OverlayPut(m: Data, s: Slab, k: string, e: Entry)
    ensures Overlay(m, s[k := e]) == if e.deleted then Overlay(m, s) - {k} else Overlay(m, s)[k := e.value]
  {
    var r := if e.deleted then Overlay(m, s) - {k} else Overlay(m, s)[k := e.value];
    assert Overlay(m, s[k := e]).Keys == r.Keys;
  }

  /** A slab without tombstones that holds exactly m. */
  function LiveSlab(m: Data): Slab {
    map k | k in m :: Entry(m[k], false)
  }

  lemma OverlayLive(m: Data)
    ensures Overlay(map[], LiveSlab(m)) == m
  {
    assert Overlay(map[], LiveSlab(m)).Keys == m.Keys;
  }

  lemma OverlayEmpty(m: Data)
    ensures Overlay(m, map[]) == m
  {
    assert Overlay(m, map[]).Keys == m.Keys;
  }

  type Frozen = map<Table, Slab>

  ghost predicate Known(levels: seq<Level>, frozen: Frozen) {
    forall i :: 0 <= i < |levels| ==> levels[i].table in frozen
  }

  /** The data held by a stack of levels, oldest first. */
  ghost function LevelData(levels: seq<Level>, frozen: Frozen): Data
    requires Known(levels, frozen)
  {
    if levels == [] then map[]
    else Overlay(LevelData(levels[..|levels| - 1], frozen), frozen[levels[|levels| - 1].table])
  }

  ghost predicate Grows(before: Frozen, after: Frozen) {
    forall t :: t in before ==> t in after && after[t] == before[t]
  }

  lemma {:induction false} LevelDataGrows(levels: seq<Level>, before: Frozen, after: Frozen)
    requires Known(levels, before) && Grows(before, after)
    ensures Known(levels, after) && LevelData(levels, after) == LevelData(levels, before)
  {
    if levels == [] {
    } else {
      LevelDataGrows(levels[..|levels| - 1], before, after);
    }
  }

  lemma LevelDataAppend(levels: seq<Level>, l: Level, frozen: Frozen)
    requires Known(levels, frozen) && l.table in frozen
    ensures Known(levels + [l], frozen)
    ensures LevelData(levels + [l], frozen) == Overlay(LevelData(levels, frozen), frozen[l.table])
  {
    assert (levels + [l])[..|levels|] == levels;
  }

  lemma LevelDataOne(l: Level, frozen: Frozen)
    requires l.table in frozen
    ensures Known([l], frozen) && LevelData([l], frozen) == Overlay(map[], frozen[l.table])
  {
    LevelDataAppend([], l, frozen);
    assert [] + [l] == [l];
  }

  /** Replacing the bottom of the stack by levels with the same data changes nothing above. */
  lemma {:induction false} LevelDataRebase(a: seq<Level>, b: seq<Level>, top: seq<Level>, frozen: Frozen)
    requires Known(a + top, frozen) && Known(b, frozen) && Known(a, frozen)
    requires LevelData(a, frozen) == LevelData(b, frozen)
    ensures Known(b + top, frozen) && LevelData(b + top, frozen) == LevelData(a + top, frozen)
    decreases |top|
  {
    if top == [] {
      assert a + top == a && b + top == b;
    } else {
      var n := |top| - 1;
      assert a + top == (a + top[..n]) + [top[n]] && b + top == (b + top[..n]) + [top[n]];
      assert forall i :: 0 <= i < |top| ==> top[i] == (a + top)[|a| + i];
      assert Known(a + top[..n], frozen);
      LevelDataRebase(a, b, top[..n], frozen);
      LevelDataAppend(a + top[..n], top[n], frozen);
      LevelDataAppend(b + top[..n], top[n], frozen);
    }
  }

  // ----- the store -----

  class Store {
    var active: Table
    var levels: seq<Level>
    var resets: nat
    const flushSize: nat
    const maxLevels: nat
    /** Set while the compaction lock is held. */
    var job: Option<Job>

    /** Every table that ever stopped taking writes, with its content. */
    ghost var frozen: Frozen
    /** Every view ever handed out. */
    ghost var issued: set<Issued>

    ghost predicate Valid()
      reads this, frozen.Keys
    {
      && active !in frozen && flushSize > 0
      && (forall t :: t in frozen ==> t.data == frozen[t])
      && Known(levels, frozen)
      && (job.Some? ==> JobValid(job.value))
      && (forall v :: v in issued ==> Known(v.view.levels, frozen) && LevelData(v.view.levels, frozen) == v.data)
    }

    /** Unless the store was reset meanwhile, the compaction's input is still the bottom of the stack. */
    ghost predicate JobValid(j: Job)
      reads this
    {
      && |j.input| >= 2
      && Known(j.input, frozen)
      && j.resets <= resets
      && (j.resets == resets ==> j.input <= levels)
    }

    /** The plain map the store stands for. */
    ghost function Contents(): Data
      requires Valid()
      reads this, active, frozen.Keys
    {
      Overlay(LevelData(levels, frozen), active.data)
    }

    constructor (flushSize: int, maxLevels: int)
      ensures Valid() && Contents() == map[] && levels == [] && issued == {} && fresh(active) && frozen == map[]
      ensures this.flushSize == (if flushSize <= 0 then 4096 else flushSize)
      ensures this.maxLevels == (if maxLevels <= 0 then 4 else maxLevels)
    {
      active := new Table(map[]);
      levels, resets, job := [], 0, None;
      this.flushSize := if flushSize <= 0 then 4096 else flushSize;
      this.maxLevels := if maxLevels <= 0 then 4 else maxLevels;
      frozen, issued := map[], {};
    }

    method Get(key: string) returns (value: string, found: bool)
      requires Valid()
      ensures found <==> key in Contents()
      ensures found ==> value == Contents()[key]
    {
      OverlayLookup(LevelData(levels, frozen), active.data, key);
      if key in active.data {
        var e := active.data[key];
        return e.value, !e.deleted;
      }
      assert levels[..|levels|] == levels;
      var i := |levels|;
      while i > 0
        invariant 0 <= i <= |levels| && Known(levels[..i], frozen)
        invariant Lookup(Contents(), key) == Lookup(LevelData(levels[..i], frozen), key)
      {
        i := i - 1;
        var t := levels[i].table;
        assert levels[..i + 1][..i] == levels[..i];
        OverlayLookup(LevelData(levels[..i], frozen), frozen[t], key);
        if key in t.data {
          var e := t.data[key];
          return e.value, !e.deleted;
        }
      }
      value, found := "", false;
    }

    method Put(key: string, value: string)
      requires Valid()
      modifies active
      ensures Valid() && Contents() == old(Contents())[key := value]
    {
      OverlayPut(LevelData(levels, frozen), active.data, key, Entry(value, false));
      active.data := active.data[key := Entry(value, false)];
    }

    /** Writes a tombstone so older levels stop answering for key. */
    method Delete(key: string)
      requires Valid()
      modifies active
      ensures Valid() && Contents() == old(Contents()) - {key}
    {
      OverlayPut(LevelData(levels, frozen), active.data, key, Entry("", true));
      active.data := active.data[key := Entry("", true)];
    }

    method ShouldFlush() returns (b: bool)
      ensures b == (|active.data| >= flushSize)
    {
      b := |active.data| >= flushSize;
    }

    /**
     * Turns the memtable itself into the newest level and returns a view of all levels. From here
     * on nobody writes to that table, which is what keeps the view sound.
     */
    method Flush(checkpoint: int) returns (view: View, needCompaction: bool)
      requires Valid()
      modifies this`active, this`levels, this`frozen, this`issued
      ensures Valid() && Contents() == old(Contents())
      ensures view == View(levels, checkpoint)
      ensures issued == old(issued) + {Issued(view, Contents())}
      ensures Grows(old(frozen), frozen)
      ensures active.data == map[]
      ensures if old(|active.data|) > 0
        then levels == old(levels) + [Level(old(active), checkpoint)] && fresh(active)
        else levels == old(levels) && active == old(active)
      ensures Known(levels, frozen) && LevelData(levels, frozen) == Contents()
      ensures needCompaction == (|levels| > maxLevels)
    {
      hide LevelData, Overlay;
      ghost var data := Contents();
      if |active.data| > 0 {
        Freeze(checkpoint);
      }
      assert active.data == map[];
      OverlayEmpty(LevelData(levels, frozen));
      view := View(levels, checkpoint);
      issued := issued + {Issued(view, data)};
      needCompaction := |levels| > maxLevels;
    }

    method Freeze(checkpoint: int)
      requires Valid()
      modifies this`active, this`levels, this`frozen
      ensures Valid() && Contents() == old(Contents())
      ensures Grows(old(frozen), frozen)
      ensures levels == old(levels) + [Level(old(active), checkpoint)] && fresh(active) && active.data == map[]
    {
      hide LevelData, Overlay;
      ghost var frozen' := frozen[active := active.data];
      LevelsGrow(frozen');
      LevelDataAppend(levels, Level(active, checkpoint), frozen');
      levels := levels + [Level(active, checkpoint)];
      frozen := frozen';
      active := new Table(map[]);
      OverlayEmpty(LevelData(levels, frozen));
    }

    /** Freezing one more table does not change what any known stack of levels holds. */
    lemma LevelsGrow(after: Frozen)
      requires Valid() && Grows(frozen, after)
      ensures Known(levels, after) && LevelData(levels, after) == LevelData(levels, frozen)
      ensures job.Some? ==> Known(job.value.input, after) && LevelData(job.value.input, after) == LevelData(job.value.input, frozen)
      ensures forall v :: v in issued ==> Known(v.view.levels, after) && LevelData(v.view.levels, after) == v.data
    {
      LevelDataGrows(levels, frozen, after);
      if job.Some? {
        LevelDataGrows(job.value.input, frozen, after);
      }
      forall v | v in issued
        ensures Known(v.view.levels, after) && LevelData(v.view.levels, after) == v.data
      {
        LevelDataGrows(v.view.levels, frozen, after);
      }
    }

    /** First critical section of a compaction: remember the current levels. */
    method BeginCompaction() returns (started: bool)
      requires Valid()
      modifies this`job
      ensures Valid()
      ensures started <==> old(job).None? && |levels| >= 2
      ensures started ==> job == Some(Job(levels, resets))
      ensures !started ==> job == old(job)
    {
      if job.Some? || |levels| < 2 {
        return false;
      }
      job := Some(Job(levels, resets));
      started := true;
    }

    /** The merge runs outside the lock: it only reads tables nobody writes to any more. */
    method Merge(input: seq<Level>) returns (merged: Slab)
      requires Valid() && Known(input, frozen)
      ensures merged == LiveSlab(LevelData(input, frozen))
    {
      merged := map[];
      assert input[..0] == [];
      for n := 0 to |input|
        invariant Known(input[..n], frozen)
        invariant merged == LiveSlab(LevelData(input[..n], frozen))
      {
        assert input[..n + 1] == input[..n] + [input[n]];
        LevelDataAppend(input[..n], input[n], frozen);
        merged := MergeOne(merged, LevelData(input[..n], frozen), input[n].table.data);
      }
      assert input[..|input|] == input;
    }

    /** One level of the merge; the entries come in any order. */
    static method MergeOne(merged: Slab, ghost below: Data, data: Slab) returns (out: Slab)
      requires merged == LiveSlab(below)
      ensures out == LiveSlab(Overlay(below, data))
    {
      out := merged;
      var todo := data.Keys;
      while todo != {}
        invariant todo <= data.Keys
        invariant forall k :: k in todo ==> (k in out <==> k in merged) && (k in out ==> out[k] == merged[k])
        invariant forall k :: k !in todo ==>
          (k in out <==> k in Overlay(below, data)) && (k in out ==> out[k] == Entry(Overlay(below, data)[k], false))
        decreases todo
      {
        var k :| k in todo;
        if data[k].deleted {
          out := out - {k};
        } else {
          out := out[k := data[k]];
        }
        todo := todo - {k};
      }
    }

    /**
     * Second critical section: the merged level replaces the input, levels flushed meanwhile stay
     * on top. After a reset the result is thrown away.
     */
    method InstallCompaction(merged: Slab)
      requires Valid() && job.Some? && merged == LiveSlab(LevelData(job.value.input, frozen))
      modifies this`levels, this`frozen, this`job
      ensures Valid() && Contents() == old(Contents())
      ensures job.None? && Grows(old(frozen), frozen)
      ensures old(job.value.resets) != resets ==> levels == old(levels) && frozen == old(frozen)
      ensures old(job.value.resets) == resets ==>
        var input := old(job.value.input);
        && input <= old(levels) && Known(input, frozen) && |levels| > 0
        && levels[0].checkpoint == input[|input| - 1].checkpoint
        && levels == [levels[0]] + old(levels)[|input|..]
        && LevelData([levels[0]], frozen) == LevelData(input, frozen)
    {
      hide LevelData, Overlay, LiveSlab;
      var input, seen := job.value.input, job.value.resets;
      ghost var data := LevelData(input, frozen);
      job := None;
      if seen != resets {
        return;
      }
      var t := new Table(merged);
      var bottom := Level(t, input[|input| - 1].checkpoint);
      ghost var frozen' := frozen[t := merged];
      LevelsGrow(frozen');
      LevelDataGrows(input, frozen, frozen');
      ghost var top := levels[|input|..];
      assert levels == input + top;
      OverlayLive(data);
      LevelDataOne(bottom, frozen');
      LevelDataRebase(input, [bottom], top, frozen');
      levels := [bottom] + levels[|input|..];
      frozen := frozen';
    }

    /** Replaces the whole content, e.g. by a snapshot received from the leader. */
    method Load(data: Data, checkpoint: int)
      requires Valid()
      modifies this`active, this`levels, this`frozen, this`resets
      ensures Valid() && Contents() == data
      ensures resets == old(resets) + 1 && fresh(active) && active.data == map[] && Grows(old(frozen), frozen)
      ensures |levels| == 1 && levels[0].checkpoint == checkpoint && Known(levels, frozen) && LevelData(levels, frozen) == data
    {
      hide LevelData, Overlay, LiveSlab;
      var t := new Table(LiveSlab(data));
      ghost var frozen' := frozen[t := LiveSlab(data)];
      LevelsGrow(frozen');
      OverlayLive(data);
      OverlayEmpty(data);
      LevelDataOne(Level(t, checkpoint), frozen');
      frozen := frozen';
      resets := resets + 1;
      active := new Table(map[]);
      levels := [Level(t, checkpoint)];
    }

    method Reset()
      requires Valid()
      modifies this`active, this`levels, this`resets
      ensures Valid() && Contents() == map[]
      ensures resets == old(resets) + 1 && fresh(active) && active.data == map[] && levels == []
    {
      resets := resets + 1;
      active := new Table(map[]);
      levels := [];
      OverlayEmpty(map[]);
    }

    /** Whenever a view is flattened, however late, it yields the data as of its flush. */
    method Materialize(view: View, accept: string -> bool, ghost data: Data) returns (out: Data)
      requires Valid() && Issued(view, data) in issued
      ensures out == Restrict(data, accept)
    {
      out := map[];
      var levels := view.levels;
      assert levels[..0] == [];
      for n := 0 to |levels|
        invariant Known(levels[..n], frozen)
        invariant out == Restrict(LevelData(levels[..n], frozen), accept)
      {
        assert levels[..n + 1] == levels[..n] + [levels[n]];
        LevelDataAppend(levels[..n], levels[n], frozen);
        out := MaterializeOne(out, LevelData(levels[..n], frozen), levels[n].table.data, accept);
      }
      assert levels[..|levels|] == levels;
    }

    static method MaterializeOne(sofar: Data, ghost below: Data, data: Slab, accept: string -> bool) returns (out: Data)
      requires sofar == Restrict(below, accept)
      ensures out == Restrict(Overlay(below, data), accept)
    {
      out := sofar;
      var todo := data.Keys;
      ghost var goal := Restrict(Overlay(below, data), accept);
      while todo != {}
        invariant todo <= data.Keys
        invariant forall k :: k in todo ==> Lookup(out, k) == Lookup(sofar, k)
        invariant forall k :: k !in todo ==> Lookup(out, k) == Lookup(goal, k)
        decreases todo
      {
        var k :| k in todo;
        if accept(k) {
          if data[k].deleted {
            out := out - {k};
          } else {
            out := out[k := data[k].value];
          }
        }
        todo := todo - {k};
      }
      LookupExtensional(out, goal);
    }
  }

  // ----- any interleaving -----

  /** What can happen to a store; a compaction begins at one moment and is installed at a later one. */
  datatype Act =
    | PutKey(key: string, value: string) | DeleteKey(key: string) | FlushAt(checkpoint: int)
    | StartCompaction | FinishCompaction | LoadAll(data: Data, checkpoint: int) | ResetAll

  /** What it means for a plain map. */
  function PlainAct(m: Data, act: Act): Data {
    match act
    case PutKey(k, v) => m[k := v]
    case DeleteKey(k) => m - {k}
    case LoadAll(data, _) => data
    case ResetAll => map[]
    case _ => m
  }

  function Plain(m: Data, acts: seq<Act>): Data {
    if acts == [] then m else PlainAct(Plain(m, acts[..|acts| - 1]), acts[|acts| - 1])
  }

  method Perform(s: Store, act: Act)
    requires s.Valid()
    modifies s, s.active
    ensures s.Valid() && s.Contents() == PlainAct(old(s.Contents()), act)
    ensures old(s.issued) <= s.issued && (s.active == old(s.active) || fresh(s.active))
  {
    hide Known, LevelData, Overlay, Grows, Store.JobValid;
    match act
    case PutKey(k, v) => s.Put(k, v);
    case DeleteKey(k) => s.Delete(k);
    case FlushAt(checkpoint) => var _, _ := s.Flush(checkpoint);
    case StartCompaction =>
      var _ := s.BeginCompaction();
    case FinishCompaction =>
      if s.job.Some? {
        JobKnown(s);
        var merged := s.Merge(s.job.value.input);
        s.InstallCompaction(merged);
      }
    case LoadAll(data, checkpoint) => s.Load(data, checkpoint);
    case ResetAll => s.Reset();
  }

  lemma JobKnown(s: Store)
    requires s.Valid() && s.job.Some?
    ensures Known(s.job.value.input, s.frozen)
  {}

  /**
   * The store is a plain map under every interleaving, and no view ever handed out is forgotten, so
   * Materialize keeps answering with the data as of its flush.
   */
  method PerformAll(s: Store, acts: seq<Act>)
    requires s.Valid()
    modifies s, s.active
    ensures s.Valid() && s.Contents() == Plain(old(s.Contents()), acts)
    ensures old(s.issued) <= s.issued
  {
    hide Store.Valid, Store.Contents, PlainAct;
    for i := 0 to |acts|
      invariant s.Valid() && s.Contents() == Plain(old(s.Contents()), acts[..i])
      invariant old(s.issued) <= s.issued && (s.active == old(s.active) || fresh(s.active))
    {
      assert acts[..i + 1][..i] == acts[..i];
      Perform(s, acts[i]);
    }
    assert acts[..|acts|] == acts;
  }
}

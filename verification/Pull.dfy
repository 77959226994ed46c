/** How the leader of a new-generation partition copies its keys from the old partitions. */
module Migration {
  import opened Ops
  import opened Wal
  import opened Lsm
  import opened Replica
  import opened Partitions

  /** An old partition to copy from, with the epoch the controller expects its leader to have. */
  datatype Source = Source(id: int, epoch: int)

  /** What comes back from a request to a source. */
  datatype Answer = Failed | Got(chunk: Chunk)

  /** A request for one source's keys: freeze them first or not, and the position to continue from. */
  datatype Request = Request(id: int, freeze: bool, after: int)

  predicate Usable(src: Source, a: Answer) { a.Got? && a.chunk.epoch == src.epoch }

  function DataOf(c: Chunk): Data { if c.Full? then c.data else map[] }

  // ----- what a pull does to the target's content -----

  /** All bulk copies laid over m, in order. */
  function Copied(m: Data, bulk: seq<Chunk>): Data {
    if bulk == [] then m else Copied(m, bulk[..|bulk| - 1]) + DataOf(bulk[|bulk| - 1])
  }

  /** After the first phase: the copies, without leftovers no source had. */
  function Bulk(m: Data, bulk: seq<Chunk>): Data {
    Copied(m, bulk) - (m.Keys - Copied(map[], bulk).Keys)
  }

  /** One source's answer to the second phase, given its first answer. */
  function CatchUp(m: Data, first: Chunk, second: Chunk): Data {
    match second
    case Logs(_, _, entries) => Replay(m, OpsOf(entries))
    case Full(_, _, data) => (m + data) - (DataOf(first).Keys - data.Keys)
  }

  function CaughtUp(m: Data, bulk: seq<Chunk>, frozen: seq<Chunk>): Data
    requires |bulk| >= |frozen|
  {
    if frozen == [] then m
    else
      var n := |frozen| - 1;
      CatchUp(CaughtUp(m, bulk[..n], frozen[..n]), bulk[n], frozen[n])
  }

  function Pulled(m: Data, bulk: seq<Chunk>, frozen: seq<Chunk>): Data
    requires |bulk| == |frozen|
  {
    CaughtUp(Bulk(m, bulk), bulk, frozen)
  }

  // ----- exactness -----

  /** A source as it really was: its whole history and the two positions it was read at. */
  datatype Truth = Truth(id: int, base: Data, history: seq<Op>, bulkAt: nat, frozenAt: nat)

  ghost predicate Plausible(t: Truth, owner: string -> int) {
    && t.bulkAt <= t.frozenAt <= |t.history|
    && (forall k :: k in t.base ==> owner(k) == t.id)
    && forall i :: 0 <= i < |t.history| ==> t.history[i].Checkpoint? || owner(t.history[i].key) == t.id
  }

  function At(t: Truth, n: nat, accept: string -> bool): Data
    requires n <= |t.history|
  {
    Restrict(Replay(t.base, t.history[..n]), accept)
  }

  /** The answers a source with this history gives: a snapshot, then the log since or a new snapshot. */
  ghost predicate Honest(t: Truth, accept: string -> bool, first: Chunk, second: Chunk)
    requires t.bulkAt <= t.frozenAt <= |t.history|
  {
    && DataOf(first) == At(t, t.bulkAt, accept)
    && match second
       case Logs(_, _, entries) => OpsOf(entries) == Matching(t.history[t.bulkAt..t.frozenAt], accept)
       case Full(_, _, data) => data == At(t, t.frozenAt, accept)
  }

  /** m answers, for the keys owned by t, exactly as d does. */
  ghost predicate Agrees(m: Data, t: Truth, owner: string -> int, d: Data) {
    forall k :: owner(k) == t.id ==> Lookup(m, k) == Lookup(d, k)
  }

  /** m has no key outside the given sources. */
  ghost predicate Within(m: Data, ts: seq<Truth>, owner: string -> int) {
    forall k :: k in m ==> exists i :: 0 <= i < |ts| && owner(k) == ts[i].id
  }

  ghost predicate Answers(ts: seq<Truth>, owner: string -> int, accept: string -> bool, bulk: seq<Chunk>, frozen: seq<Chunk>) {
    && |bulk| == |ts| && |frozen| == |ts|
    && (forall i :: 0 <= i < |ts| ==> Plausible(ts[i], owner) && Honest(ts[i], accept, bulk[i], frozen[i]))
    && (forall i, j :: 0 <= i < j < |ts| ==> ts[i].id != ts[j].id)
  }

  lemma {:induction false} ReplayLocal(a: Data, b: Data, ops: seq<Op>, k: string)
    requires Lookup(a, k) == Lookup(b, k)
    ensures Lookup(Replay(a, ops), k) == Lookup(Replay(b, ops), k)
  {
    if ops == [] {
    } else {
      ReplayLocal(a, b, ops[..|ops| - 1], k);
    }
  }

  /** A source only ever holds keys it owns. */
  lemma {:induction false} AtOwned(t: Truth, owner: string -> int, n: nat, accept: string -> bool, k: string)
    requires Plausible(t, owner) && n <= |t.history| && k in At(t, n, accept)
    ensures owner(k) == t.id
  {
    if owner(k) != t.id {
      ReplayOther(t.base, t.history[..n], k);
    }
  }

  /** The log between the two positions turns the first picture into the second. */
  lemma LogBridges(t: Truth, accept: string -> bool)
    requires t.bulkAt <= t.frozenAt <= |t.history|
    ensures Replay(At(t, t.bulkAt, accept), Matching(t.history[t.bulkAt..t.frozenAt], accept)) == At(t, t.frozenAt, accept)
  {
    var a, b := t.history[..t.bulkAt], t.history[t.bulkAt..t.frozenAt];
    assert t.history[..t.frozenAt] == a + b;
    ReplayConcat(t.base, a, b);
    ReplayMatching(Replay(t.base, a), b, accept);
  }

  lemma {:induction false} MatchingOwned(ops: seq<Op>, accept: string -> bool, owner: string -> int, id: int)
    requires forall i :: 0 <= i < |ops| ==> ops[i].Checkpoint? || owner(ops[i].key) == id
    ensures forall op :: op in Matching(ops, accept) ==> !op.Checkpoint? && owner(op.key) == id
  {
    if ops == [] {
    } else {
      MatchingOwned(ops[..|ops| - 1], accept, owner, id);
    }
  }

  /** One source's second answer brings its keys up to date and leaves all others alone. */
  lemma CatchUpExact(m: Data, t: Truth, owner: string -> int, accept: string -> bool, first: Chunk, second: Chunk)
    requires Plausible(t, owner) && Honest(t, accept, first, second)
    requires Agrees(m, t, owner, At(t, t.bulkAt, accept))
    ensures Agrees(CatchUp(m, first, second), t, owner, At(t, t.frozenAt, accept))
    ensures forall k :: owner(k) != t.id ==> Lookup(CatchUp(m, first, second), k) == Lookup(m, k)
  {
    var m' := CatchUp(m, first, second);
    match second
    case Logs(_, _, entries) =>
      var ops := OpsOf(entries);
      LogBridges(t, accept);
      MatchingOwned(t.history[t.bulkAt..t.frozenAt], accept, owner, t.id);
      forall k
        ensures owner(k) == t.id ==> Lookup(m', k) == Lookup(At(t, t.frozenAt, accept), k)
        ensures owner(k) != t.id ==> Lookup(m', k) == Lookup(m, k)
      {
        if owner(k) == t.id {
          ReplayLocal(m, At(t, t.bulkAt, accept), ops, k);
        } else {
          ReplayOther(m, ops, k);
        }
      }
    case Full(_, _, data) =>
      hide At, Replay, Restrict;
      forall k
        ensures owner(k) == t.id ==> Lookup(m', k) == Lookup(data, k)
        ensures owner(k) != t.id ==> Lookup(m', k) == Lookup(m, k)
      {
        FullLookup(m, first, data, k);
        if k in DataOf(first) {
          AtOwned(t, owner, t.bulkAt, accept, k);
        }
        if k in data {
          AtOwned(t, owner, t.frozenAt, accept, k);
        }
      }
  }

  lemma FullLookup(m: Data, first: Chunk, data: Data, k: string)
    ensures Lookup((m + data) - (DataOf(first).Keys - data.Keys), k) ==
      if k in data then Some(data[k]) else if k in DataOf(first) then None else Lookup(m, k)
  {}

  /** If only one copy can have k, that copy decides. */
  lemma {:induction false} CopiedOwned(m: Data, bulk: seq<Chunk>, k: string, j: nat)
    requires j <= |bulk| && forall i :: 0 <= i < |bulk| && i != j ==> k !in DataOf(bulk[i])
    ensures Lookup(Copied(m, bulk), k) == if j < |bulk| && k in DataOf(bulk[j]) then Some(DataOf(bulk[j])[k]) else Lookup(m, k)
  {
    if bulk == [] {
    } else {
      var n := |bulk| - 1;
      CopiedOwned(m, bulk[..n], k, if j < n then j else n);
    }
  }

  lemma CopiedExact(m: Data, ts: seq<Truth>, owner: string -> int, accept: string -> bool, bulk: seq<Chunk>, k: string)
    requires |bulk| == |ts|
    requires forall i :: 0 <= i < |ts| ==> Plausible(ts[i], owner) && DataOf(bulk[i]) == At(ts[i], ts[i].bulkAt, accept)
    requires forall i, j :: 0 <= i < j < |ts| ==> ts[i].id != ts[j].id
    ensures forall i :: 0 <= i < |ts| && owner(k) == ts[i].id ==>
      Lookup(Copied(m, bulk), k) == if k in DataOf(bulk[i]) then Some(DataOf(bulk[i])[k]) else Lookup(m, k)
    ensures (forall i :: 0 <= i < |ts| ==> owner(k) != ts[i].id) ==> Lookup(Copied(m, bulk), k) == Lookup(m, k)
  {
    hide At, Replay, Copied;
    forall i | 0 <= i < |ts| && k in DataOf(bulk[i])
      ensures owner(k) == ts[i].id
    {
      AtOwned(ts[i], owner, ts[i].bulkAt, accept, k);
    }
    forall i | 0 <= i < |ts| && owner(k) == ts[i].id
      ensures Lookup(Copied(m, bulk), k) == if k in DataOf(bulk[i]) then Some(DataOf(bulk[i])[k]) else Lookup(m, k)
    {
      CopiedOwned(m, bulk, k, i);
    }
    if forall i :: 0 <= i < |ts| ==> owner(k) != ts[i].id {
      CopiedOwned(m, bulk, k, |bulk|);
    }
  }

  /** After the first phase the target holds, whatever it held before, exactly the sources' first pictures. */
  lemma BulkExact(m: Data, ts: seq<Truth>, owner: string -> int, accept: string -> bool, bulk: seq<Chunk>, frozen: seq<Chunk>)
    requires Answers(ts, owner, accept, bulk, frozen)
    ensures forall i :: 0 <= i < |ts| ==> Agrees(Bulk(m, bulk), ts[i], owner, At(ts[i], ts[i].bulkAt, accept))
    ensures Within(Bulk(m, bulk), ts, owner)
  {
    var out := Bulk(m, bulk);
    forall k
      ensures forall i :: 0 <= i < |ts| && owner(k) == ts[i].id ==> Lookup(out, k) == Lookup(At(ts[i], ts[i].bulkAt, accept), k)
      ensures k in out ==> exists i :: 0 <= i < |ts| && owner(k) == ts[i].id
    {
      CopiedExact(m, ts, owner, accept, bulk, k);
      CopiedExact(map[], ts, owner, accept, bulk, k);
      BulkLookup(m, bulk, k);
    }
  }

  lemma BulkLookup(m: Data, bulk: seq<Chunk>, k: string)
    ensures Lookup(Bulk(m, bulk), k) ==
      if k in m && k !in Copied(map[], bulk) then None else Lookup(Copied(m, bulk), k)
  {}

  /**
   * A completed pull leaves the target holding exactly the union of the frozen sources' matching
   * keys, whatever it held before and whichever way each source answered.
   */
  lemma {:induction false} PullExact(m: Data, ts: seq<Truth>, owner: string -> int, accept: string -> bool,
                                     bulk: seq<Chunk>, frozen: seq<Chunk>)
    requires Answers(ts, owner, accept, bulk, frozen)
    ensures forall i :: 0 <= i < |ts| ==> Agrees(Pulled(m, bulk, frozen), ts[i], owner, At(ts[i], ts[i].frozenAt, accept))
    ensures Within(Pulled(m, bulk, frozen), ts, owner)
  {
    BulkExact(m, ts, owner, accept, bulk, frozen);
    CaughtUpExact(Bulk(m, bulk), ts, owner, accept, bulk, frozen, |ts|);
    assert bulk[..|ts|] == bulk && frozen[..|ts|] == frozen;
  }

  lemma {:induction false} CaughtUpExact(m: Data, ts: seq<Truth>, owner: string -> int, accept: string -> bool,
                                         bulk: seq<Chunk>, frozen: seq<Chunk>, n: nat)
    requires Answers(ts, owner, accept, bulk, frozen) && n <= |ts|
    requires Within(m, ts, owner)
    requires forall i :: 0 <= i < |ts| ==> Agrees(m, ts[i], owner, At(ts[i], ts[i].bulkAt, accept))
    ensures var m' := CaughtUp(m, bulk[..n], frozen[..n]);
      && Within(m', ts, owner)
      && (forall i :: 0 <= i < n ==> Agrees(m', ts[i], owner, At(ts[i], ts[i].frozenAt, accept)))
      && (forall i :: n <= i < |ts| ==> Agrees(m', ts[i], owner, At(ts[i], ts[i].bulkAt, accept)))
    decreases n
  {
    hide At, Honest, Plausible, CatchUp;
    if n == 0 {
    } else {
      CaughtUpExact(m, ts, owner, accept, bulk, frozen, n - 1);
      assert bulk[..n][..n - 1] == bulk[..n - 1] && frozen[..n][..n - 1] == frozen[..n - 1];
      var before := CaughtUp(m, bulk[..n - 1], frozen[..n - 1]);
      var after := CatchUp(before, bulk[n - 1], frozen[n - 1]);
      CatchUpExact(before, ts[n - 1], owner, accept, bulk[n - 1], frozen[n - 1]);
      assert after == CaughtUp(m, bulk[..n], frozen[..n]);
      assert Within(after, ts, owner) by {
        forall k | k in after
          ensures exists i :: 0 <= i < |ts| && owner(k) == ts[i].id
        {
          if owner(k) != ts[n - 1].id {
            assert Lookup(after, k) == Lookup(before, k);
          }
        }
      }
      forall i | 0 <= i < |ts| && i != n - 1
        ensures forall k :: owner(k) == ts[i].id ==> Lookup(after, k) == Lookup(before, k)
      {
        assert ts[i].id != ts[n - 1].id;
      }
    }
  }

  // ----- the code -----

  /** Replaying ops lays data over whatever is there. */
  ghost predicate Lays(ops: seq<Op>, data: Data) {
    forall m :: Replay(m, ops) == m + data
  }

  /** Replaying ops removes exactly these keys. */
  ghost predicate Clears(ops: seq<Op>, keys: set<string>) {
    forall m :: Replay(m, ops) == m - keys
  }

  ghost predicate Touches(ops: seq<Op>, keys: set<string>) {
    forall op :: op in ops ==> !op.Checkpoint? && op.key in keys
  }

  /** ops carry out one source's second answer. */
  ghost predicate CatchesUp(ops: seq<Op>, first: Chunk, second: Chunk) {
    && (forall m :: Replay(m, ops) == CatchUp(m, first, second))
    && match second
       case Logs(_, _, entries) => ops == OpsOf(entries)
       case Full(_, _, data) => Touches(ops, data.Keys + DataOf(first).Keys)
  }

  lemma NothingDone()
    ensures Lays([], map[]) && Clears([], {})
  {
    forall m: Data
      ensures Replay(m, []) == m + map[] && Replay(m, []) == m - {}
    {
      ReplayNone(m);
    }
  }

  lemma LaysOne(ops: seq<Op>, data: Data, k: string, v: string)
    requires Lays(ops, data)
    ensures Lays(ops + [Set(k, v)], data[k := v])
  {
    forall m
      ensures Replay(m, ops + [Set(k, v)]) == m + data[k := v]
    {
      ReplayOne(m, ops, Set(k, v));
      assert Replay(m, ops) == m + data;
      assert (m + data)[k := v] == m + data[k := v];
    }
  }

  lemma ClearsOne(ops: seq<Op>, keys: set<string>, k: string)
    requires Clears(ops, keys)
    ensures Clears(ops + [Delete(k)], keys + {k})
  {
    forall m
      ensures Replay(m, ops + [Delete(k)]) == m - (keys + {k})
    {
      ReplayOne(m, ops, Delete(k));
      assert Replay(m, ops) == m - keys;
      assert (m - keys) - {k} == m - (keys + {k});
    }
  }

  /** Set operations for every key of data, in any order. */
  method SetOps(data: Data) returns (ops: seq<Op>)
    ensures Lays(ops, data) && Touches(ops, data.Keys)
  {
    hide Lays, Clears;
    ops := [];
    var todo, written: Data := data.Keys, map[];
    NothingDone();
    while todo != {}
      invariant todo <= data.Keys && written.Keys == data.Keys - todo
      invariant forall k :: k in written ==> written[k] == data[k]
      invariant Lays(ops, written) && Touches(ops, data.Keys)
      decreases todo
    {
      var k :| k in todo;
      LaysOne(ops, written, k, data[k]);
      ops := ops + [Set(k, data[k])];
      written := written[k := data[k]];
      todo := todo - {k};
    }
    assert written == data;
  }

  /** Delete operations for every key of a set, in any order. */
  method DeleteOps(keys: set<string>) returns (ops: seq<Op>)
    ensures Clears(ops, keys) && Touches(ops, keys)
  {
    hide Lays, Clears;
    ops := [];
    var todo, gone: set<string> := keys, {};
    NothingDone();
    while todo != {}
      invariant todo <= keys && gone == keys - todo
      invariant Clears(ops, gone) && Touches(ops, keys)
      decreases todo
    {
      var k :| k in todo;
      ClearsOne(ops, gone, k);
      ops := ops + [Delete(k)];
      gone := gone + {k};
      todo := todo - {k};
    }
    assert gone == keys;
  }

  /** Imports in batches of a thousand. */
  method ImportOps(part: Partition, ops: seq<Op>) returns (ok: bool)
    requires part.Valid()
    modifies part`keys, part`rep, part.store, part.store.active, part.wal
    ensures part.Valid() && part.role == old(part.role) && part.rep.role == old(part.rep.role)
    ensures part.store.active == old(part.store.active) || fresh(part.store.active)
    ensures ok ==> part.rep.Content() == Replay(old(part.rep.Content()), ops)
    ensures old(part.rep.role) == Leader ==> ok
  {
    hide Partition.Stored, Partition.Logged, Replay;
    var rest := ops;
    ghost var content := part.rep.Content();
    ghost var sent := [];
    assert Replay(content, []) == content by { ReplayNone(content); }
    assert sent + rest == ops;
    while rest != []
      invariant part.Valid() && part.role == old(part.role) && part.rep.role == old(part.rep.role)
      invariant part.store.active == old(part.store.active) || fresh(part.store.active)
      invariant sent + rest == ops && part.rep.Content() == Replay(content, sent)
      decreases |rest|
    {
      var n := if |rest| > 1000 then 1000 else |rest|;
      var r, _ := part.Import(rest[..n]);
      if r.Err? {
        return false;
      }
      ReplayConcat(content, sent, rest[..n]);
      sent := sent + rest[..n];
      rest := rest[n..];
      assert sent + rest == ops;
    }
    assert sent == ops;
    ok := true;
  }

  lemma ReplayNone(m: Data)
    ensures Replay(m, []) == m
  {}

  /** The chunks of a list of answers. */
  function Chunks(answers: seq<Answer>): seq<Chunk> {
    seq(|answers|, i requires 0 <= i < |answers| => if answers[i].Got? then answers[i].chunk else Logs(0, 0, []))
  }

  predicate DistinctIds(sources: seq<Source>) {
    forall i, j :: 0 <= i < j < |sources| ==> sources[i].id != sources[j].id
  }

  predicate AllUsable(sources: seq<Source>, answers: seq<Answer>) {
    |answers| == |sources| && forall i :: 0 <= i < |sources| ==> Usable(sources[i], answers[i])
  }

  lemma CopiedAppend(m: Data, bulk: seq<Chunk>, c: Chunk)
    ensures Copied(m, bulk + [c]) == Copied(m, bulk) + DataOf(c)
  {
    assert (bulk + [c])[..|bulk|] == bulk;
  }

  lemma CaughtUpAppend(m: Data, bulk: seq<Chunk>, n: nat, frozen: seq<Chunk>, c: Chunk)
    requires |frozen| == n < |bulk|
    ensures CaughtUp(m, bulk[..n + 1], frozen + [c]) == CatchUp(CaughtUp(m, bulk[..n], frozen), bulk[n], c)
  {
    assert (frozen + [c])[..n] == frozen && bulk[..n + 1][..n] == bulk[..n];
  }

  /** What the bulk phase remembers of each source. */
  ghost predicate Remembered(sources: seq<Source>, firsts: seq<Chunk>, perSource: map<int, set<string>>, seqs: map<int, int>) {
    && |firsts| <= |sources|
    && forall i :: 0 <= i < |firsts| ==>
         var id := sources[i].id;
         && id in perSource && perSource[id] == DataOf(firsts[i]).Keys
         && id in seqs && seqs[id] == firsts[i].number
  }

  /** Phase one: bulk copies, while the sources keep taking writes. */
  method CopyAll(part: Partition, sources: seq<Source>, bulk: seq<Answer>)
    returns (ok: bool, seen: set<string>, perSource: map<int, set<string>>, seqs: map<int, int>, requests: seq<Request>)
    requires part.Valid() && part.rep.role == Leader && |bulk| == |sources| && DistinctIds(sources)
    modifies part`keys, part`rep, part.store, part.store.active, part.wal
    ensures part.Valid() && part.role == old(part.role) && part.rep.role == old(part.rep.role)
    ensures part.store.active == old(part.store.active) || fresh(part.store.active)
    ensures ok == AllUsable(sources, bulk)
    ensures ok <==> forall i :: 0 <= i < |sources| ==> bulk[i].Got? && bulk[i].chunk.epoch == sources[i].epoch
    ensures ok ==> part.rep.Content() == Copied(old(part.rep.Content()), Chunks(bulk))
    ensures ok ==> seen == Copied(map[], Chunks(bulk)).Keys
    ensures ok ==> Remembered(sources, Chunks(bulk), perSource, seqs)
    ensures ok ==> |requests| == |sources| && forall i :: 0 <= i < |sources| ==> requests[i] == Request(sources[i].id, false, 0)
  {
    hide Partition.Stored, Partition.Logged, Partition.Fields, Replay, Copied;
    seen, perSource, seqs, requests := {}, map[], map[], [];
    ghost var content := part.rep.Content();
    ghost var firsts: seq<Chunk> := [];
    CopiedNone(content);
    CopiedNone(map[]);
    for n := 0 to |sources|
      invariant part.Valid() && part.role == old(part.role) && part.rep.role == old(part.rep.role)
      invariant part.store.active == old(part.store.active) || fresh(part.store.active)
      invariant |firsts| == n && |requests| == n
      invariant forall i :: 0 <= i < n ==> Usable(sources[i], bulk[i]) && firsts[i] == bulk[i].chunk
      invariant part.rep.Content() == Copied(content, firsts) && seen == Copied(map[], firsts).Keys
      invariant Remembered(sources, firsts, perSource, seqs)
      invariant forall i :: 0 <= i < n ==> requests[i] == Request(sources[i].id, false, 0)
    {
      var src, answer := sources[n], bulk[n];
      requests := requests + [Request(src.id, false, 0)];
      if !Usable(src, answer) {
        return false, seen, perSource, seqs, requests;
      }
      var data := DataOf(answer.chunk);
      CopiedAppend(content, firsts, answer.chunk);
      CopiedAppend(map[], firsts, answer.chunk);
      seen := seen + data.Keys;
      perSource := perSource[src.id := data.Keys];
      seqs := seqs[src.id := answer.chunk.number];
      firsts := firsts + [answer.chunk];
      var ops := SetOps(data);
      var done := ImportOps(part, ops);
    }
    assert firsts == Chunks(bulk);
    ok := true;
  }

  lemma CopiedNone(m: Data)
    ensures Copied(m, []) == m
  {}

  /** What one source's second answer writes. */
  method CatchUpOps(second: Chunk, ghost first: Chunk, had: set<string>) returns (ops: seq<Op>)
    requires had == DataOf(first).Keys
    ensures CatchesUp(ops, first, second)
  {
    hide Replay;
    match second
    case Logs(_, _, entries) =>
      ops := OpsOf(entries);
    case Full(_, _, data) =>
      var sets := SetOps(data);
      var deletes := DeleteOps(had - data.Keys);
      ops := sets + deletes;
      forall m
        ensures Replay(m, ops) == CatchUp(m, first, second)
      {
        ReplayConcat(m, sets, deletes);
      }
  }

  /** Phase two: freeze the keys at each source and write what changed since its bulk copy. */
  method CatchUpAll(part: Partition, sources: seq<Source>, ghost firsts: seq<Chunk>, frozen: seq<Answer>,
                    perSource: map<int, set<string>>, seqs: map<int, int>)
    returns (ok: bool, requests: seq<Request>)
    requires part.Valid() && part.rep.role == Leader && |frozen| == |sources| == |firsts|
    requires Remembered(sources, firsts, perSource, seqs)
    modifies part`keys, part`rep, part.store, part.store.active, part.wal
    ensures part.Valid() && part.role == old(part.role) && part.rep.role == old(part.rep.role)
    ensures part.store.active == old(part.store.active) || fresh(part.store.active)
    ensures ok == AllUsable(sources, frozen)
    ensures ok <==> forall i :: 0 <= i < |sources| ==> frozen[i].Got? && frozen[i].chunk.epoch == sources[i].epoch
    ensures ok ==> part.rep.Content() == CaughtUp(old(part.rep.Content()), firsts, Chunks(frozen))
    ensures ok ==> |requests| == |sources| && forall i :: 0 <= i < |sources| ==> requests[i] == Request(sources[i].id, true, firsts[i].number)
  {
    hide Partition.Stored, Partition.Logged, Partition.Fields, Replay, CaughtUp, CatchUp;
    requests := [];
    ghost var content := part.rep.Content();
    ghost var seconds: seq<Chunk> := [];
    CaughtUpNone(content);
    for n := 0 to |sources|
      invariant part.Valid() && part.role == old(part.role) && part.rep.role == old(part.rep.role)
      invariant part.store.active == old(part.store.active) || fresh(part.store.active)
      invariant |seconds| == n && |requests| == n
      invariant forall i :: 0 <= i < n ==> Usable(sources[i], frozen[i]) && seconds[i] == frozen[i].chunk
      invariant part.rep.Content() == CaughtUp(content, firsts[..n], seconds)
      invariant forall i :: 0 <= i < n ==> requests[i] == Request(sources[i].id, true, firsts[i].number)
    {
      var src, answer := sources[n], frozen[n];
      requests := requests + [Request(src.id, true, seqs[src.id])];
      if !Usable(src, answer) {
        return false, requests;
      }
      CaughtUpAppend(content, firsts, n, seconds, answer.chunk);
      seconds := seconds + [answer.chunk];
      var ops := CatchUpOps(answer.chunk, firsts[n], perSource[src.id]);
      var done := ImportOps(part, ops);
    }
    assert seconds == Chunks(frozen) && firsts[..|sources|] == firsts;
    ok := true;
  }

  lemma CaughtUpNone(m: Data)
    ensures CaughtUp(m, [], []) == m
  {}

  /**
   * Fills the target from its sources. The answers the sources give are inputs; a failed answer,
   * or one from another epoch than expected, ends the attempt. Success leaves the target with
   * Pulled of whatever it held, and each second request continues from the first answer.
   */
  method Pull(part: Partition, sources: seq<Source>, bulk: seq<Answer>, frozen: seq<Answer>)
    returns (r: Option<int>, requests: seq<Request>)
    requires part.Valid() && |bulk| == |sources| && |frozen| == |sources| && DistinctIds(sources)
    modifies part`keys, part`rep, part.store, part.store.active, part.wal
    ensures part.Valid() && part.role == old(part.role)
    ensures r.Some? <==>
      && old(part.role) == Leader
      && forall i :: 0 <= i < |sources| ==>
           bulk[i].Got? && frozen[i].Got? && bulk[i].chunk.epoch == sources[i].epoch && frozen[i].chunk.epoch == sources[i].epoch
    ensures r.Some? ==> part.rep.Content() == Pulled(old(part.rep.Content()), Chunks(bulk), Chunks(frozen))
    ensures r.Some? ==> r.value == |part.rep.Content()|
    ensures r.Some? ==>
      && |requests| == 2 * |sources|
      && (forall i :: 0 <= i < |sources| ==> requests[i] == Request(sources[i].id, false, 0))
      && (forall i :: 0 <= i < |sources| ==>
            requests[|sources| + i] == Request(sources[i].id, true, Chunks(bulk)[i].number))
  {
    hide Partition.Stored, Partition.Logged, Replay, Restrict, Copied, CaughtUp, Store.Valid, Remembered, Rep.Content;
    requests := [];
    ghost var before := part.rep;
    var snap := part.TakeSnapshot(_ => true);
    if snap.Err? {
      return None, requests;
    }
    SnapshotIsAll(before, _ => true);
    var ok, seen, perSource, seqs, asked := CopyAll(part, sources, bulk);
    requests := asked;
    if !ok {
      return None, requests;
    }
    var stale := DeleteOps(snap.value.data.Keys - seen);
    var done := ImportOps(part, stale);
    ok, asked := CatchUpAll(part, sources, Chunks(bulk), frozen, perSource, seqs);
    requests := requests + asked;
    if !ok {
      return None, requests;
    }
    part.ContentIsReplay();
    r := Some(part.keys);
  }

  /** Logging a checkpoint changes no data, and an unfiltered snapshot has all of it. */
  lemma SnapshotIsAll(r: Rep, all: string -> bool)
    requires forall k :: all(k)
    ensures r.Log(Checkpoint).Content() == r.Content() && Restrict(r.Content(), all) == r.Content()
  {
    hide Rep.Content, Rep.Log, Replay, Partition.Valid;
    Partition.CheckpointKeeps(r);
    RestrictAll(r.Content(), all);
  }

  lemma RestrictAll(m: Data, all: string -> bool)
    requires forall k :: all(k)
    ensures Restrict(m, all) == m
  {}
}

/** Operations of a partition's log and what replaying them does to its data. */
module Ops {
  type Data = map<string, string>

  datatype Op = Set(key: string, value: string) | Delete(key: string) | Checkpoint

  /** An entry of a write-ahead log: an operation with its sequence number. */
  datatype LogEntry = LogEntry(number: int, op: Op)

  function ApplyOp(m: Data, op: Op): Data {
    match op
    case Set(k, v) => m[k := v]
    case Delete(k) => m - {k}
    case Checkpoint => m
  }

  /** The data after applying `ops` in order, starting from `m`. */
  function Replay(m: Data, ops: seq<Op>): Data {
    if ops == [] then m else ApplyOp(Replay(m, ops[..|ops| - 1]), ops[|ops| - 1])
  }

  lemma ReplayOne(m: Data, ops: seq<Op>, op: Op)
    ensures Replay(m, ops + [op]) == ApplyOp(Replay(m, ops), op)
  {
    assert (ops + [op])[..|ops|] == ops;
  }

  lemma {:induction false} ReplayConcat(m: Data, a: seq<Op>, b: seq<Op>)
    ensures Replay(m, a + b) == Replay(Replay(m, a), b)
    decreases |b|
  {
    if b == [] {
      assert a + b == a;
    } else {
      var b' := b[..|b| - 1];
      assert (a + b)[..|a + b| - 1] == a + b';
      ReplayConcat(m, a, b');
    }
  }

  /** Looking a key up as `Get` does: its value, if it is there. */
  datatype Option<T> = None | Some(value: T)

  function Lookup(m: Data, k: string): Option<string> {
    if k in m then Some(m[k]) else None
  }

  /** Two maps that answer every lookup alike are the same map. */
  lemma LookupExtensional(a: Data, b: Data)
    requires forall k :: Lookup(a, k) == Lookup(b, k)
    ensures a == b
  {
    forall k
      ensures k in a <==> k in b
      ensures k in a ==> a[k] == b[k]
    {
      assert Lookup(a, k) == Lookup(b, k);
    }
  }

  /** An operation only touches the key it names. */
  lemma ApplyOpOther(m: Data, op: Op, k: string)
    requires op.Checkpoint? || op.key != k
    ensures Lookup(ApplyOp(m, op), k) == Lookup(m, k)
  {}

  /** The number of live keys after a set: one more exactly if the key was missing. */
  lemma CountSet(m: Data, k: string, v: string)
    ensures |m[k := v]| == |m| + (if k in m then 0 else 1)
  {
    assert m[k := v].Keys == m.Keys + {k};
    assert |m[k := v]| == |m.Keys + {k}| && |m| == |m.Keys|;
  }

  /** The number of live keys after a delete: one less exactly if the key was there. */
  lemma CountDelete(m: Data, k: string)
    ensures |m - {k}| == |m| - (if k in m then 1 else 0)
  {
    assert (m - {k}).Keys == m.Keys - {k};
    assert |m - {k}| == |m.Keys - {k}| && |m| == |m.Keys|;
  }

  /** The operations of `ops` on keys accepted by `accept`, checkpoints left out. */
  function Matching(ops: seq<Op>, accept: string -> bool): seq<Op> {
    if ops == [] then []
    else
      var rest := Matching(ops[..|ops| - 1], accept);
      var op := ops[|ops| - 1];
      if !op.Checkpoint? && accept(op.key) then rest + [op] else rest
  }

  function Restrict(m: Data, accept: string -> bool): Data {
    map k | k in m && accept(k) :: m[k]
  }

  /** One operation: filtering before or after it gives the same data. */
  lemma ApplyRestrict(m: Data, op: Op, accept: string -> bool)
    ensures Restrict(ApplyOp(m, op), accept) ==
      if !op.Checkpoint? && accept(op.key) then ApplyOp(Restrict(m, accept), op) else Restrict(m, accept)
  {
    var l := Restrict(ApplyOp(m, op), accept);
    var r := if !op.Checkpoint? && accept(op.key) then ApplyOp(Restrict(m, accept), op) else Restrict(m, accept);
    assert l.Keys == r.Keys;
    assert forall k :: k in l ==> l[k] == r[k];
  }

  /** Filtering the log and filtering the data commute. */
  lemma {:induction false} ReplayMatching(m: Data, ops: seq<Op>, accept: string -> bool)
    ensures Replay(Restrict(m, accept), Matching(ops, accept)) == Restrict(Replay(m, ops), accept)
  {
    if ops == [] {
    } else {
      var front, op := ops[..|ops| - 1], ops[|ops| - 1];
      ReplayMatching(m, front, accept);
      ReplayOne(Restrict(m, accept), Matching(front, accept), op);
      ApplyRestrict(Replay(m, front), op, accept);
    }
  }

  /** Replaying operations on other keys does not change the answer for k. */
  lemma {:induction false} ReplayOther(m: Data, ops: seq<Op>, k: string)
    requires forall i :: 0 <= i < |ops| ==> ops[i].Checkpoint? || ops[i].key != k
    ensures Lookup(Replay(m, ops), k) == Lookup(m, k)
  {
    if ops == [] {
    } else {
      ReplayOther(m, ops[..|ops| - 1], k);
    }
  }
}

/** The layout: which node leads or replicates which partition, and which partition owns a key. */
module Layouts {
  import opened Ops

  datatype Stage = Active | HandingOff

  /** One partition; an empty leader means none. */
  datatype Part = Part(
    id: int, epoch: int, leader: string, followers: seq<string>, joining: seq<string>, evict: seq<string>,
    state: Stage, handoffTo: string, handoffAt: int, handoffVersion: int, pinned: bool)
  {
    predicate Has(node: string) { leader == node || node in followers || node in joining }

    /** Can writes currently be sent to the leader? */
    predicate Writable() { leader != "" && state != HandingOff }

    /** Every node that keeps a copy. */
    function Holders(): seq<string> { (if leader != "" then [leader] else []) + followers + joining }

    lemma HoldersHas(node: string)
      requires node != ""
      ensures node in Holders() <==> Has(node)
    {}
  }

  datatype Status = Pending | Done

  /** While the partition count changes, the next generation exists next to the current one. */
  datatype Resharding = Resharding(generation: int, count: int, parts: seq<Part>, status: seq<Status>)

  datatype Ref = Ref(generation: int, id: int)

  datatype Layout = Layout(
    version: int, generation: int, count: int, parts: seq<Part>, resharding: Option<Resharding>, members: map<string, int>)

  predicate Routable(l: Layout) { l.count > 0 && |l.parts| == l.count }

  /** The next generation is complete enough for keys to be routed to it. */
  predicate NextRoutable(r: Resharding) { r.count > 0 && |r.parts| == r.count && |r.status| == r.count }

  /** Has the hash's partition of the next generation taken over? */
  predicate Moved(l: Layout, h: nat) {
    l.resharding.Some? && NextRoutable(l.resharding.value) && l.resharding.value.status[h % l.resharding.value.count] == Done
  }

  /** The partition that owns the keys with hash h. */
  function Route(l: Option<Layout>, h: nat): Option<Ref> {
    if l.None? || !Routable(l.value) then None
    else if Moved(l.value, h) then Some(Ref(l.value.resharding.value.generation, h % l.value.resharding.value.count))
    else Some(Ref(l.value.generation, h % l.value.count))
  }

  predicate Owns(l: Option<Layout>, ref: Ref, h: nat) { Route(l, h) == Some(ref) }

  function Find(l: Option<Layout>, ref: Ref): Option<Part> {
    if l.None? then None
    else if ref.generation == l.value.generation && 0 <= ref.id < |l.value.parts| then Some(l.value.parts[ref.id])
    else if l.value.resharding.Some? && ref.generation == l.value.resharding.value.generation
            && 0 <= ref.id < |l.value.resharding.value.parts| then Some(l.value.resharding.value.parts[ref.id])
    else None
  }

  /** Whatever the layout looks like, a routed key has a partition to go to. */
  lemma RouteFinds(l: Option<Layout>, h: nat)
    ensures Route(l, h).Some? ==> Find(l, Route(l, h).value).Some?
  {}

  // ----- slices of node names -----

  function Removed(s: seq<string>, x: string): (r: seq<string>)
    ensures forall y :: y in r <==> y in s && y != x
    ensures |r| <= |s|
  {
    if s == [] then []
    else
      var front := Removed(s[..|s| - 1], x);
      if s[|s| - 1] == x then front else front + [s[|s| - 1]]
  }

  method RemoveString(slice: seq<string>, s: string) returns (out: seq<string>)
    ensures out == Removed(slice, s)
  {
    out := [];
    for i := 0 to |slice|
      invariant out == Removed(slice[..i], s)
    {
      assert slice[..i + 1][..i] == slice[..i];
      if slice[i] != s {
        out := out + [slice[i]];
      }
    }
    assert slice[..|slice|] == slice;
  }

  predicate Distinct(s: seq<string>) { forall i, j :: 0 <= i < j < |s| ==> s[i] != s[j] }

  lemma DistinctSplit(s: seq<string>)
    requires s != []
    ensures Distinct(s) <==> Distinct(s[..|s| - 1]) && s[|s| - 1] !in s[..|s| - 1]
  {
    var n := |s| - 1;
    if Distinct(s[..n]) && s[n] !in s[..n] {
      forall i, j | 0 <= i < j < |s|
        ensures s[i] != s[j]
      {
        assert s[i] == s[..n][i];
      }
    }
  }

  lemma {:induction false} RemovedDistinct(s: seq<string>, x: string)
    requires Distinct(s)
    ensures Distinct(Removed(s, x))
    ensures |Removed(s, x)| == |s| - (if x in s then 1 else 0)
  {
    hide Distinct;
    if s == [] {
    } else {
      var n := |s| - 1;
      var front := Removed(s[..n], x);
      DistinctSplit(s);
      RemovedDistinct(s[..n], x);
      if s[n] != x {
        assert (front + [s[n]])[..|front|] == front;
        DistinctSplit(front + [s[n]]);
      }
    }
  }

  lemma {:induction false} RemovedSame(s: seq<string>, x: string)
    requires x !in s
    ensures Removed(s, x) == s
  {
    if s == [] {
    } else {
      RemovedSame(s[..|s| - 1], x);
    }
  }

  // ----- routing while resharding -----

  predicate AllPending(r: Resharding) { forall i :: 0 <= i < |r.status| ==> r.status[i] == Pending }

  predicate AllDone(r: Resharding) { forall i :: 0 <= i < |r.status| ==> r.status[i] == Done }

  /** Steps of a layout that matter for routing; any other edit keeps the routing shape. */
  datatype RouteStep = Start(next: Resharding) | MarkDone(id: nat) | Finish | Edit(edited: Layout)

  predicate SameShape(a: Layout, b: Layout) {
    && b.generation == a.generation && b.count == a.count && |b.parts| == |a.parts|
    && (b.resharding.Some? <==> a.resharding.Some?)
    && (a.resharding.Some? ==>
          && b.resharding.value.generation == a.resharding.value.generation && b.resharding.value.count == a.resharding.value.count
          && |b.resharding.value.parts| == |a.resharding.value.parts| && b.resharding.value.status == a.resharding.value.status)
  }

  predicate RouteEnabled(l: Layout, step: RouteStep) {
    match step
    case Start(r) => l.resharding.None? && NextRoutable(r) && AllPending(r)
    case MarkDone(id) => l.resharding.Some? && id < |l.resharding.value.status|
    case Finish => l.resharding.Some? && AllDone(l.resharding.value)
    case Edit(e) => SameShape(l, e)
  }

  function RouteNext(l: Layout, step: RouteStep): Layout
    requires RouteEnabled(l, step)
  {
    match step
    case Start(r) => l.(resharding := Some(r))
    case MarkDone(id) => var r := l.resharding.value; l.(resharding := Some(r.(status := r.status[id := Done])))
    case Finish =>
      var r := l.resharding.value;
      l.(generation := r.generation, count := r.count, parts := r.parts, resharding := None)
    case Edit(e) => e
  }

  /** A layout in which routing is defined, with or without a next generation. */
  predicate Shaped(l: Layout) { Routable(l) && (l.resharding.Some? ==> NextRoutable(l.resharding.value)) }

  /** Only marking a target done moves keys, and only those that hash to it. */
  lemma RouteStepEffect(l: Layout, step: RouteStep, h: nat)
    requires Shaped(l) && RouteEnabled(l, step)
    ensures Shaped(RouteNext(l, step))
    ensures Route(Some(RouteNext(l, step)), h) ==
      if step.MarkDone? && h % l.resharding.value.count == step.id
      then Some(Ref(l.resharding.value.generation, step.id)) else Route(Some(l), h)
  {}

  ghost predicate RouteRun(l: Layout, steps: seq<RouteStep>, l': Layout)
    decreases |steps|
  {
    if steps == [] then l == l' else RouteEnabled(l, steps[0]) && RouteRun(RouteNext(l, steps[0]), steps[1..], l')
  }

  /** How often the owner of hash h changes along a run. */
  ghost function Moves(l: Layout, steps: seq<RouteStep>, h: nat): nat
    decreases |steps|
  {
    if steps == [] || !RouteEnabled(l, steps[0]) then 0
    else (if Route(Some(RouteNext(l, steps[0])), h) != Route(Some(l), h) then 1 else 0) + Moves(RouteNext(l, steps[0]), steps[1..], h)
  }

  predicate NoStartOrFinish(steps: seq<RouteStep>) {
    forall i :: 0 <= i < |steps| ==> !steps[i].Start? && !steps[i].Finish?
  }

  /** Between start and finish, a key moves at most once: when its target is marked done. */
  lemma {:induction false} MovesDuring(l: Layout, steps: seq<RouteStep>, l': Layout, h: nat)
    requires Shaped(l) && l.resharding.Some? && l.resharding.value.generation != l.generation
    requires RouteRun(l, steps, l') && NoStartOrFinish(steps)
    ensures Shaped(l') && l'.resharding.Some? && l'.resharding.value.generation != l'.generation
    ensures Moves(l, steps, h) == if Moved(l', h) && !Moved(l, h) then 1 else 0
    ensures Moved(l, h) ==> Moved(l', h)
    decreases |steps|
  {
    if steps == [] {
    } else {
      var m := RouteNext(l, steps[0]);
      RouteStepEffect(l, steps[0], h);
      MovesDuring(m, steps[1..], l', h);
    }
  }

  /**
   * Over a whole resharding (start, any commits and edits in any order, finish) every key changes
   * its owner exactly once.
   */
  lemma MovesOnce(l: Layout, r: Resharding, steps: seq<RouteStep>, l': Layout, h: nat)
    requires Shaped(l) && RouteEnabled(l, Start(r)) && r.generation != l.generation
    requires RouteRun(RouteNext(l, Start(r)), steps, l') && NoStartOrFinish(steps) && RouteEnabled(l', Finish)
    ensures Moves(l, [Start(r)] + steps + [Finish], h) == 1
    ensures l'.resharding.value.count > 0 && Route(Some(RouteNext(l', Finish)), h) == Some(Ref(l'.resharding.value.generation, h % l'.resharding.value.count))
  {
    var m := RouteNext(l, Start(r));
    RouteStepEffect(l, Start(r), h);
    MovesDuring(m, steps, l', h);
    RouteStepEffect(l', Finish, h);
    var all := [Start(r)] + steps + [Finish];
    assert all[1..] == steps + [Finish];
    MovesAppend(m, steps, l', [Finish], h);
    assert [Finish][1..] == [];
  }

  lemma {:induction false} MovesAppend(l: Layout, a: seq<RouteStep>, m: Layout, b: seq<RouteStep>, h: nat)
    requires RouteRun(l, a, m)
    ensures Moves(l, a + b, h) == Moves(l, a, h) + Moves(m, b, h)
    decreases |a|
  {
    if a == [] {
      assert a + b == b;
    } else {
      assert (a + b)[1..] == a[1..] + b;
      MovesAppend(RouteNext(l, a[0]), a[1..], m, b, h);
    }
  }
}

/**
 * Changing the number of partitions while clients keep writing. Leaders may hand over at any time;
 * every leader works with its own, possibly old, view of the layout, requests are admitted before
 * they are carried out, and any number of pulls run at once, also ones that nobody waits for any more.
 */
module Reshard {
  import opened Ops
  import opened Hash
  import opened Replica
  import opened Partitions
  import opened Migration
  import opened Layouts

  /** The leader of a partition and the number of the layout its node works with. */
  datatype Lead = Lead(rep: Rep, view: nat)

  /** A client write that its node admitted and has not answered yet. */
  datatype Call = Call(ref: Ref, op: Op)

  /**
   * A pull into partition id of a generation with count partitions: what the target held, what was
   * fetched so far, whether a source has frozen its keys and owes a snapshot, and what is still to be
   * imported. It is alive while its controller waits for it, and clean while no other pull has
   * imported into the target since it began. epoch and epochs are those of the target and of the
   * sources in the layout it was planned on.
   */
  datatype Attempt = Attempt(
    generation: int, id: nat, count: nat, epoch: int, epochs: seq<int>, alive: bool, clean: bool,
    leftover: Data, sources: seq<nat>, firsts: seq<Chunk>, swept: bool, waiting: bool, seconds: seq<Chunk>, todo: seq<Op>)
  {
    function Target(): Ref { Ref(generation, id) }

    function Source(i: nat): Ref
      requires i < |sources|
    {
      Ref(generation - 1, sources[i])
    }

    /** How many sources have frozen their keys. */
    function Frozen(): nat { |seconds| + if waiting then 1 else 0 }
  }

  /** counts records the partition count of every generation there has been. */
  datatype State = State(
    sum: string -> nat, past: seq<Layout>, current: Layout, counts: map<int, nat>,
    leaders: map<Ref, Lead>, calls: set<Call>, attempts: map<nat, Attempt>, now: int)

  function LayoutAt(s: State, v: nat): Layout { if v < |s.past| then s.past[v] else s.current }

  function Accept(sum: string -> nat, count: nat, id: nat): string -> bool {
    k => count > 0 && sum(k) % count == id
  }

  function Owner(sum: string -> nat, count: int): string -> int {
    k => if count > 0 then sum(k) % count else 0
  }

  // ----- the name of a freeze -----

  function Digit(d: nat): char
    requires d < 10
  {
    '0' + d as char
  }

  function Decimal(n: nat): string {
    if n < 10 then [Digit(n)] else Decimal(n / 10) + [Digit(n % 10)]
  }

  function Tag(count: nat, id: nat): string { Decimal(count) + "/" + Decimal(id) }

  lemma {:induction false} DecimalDigits(n: nat)
    ensures |Decimal(n)| > 0 && '/' !in Decimal(n)
  {
    if n >= 10 {
      DecimalDigits(n / 10);
    }
  }

  lemma {:induction false} DecimalInjective(a: nat, b: nat)
    requires Decimal(a) == Decimal(b)
    ensures a == b
  {
    var x, y := Decimal(a), Decimal(b);
    DecimalDigits(a / 10);
    DecimalDigits(b / 10);
    assert x[|x| - 1] == Digit(a % 10) && y[|y| - 1] == Digit(b % 10);
    if a >= 10 && b >= 10 {
      assert Decimal(a / 10) == x[..|x| - 1] && Decimal(b / 10) == y[..|y| - 1];
      DecimalInjective(a / 10, b / 10);
    }
  }

  lemma FirstSlash(p: string, rest: string)
    requires '/' !in p
    ensures (p + "/" + rest)[|p|] == '/' && forall i :: 0 <= i < |p| ==> (p + "/" + rest)[i] != '/'
  {
    assert forall i :: 0 <= i < |p| ==> (p + "/" + rest)[i] == p[i];
  }

  /** A tag names one target partition. */
  lemma TagInjective(c: nat, i: nat, d: nat, j: nat)
    requires Tag(c, i) == Tag(d, j)
    ensures c == d && i == j
  {
    var t, m, n := Tag(c, i), |Decimal(c)|, |Decimal(d)|;
    DecimalDigits(c);
    DecimalDigits(d);
    FirstSlash(Decimal(c), Decimal(i));
    FirstSlash(Decimal(d), Decimal(j));
    assert m == n;
    assert Decimal(c) == t[..m] && Decimal(d) == t[..n];
    assert Decimal(i) == t[m + 1..] && Decimal(j) == t[n + 1..];
    DecimalInjective(c, d);
    DecimalInjective(i, j);
  }

  // ----- steps -----

  datatype Step =
    | Admit(ref: Ref, op: Op)
    | Write(ref: Ref, op: Op, flush: bool)
    | Answer(ref: Ref, op: Op)
    | LogCheckpoint(ref: Ref)
    | Seal(ref: Ref, on: bool)
    | Observe(ref: Ref, view: nat)
    | Tick(now: int)
    | Join(ref: Ref, view: nat, epoch: int, retain: nat)
    | Drop(ref: Ref)
    | Handover(ref: Ref, rep: Rep, edited: Layout)
    | Begin(n: nat, generation: int, id: nat, epoch: int, sources: seq<nat>, epochs: seq<int>)
    | Copy(n: nat, chunk: Chunk, ops: seq<Op>)
    | Sweep(n: nat, ops: seq<Op>)
    | CatchUpLogs(n: nat, ttl: nat, chunk: Chunk, ops: seq<Op>)
    | FreezeOnly(n: nat, ttl: nat)
    | CatchUpSnapshot(n: nat, chunk: Chunk, ops: seq<Op>)
    | Import(n: nat, m: nat, flushes: seq<bool>)
    | Abort(n: nat)
    | Commit(n: nat)
    | Publish(change: RouteStep)

  /** Carried out now, the write would be accepted: nothing seals or freezes it. */
  predicate Accepts(s: State, ref: Ref, op: Op) {
    && ref in s.leaders && !op.Checkpoint?
    && var r := s.leaders[ref].rep;
       r.role == Leader && !r.sealed && !IsFrozen(r.freezes, op.key, s.now)
  }

  /** The node's own layout routes the key here. */
  predicate Addressed(s: State, ref: Ref, op: Op) {
    && ref in s.leaders && !op.Checkpoint?
    && Owns(Some(LayoutAt(s, s.leaders[ref].view)), ref, s.sum(op.key))
  }

  function SourceRef(s: State, p: nat): Ref { Ref(s.current.generation, p) }

  function TargetRef(s: State, id: nat): Ref { Ref(s.current.generation + 1, id) }

  function NextCount(s: State): nat {
    if s.current.resharding.Some? && s.current.resharding.value.count >= 0 then s.current.resharding.value.count else 0
  }

  /** The keys of an attempt's target. */
  function AcceptOf(s: State, a: Attempt): string -> bool { Accept(s.sum, a.count, a.id) }

  /** The list SourcePartitions computes. */
  ghost predicate SourcesOf(sources: seq<nat>, id: nat, oldCount: nat, newCount: nat) {
    && oldCount > 0 && newCount > 0
    && (forall p: nat :: p in sources <==> p < oldCount && Meet(p, id, oldCount, newCount))
    && (forall i, j :: 0 <= i < j < |sources| ==> sources[i] != sources[j])
  }

  predicate Complete(a: Attempt) { a.swept && |a.seconds| == |a.sources| && a.todo == [] }

  function RouteGen(l: Layout, h: nat): int {
    if Moved(l, h) then l.resharding.value.generation else l.generation
  }

  predicate Covers(s: State, ref: Ref, k: string) {
    ref.generation in s.counts && s.counts[ref.generation] > 0 && s.sum(k) % s.counts[ref.generation] == ref.id
  }

  /** A partition of the next generation that has not taken over yet. */
  predicate IsPending(s: State, generation: int, id: nat) {
    && s.current.resharding.Some? && generation == s.current.generation + 1
    && id < |s.current.resharding.value.status| && s.current.resharding.value.status[id] == Pending
  }

  /** A partition that owns keys in the current layout, or may. */
  predicate Serving(s: State, ref: Ref) {
    || ref.generation == s.current.generation
    || (ref.generation == s.current.generation + 1 && ref.id >= 0 && !IsPending(s, ref.generation, ref.id))
  }

  /** The target and all sources are still in the epochs the attempt was planned with. */
  predicate SameEpochs(l: Layout, a: Attempt) {
    && l.resharding.Some? && a.id < |l.resharding.value.parts| && l.resharding.value.parts[a.id].epoch == a.epoch
    && |a.epochs| == |a.sources|
    && forall i :: 0 <= i < |a.sources| ==> a.sources[i] < |l.parts| && l.parts[a.sources[i]].epoch == a.epochs[i]
  }

  /** The attempt was planned with epochs that have been reached. */
  predicate NotAhead(l: Layout, a: Attempt) {
    && |a.epochs| == |a.sources|
    && (Find(Some(l), a.Target()).Some? ==> a.epoch <= Find(Some(l), a.Target()).value.epoch)
    && forall i :: 0 <= i < |a.sources| && Find(Some(l), a.Source(i)).Some? ==> a.epochs[i] <= Find(Some(l), a.Source(i)).value.epoch
  }

  /** An attempt that could still be committed. */
  predicate Live(s: State, a: Attempt) { a.alive && a.clean && IsPending(s, a.generation, a.id) && SameEpochs(s.current, a) }

  /** An edit of the layout that raises the epochs of the given partitions and of no others. */
  ghost predicate Raises(l: Layout, l': Layout, raised: set<Ref>) {
    forall ref :: Find(Some(l), ref).Some? && Find(Some(l'), ref).Some? ==>
      if ref in raised then Find(Some(l'), ref).value.epoch > Find(Some(l), ref).value.epoch
      else Find(Some(l'), ref).value.epoch == Find(Some(l), ref).value.epoch
  }

  ghost predicate FrozenBy(a: Attempt, p: int) {
    exists i :: 0 <= i < a.Frozen() && i < |a.sources| && a.sources[i] == p
  }

  /** The attempt could still be committed and has frozen k at ref. */
  ghost predicate Freezes(s: State, a: Attempt, ref: Ref, k: string) {
    Live(s, a) && ref.generation == s.current.generation && FrozenBy(a, ref.id) && AcceptOf(s, a)(k)
  }

  ghost predicate Attempted(s: State, ref: Ref, k: string) {
    exists n :: n in s.attempts && Freezes(s, s.attempts[n], ref, k)
  }

  ghost predicate Called(s: State, ref: Ref, k: string) {
    exists c :: c in s.calls && c.ref == ref && !c.op.Checkpoint? && c.op.key == k
  }

  /** k has moved away from ref, whose node still works with a layout from before or with a request admitted under one. */
  ghost predicate Departed(s: State, ref: Ref, k: string)
    requires ref in s.leaders
  {
    && ref.generation < RouteGen(s.current, s.sum(k))
    && (RouteGen(LayoutAt(s, s.leaders[ref].view), s.sum(k)) <= ref.generation || Called(s, ref, k))
  }

  ghost predicate Needed(s: State, ref: Ref, k: string) {
    ref in s.leaders && Covers(s, ref, k) && (Attempted(s, ref, k) || Departed(s, ref, k))
  }

  // ----- assumptions -----

  /**
   * Time does not pass the deadline of a freeze that is still needed. The code keeps freezes for a
   * fixed time and does not check it when it commits.
   */
  ghost predicate FreezesLast(s: State, now: int) {
    forall ref, k :: Needed(s, ref, k) ==> IsFrozen(s.leaders[ref].rep.freezes, k, now)
  }

  /**
   * Nothing is imported into a partition that has taken over, and a pull is committed only if no
   * other one imported into its target since it began. The code checks neither: a pull whose
   * controller gave up goes on importing what it has fetched.
   */
  ghost predicate NoStrayImport(s: State, step: Step) {
    match step
    case Import(n, m, _) => n in s.attempts && m > 0 ==> !Serving(s, s.attempts[n].Target())
    case Commit(n) => n in s.attempts ==> s.attempts[n].clean
    case _ => true
  }

  ghost predicate Assumed(s: State, step: Step) {
    (step.Tick? ==> FreezesLast(s, step.now)) && NoStrayImport(s, step)
  }

  // ----- what the code does -----

  ghost predicate Enabled(s: State, step: Step) {
    match step
    case Admit(ref, op) => Addressed(s, ref, op)
    case Write(ref, op, _) => Call(ref, op) in s.calls && ref in s.leaders && !op.Checkpoint?
    case Answer(ref, op) => Call(ref, op) in s.calls
    case LogCheckpoint(ref) => ref in s.leaders
    case Seal(ref, _) => ref in s.leaders
    case Observe(ref, view) => ref in s.leaders && s.leaders[ref].view <= view <= |s.past|
    case Tick(now) => s.now <= now
    case Join(ref, view, _, _) =>
      && s.current.resharding.Some? && view <= |s.past| && ref !in s.leaders
      && ref.generation == s.current.resharding.value.generation && 0 <= ref.id < NextCount(s)
    case Drop(ref) => ref in s.leaders && ref.generation < LayoutAt(s, s.leaders[ref].view).generation
    case Handover(ref, rep, edited) =>
      && ref in s.leaders && s.leaders[ref].rep.sealed && Find(Some(s.current), ref).Some?
      && SameShape(s.current, edited) && Raises(s.current, edited, {ref})
      && RepOk(s, ref, rep) && rep.freezes == [] && rep.Content() == s.leaders[ref].rep.Content()
    case Begin(n, generation, id, epoch, sources, epochs) =>
      && n !in s.attempts && Ref(generation, id) in s.leaders
      && generation in s.counts && generation - 1 in s.counts
      && SourcesOf(sources, id, s.counts[generation - 1], s.counts[generation])
      && NotAhead(s.current, Begun(s, generation, id, epoch, sources, epochs))
    case Copy(n, chunk, ops) =>
      && n in s.attempts
      && var a := s.attempts[n];
      && !a.swept && a.todo == [] && |a.firsts| < |a.sources| && a.Source(|a.firsts|) in s.leaders
      && SnapshotAnswer(s.leaders[a.Source(|a.firsts|)].rep, AcceptOf(s, a), chunk)
      && Expects(a, |a.firsts|, chunk)
      && Lays(ops, DataOf(chunk)) && Touches(ops, DataOf(chunk).Keys)
    case Sweep(n, ops) =>
      && n in s.attempts
      && var a := s.attempts[n];
      && !a.swept && a.todo == [] && |a.firsts| == |a.sources|
      && Clears(ops, Stale(a)) && Touches(ops, Stale(a))
    case CatchUpLogs(n, ttl, chunk, ops) =>
      && n in s.attempts
      && var a := s.attempts[n];
      && AtSource(s, a) && !a.waiting
      && var r := s.leaders[a.Source(|a.seconds|)].rep;
      && r.walBase <= a.firsts[|a.seconds|].number
      && LogAnswer(r, AcceptOf(s, a), a.firsts[|a.seconds|].number, chunk)
      && Expects(a, |a.seconds|, chunk)
      && CatchesUp(ops, a.firsts[|a.seconds|], chunk)
    case FreezeOnly(n, ttl) =>
      && n in s.attempts
      && var a := s.attempts[n];
      && AtSource(s, a) && !a.waiting
      && a.firsts[|a.seconds|].number < s.leaders[a.Source(|a.seconds|)].rep.walBase
    case CatchUpSnapshot(n, chunk, ops) =>
      && n in s.attempts
      && var a := s.attempts[n];
      && AtSource(s, a) && a.waiting
      && SnapshotAnswer(s.leaders[a.Source(|a.seconds|)].rep, AcceptOf(s, a), chunk)
      && Expects(a, |a.seconds|, chunk)
      && CatchesUp(ops, a.firsts[|a.seconds|], chunk)
    case Import(n, m, flushes) =>
      n in s.attempts && s.attempts[n].Target() in s.leaders && m <= |s.attempts[n].todo| && |flushes| == m
    case Abort(n) => n in s.attempts
    case Commit(n) =>
      && n in s.attempts && s.attempts[n].alive && Complete(s.attempts[n]) && IsPending(s, s.attempts[n].generation, s.attempts[n].id)
      && SameEpochs(s.current, s.attempts[n])
    case Publish(change) =>
      && RouteEnabled(s.current, change) && !change.MarkDone? && (change.Edit? ==> Raises(s.current, change.edited, {}))
      && (change.Start? ==> change.next.generation == s.current.generation + 1)
  }

  /** The answer comes from the epoch the attempt was planned with. */
  predicate Expects(a: Attempt, i: nat, chunk: Chunk) { i < |a.epochs| && chunk.epoch == a.epochs[i] }

  function Begun(s: State, generation: int, id: nat, epoch: int, sources: seq<nat>, epochs: seq<int>): Attempt {
    Attempt(generation, id, if generation in s.counts then s.counts[generation] else 0, epoch, epochs, true, true,
            if Ref(generation, id) in s.leaders then s.leaders[Ref(generation, id)].rep.Content() else map[],
            sources, [], false, false, [], [])
  }

  /** In the second phase, all imported, with another source to ask. */
  predicate AtSource(s: State, a: Attempt) {
    a.swept && a.todo == [] && |a.seconds| < |a.sources| && |a.seconds| < |a.firsts| && a.Source(|a.seconds|) in s.leaders
  }

  /** What an earlier attempt left and no source has any more. */
  function Stale(a: Attempt): set<string> { a.leftover.Keys - Copied(map[], a.firsts).Keys }

  function PutRep(s: State, ref: Ref, rep: Rep): State
    requires ref in s.leaders
  {
    s.(leaders := s.leaders[ref := s.leaders[ref].(rep := rep)])
  }

  function PutAttempt(s: State, n: nat, a: Attempt): State { s.(attempts := s.attempts[n := a]) }

  /** Other pulls into the same target are disturbed by an import. */
  function Disturbed(attempts: map<nat, Attempt>, n: nat, target: Ref): map<nat, Attempt> {
    map j | j in attempts :: if j != n && attempts[j].Target() == target then attempts[j].(clean := false) else attempts[j]
  }

  function PutLayout(s: State, change: RouteStep): State
    requires RouteEnabled(s.current, change)
  {
    s.(past := s.past + [s.current], current := RouteNext(s.current, change),
       counts := if change.Start? && change.next.count >= 0 then s.counts[change.next.generation := change.next.count] else s.counts)
  }

  ghost function Next(s: State, step: Step): State
    requires Enabled(s, step)
  {
    match step
    case Admit(ref, op) => s.(calls := s.calls + {Call(ref, op)})
    case Write(ref, op, flush) => PutRep(s, ref, s.leaders[ref].rep.ClientWrite(op, flush, s.now))
    case Answer(ref, op) => s.(calls := s.calls - {Call(ref, op)})
    case LogCheckpoint(ref) => PutRep(s, ref, s.leaders[ref].rep.Log(Checkpoint))
    case Seal(ref, on) => PutRep(s, ref, s.leaders[ref].rep.(sealed := on))
    case Observe(ref, view) => s.(leaders := s.leaders[ref := s.leaders[ref].(view := view)])
    case Tick(now) => s.(now := now)
    case Join(ref, view, epoch, retain) =>
      s.(leaders := s.leaders[ref := Lead(Fresh(retain).LeadFresh(epoch), view)])
    case Drop(ref) => s.(leaders := s.leaders - {ref})
    case Handover(ref, rep, edited) =>
      var s1 := PutLayout(s, Edit(edited));
      s1.(leaders := s.leaders[ref := Lead(rep, |s1.past|)], calls := set c | c in s.calls && c.ref != ref)
    case Begin(n, generation, id, epoch, sources, epochs) =>
      var rep := s.leaders[Ref(generation, id)].rep;
      PutAttempt(PutRep(s, Ref(generation, id), rep.Log(Checkpoint)), n, Begun(s, generation, id, epoch, sources, epochs))
    case Copy(n, chunk, ops) =>
      var a := s.attempts[n];
      var src := a.Source(|a.firsts|);
      PutAttempt(PutRep(s, src, s.leaders[src].rep.Log(Checkpoint)), n, a.(firsts := a.firsts + [chunk], todo := ops))
    case Sweep(n, ops) =>
      PutAttempt(s, n, s.attempts[n].(swept := true, todo := ops))
    case CatchUpLogs(n, ttl, chunk, ops) =>
      var a := s.attempts[n];
      var src := a.Source(|a.seconds|);
      PutAttempt(PutRep(s, src, s.leaders[src].rep.Froze(Tag(a.count, a.id), AcceptOf(s, a), s.now + ttl)), n,
                 a.(seconds := a.seconds + [chunk], todo := ops))
    case FreezeOnly(n, ttl) =>
      var a := s.attempts[n];
      var src := a.Source(|a.seconds|);
      PutAttempt(PutRep(s, src, s.leaders[src].rep.Froze(Tag(a.count, a.id), AcceptOf(s, a), s.now + ttl)), n, a.(waiting := true))
    case CatchUpSnapshot(n, chunk, ops) =>
      var a := s.attempts[n];
      var src := a.Source(|a.seconds|);
      PutAttempt(PutRep(s, src, s.leaders[src].rep.Log(Checkpoint)), n,
                 a.(seconds := a.seconds + [chunk], waiting := false, todo := ops))
    case Import(n, m, flushes) =>
      var a := s.attempts[n];
      var s1 := PutRep(s, a.Target(), s.leaders[a.Target()].rep.WriteAll(a.todo[..m], flushes));
      PutAttempt(if m > 0 then s1.(attempts := Disturbed(s.attempts, n, a.Target())) else s1, n, a.(todo := a.todo[m..]))
    case Abort(n) => PutAttempt(s, n, s.attempts[n].(alive := false))
    case Commit(n) => PutLayout(s, MarkDone(s.attempts[n].id))
    case Publish(change) => PutLayout(s, change)
  }

  /** The step if it can be taken, nothing otherwise. */
  ghost function Do(s: State, step: Step): State { if Enabled(s, step) then Next(s, step) else s }

  // ----- the invariant -----

  ghost predicate LayoutKnown(counts: map<int, nat>, l: Layout) {
    && Shaped(l)
    && l.generation in counts && counts[l.generation] == l.count
    && (l.resharding.Some? ==>
          var r := l.resharding.value;
          r.generation == l.generation + 1 && r.generation in counts && counts[r.generation] == r.count)
  }

  ghost predicate Ordered(s: State) {
    && (forall v: nat, w: nat, h: nat :: v <= w ==> RouteGen(LayoutAt(s, v), h) <= RouteGen(LayoutAt(s, w), h))
    && (forall v: nat, w: nat :: v <= w ==>
          LayoutAt(s, v).generation <= LayoutAt(s, w).generation && Newest(LayoutAt(s, v)) <= Newest(LayoutAt(s, w)))
  }

  /** The newest generation of a layout. */
  function Newest(l: Layout): int { if l.resharding.Some? then l.generation + 1 else l.generation }

  ghost predicate LayoutsInv(s: State) {
    && (forall v: nat :: LayoutKnown(s.counts, LayoutAt(s, v)))
    && Ordered(s)
  }

  /** All keys of the replica belong to its partition, and its freezes mean what their tags say. */
  ghost predicate RepOk(s: State, ref: Ref, r: Rep) {
    && r.role == Leader && r.start <= r.walBase
    && (forall k :: k in r.base ==> Covers(s, ref, k))
    && (forall i :: 0 <= i < |r.ops| ==> r.ops[i].Checkpoint? || Covers(s, ref, r.ops[i].key))
    && TagsOk(s.sum, r.freezes)
  }

  ghost predicate TagsOk(sum: string -> nat, fs: seq<Freeze>) {
    forall f, c: nat, id: nat :: f in fs && f.tag == Tag(c, id) ==> forall k :: f.accept(k) == Accept(sum, c, id)(k)
  }

  ghost predicate LeadersInv(s: State) {
    && (forall ref :: ref in s.leaders ==>
          && RepOk(s, ref, s.leaders[ref].rep)
          && ref.generation <= Newest(s.current) && s.leaders[ref].view <= |s.past|)
    && (forall p: nat :: p < s.current.count ==> SourceRef(s, p) in s.leaders)
    && (forall p: nat :: p < NextCount(s) && p < |s.current.resharding.value.status| && s.current.resharding.value.status[p] == Done ==>
          TargetRef(s, p) in s.leaders)
  }

  /** A call was admitted where the key lived, or had lived before. */
  ghost predicate CallOk(s: State, c: Call) {
    !c.op.Checkpoint? && Covers(s, c.ref, c.op.key) && c.ref.generation <= RouteGen(s.current, s.sum(c.op.key))
  }

  ghost predicate CallsInv(s: State) { forall c :: c in s.calls ==> CallOk(s, c) }

  ghost predicate FirstOk(r: Rep, accept: string -> bool, first: Chunk) {
    && first.Full? && r.start <= first.number <= r.Seq()
    && first.data == Restrict(r.ContentAt(first.number), accept)
  }

  ghost predicate SecondOk(r: Rep, accept: string -> bool, first: Chunk, second: Chunk) {
    && r.start <= first.number <= second.number <= r.Seq()
    && (match second
        case Logs(_, _, entries) =>
          OpsOf(entries) == Matching(r.ops[first.number - r.start..second.number - r.start], accept)
        case Full(_, _, data) => data == Restrict(r.ContentAt(second.number), accept))
    && Quiet(r, second.number, accept)
  }

  /** Since position n nothing accepted was written. */
  ghost predicate Quiet(r: Rep, n: int, accept: string -> bool) {
    r.start <= n && forall j :: n - r.start <= j < |r.ops| ==> r.ops[j].Checkpoint? || !accept(r.ops[j].key)
  }

  ghost function Expected(a: Attempt): Data {
    if !a.swept || |a.firsts| < |a.seconds| then Copied(a.leftover, a.firsts)
    else CaughtUp(Bulk(a.leftover, a.firsts), a.firsts[..|a.seconds|], a.seconds)
  }

  /** The attempt's own bookkeeping, live or not. */
  ghost predicate Formed(s: State, a: Attempt) {
    && a.generation <= Newest(s.current)
    && a.generation in s.counts && s.counts[a.generation] == a.count && a.generation - 1 in s.counts
    && SourcesOf(a.sources, a.id, s.counts[a.generation - 1], a.count)
    && Progress(a) && OwnKeys(a, AcceptOf(s, a)) && NotAhead(s.current, a)
  }

  ghost predicate Progress(a: Attempt) {
    && |a.seconds| <= |a.firsts| <= |a.sources|
    && (a.swept ==> |a.firsts| == |a.sources|) && (!a.swept ==> a.seconds == [] && !a.waiting)
    && (a.waiting ==> |a.seconds| < |a.sources| && a.todo == [])
  }

  /** Everything it has seen or will write belongs to the target. */
  ghost predicate OwnKeys(a: Attempt, accept: string -> bool) {
    && (forall k :: k in a.leftover ==> accept(k))
    && (forall op :: op in a.todo ==> op.Checkpoint? || accept(op.key))
    && (forall i, k :: 0 <= i < |a.firsts| && k in DataOf(a.firsts[i]) ==> accept(k))
  }

  ghost predicate Filling(s: State, a: Attempt)
    requires a.Target() in s.leaders
  {
    Replay(s.leaders[a.Target()].rep.Content(), a.todo) == Expected(a)
  }

  ghost predicate SourceOk(s: State, a: Attempt, i: nat)
    requires i < |a.firsts| <= |a.sources|
  {
    && a.Source(i) in s.leaders
    && var r := s.leaders[a.Source(i)].rep;
       && FirstOk(r, AcceptOf(s, a), a.firsts[i])
       && (i < |a.seconds| ==> SecondOk(r, AcceptOf(s, a), a.firsts[i], a.seconds[i]))
  }

  /** What a commit of the attempt would rely on. */
  ghost predicate Sound(s: State, a: Attempt) {
    && |a.firsts| <= |a.sources| && a.Target() in s.leaders && Filling(s, a)
    && forall i :: 0 <= i < |a.firsts| ==> SourceOk(s, a, i)
  }

  ghost predicate AttemptOk(s: State, a: Attempt) { Formed(s, a) && (Live(s, a) ==> Sound(s, a)) }

  ghost predicate AttemptsInv(s: State) { forall n :: n in s.attempts ==> AttemptOk(s, s.attempts[n]) }

  ghost predicate Inv(s: State) {
    LayoutsInv(s) && LeadersInv(s) && CallsInv(s) && FreezesLast(s, s.now) && AttemptsInv(s)
  }

  /** The one value of a key: what the leader of the partition that owns it now holds. */
  ghost function Value(s: State, k: string): Option<string> {
    var route := Route(Some(s.current), s.sum(k));
    if route.Some? && route.value in s.leaders then Lookup(s.leaders[route.value].rep.Content(), k) else None
  }

  // ----- layouts -----

  /** In a known layout the owner of a hash is the hash's partition of the generation in charge of it. */
  lemma RouteShape(counts: map<int, nat>, l: Layout, h: nat)
    requires LayoutKnown(counts, l)
    ensures var g := RouteGen(l, h);
      g in counts && counts[g] > 0 && Route(Some(l), h) == Some(Ref(g, h % counts[g]))
      && l.generation <= g <= Newest(l)
  {}

  /** Keys only ever move on to the next generation. */
  lemma ChangeOrdered(l: Layout, change: RouteStep, h: nat)
    requires Shaped(l) && RouteEnabled(l, change)
    requires l.resharding.Some? ==> l.resharding.value.generation == l.generation + 1
    ensures RouteGen(l, h) <= RouteGen(RouteNext(l, change), h)
    ensures RouteGen(RouteNext(l, change), h) ==
      if change.MarkDone? && h % l.resharding.value.count == change.id then l.generation + 1 else RouteGen(l, h)
  {}

  // ----- leaders -----

  /** r' is r with more log: checkpoints, and operations on the touched key. */
  ghost predicate Grown(r: Rep, r': Rep, touched: Option<string>) {
    && r'.base == r.base && r'.start == r.start && |r.ops| <= |r'.ops|
    && (forall i :: 0 <= i < |r.ops| ==> r'.ops[i] == r.ops[i])
    && (forall i :: |r.ops| <= i < |r'.ops| ==> r'.ops[i].Checkpoint? || touched == Some(r'.ops[i].key))
  }

  lemma GrownContentAt(r: Rep, r': Rep, touched: Option<string>, c: int)
    requires Grown(r, r', touched) && r.start <= c <= r.Seq()
    ensures r'.ContentAt(c) == r.ContentAt(c)
  {
    assert r'.ops[..c - r.start] == r.ops[..c - r.start];
  }

  lemma GrownContent(r: Rep, r': Rep, touched: Option<string>)
    requires Grown(r, r', touched)
    ensures forall k :: touched != Some(k) ==> Lookup(r'.Content(), k) == Lookup(r.Content(), k)
    ensures touched.None? ==> r'.Content() == r.Content()
  {
    var more := r'.ops[|r.ops|..];
    assert r'.ops == r.ops + more;
    ReplayConcat(r.base, r.ops, more);
    forall k | touched != Some(k)
      ensures Lookup(r'.Content(), k) == Lookup(r.Content(), k)
    {
      ReplayOther(r.Content(), more, k);
    }
    if touched.None? {
      LookupExtensional(r'.Content(), r.Content());
    }
  }

  lemma GrownFirst(r: Rep, r': Rep, touched: Option<string>, accept: string -> bool, first: Chunk)
    requires Grown(r, r', touched) && FirstOk(r, accept, first)
    ensures FirstOk(r', accept, first)
  {
    GrownContentAt(r, r', touched, first.number);
  }

  lemma GrownSecond(r: Rep, r': Rep, touched: Option<string>, accept: string -> bool, first: Chunk, second: Chunk)
    requires Grown(r, r', touched) && SecondOk(r, accept, first, second)
    requires touched.Some? ==> !accept(touched.value)
    ensures SecondOk(r', accept, first, second)
  {
    hide Matching, Restrict, Replay, Rep.ContentAt;
    GrownContentAt(r, r', touched, second.number);
    SameSlice(r.ops, r'.ops, first.number - r.start, second.number - r.start);
  }

  lemma SameSlice(ops: seq<Op>, ops': seq<Op>, a: nat, b: nat)
    requires a <= b <= |ops| <= |ops'| && forall i :: 0 <= i < |ops| ==> ops'[i] == ops[i]
    ensures ops'[a..b] == ops[a..b]
  {}

  lemma WriteGrown(r: Rep, op: Op, flush: bool)
    requires !op.Checkpoint?
    ensures Grown(r, r.Write(op, flush), Some(op.key))
    ensures r.Write(op, flush).Content() == ApplyOp(r.Content(), op)
  {
    hide Replay, ApplyOp, Rep.Content, Partition.Valid;
    Partition.WriteContent(r, op);
  }

  // ----- changing one leader -----

  ghost predicate KeepsFrozen(fs: seq<Freeze>, fs': seq<Freeze>, now: int) {
    forall k :: IsFrozen(fs, k, now) ==> IsFrozen(fs', k, now)
  }

  lemma SameLayouts(s: State, s': State)
    requires LayoutsInv(s) && s'.past == s.past && s'.current == s.current && s'.counts == s.counts
    ensures LayoutsInv(s')
  {
    hide LayoutKnown, RouteGen;
    assert forall v: nat :: LayoutAt(s', v) == LayoutAt(s, v);
  }


  /** A leader that carries out an admitted write is the owner of the key: no two leaders ever write the same key. */
  lemma WriterIsOwner(s: State, ref: Ref, op: Op)
    requires Inv(s) && Call(ref, op) in s.calls && Accepts(s, ref, op)
    ensures Route(Some(s.current), s.sum(op.key)) == Some(ref) && Covers(s, ref, op.key)
  {
    hide LayoutKnown, Attempted, RepOk, AttemptsInv, Route, RouteGen;
    var h := s.sum(op.key);
    assert LayoutKnown(s.counts, LayoutAt(s, |s.past|));
    RouteShape(s.counts, s.current, h);
    assert CallOk(s, Call(ref, op));
    assert Called(s, ref, op.key);
    assert !Needed(s, ref, op.key);
  }

  // ----- what a change leaves alone -----

  lemma SameCalls(s: State, s': State)
    requires CallsInv(s) && s'.sum == s.sum && s'.current == s.current && s'.counts == s.counts && s'.calls <= s.calls
    ensures CallsInv(s')
  {
    hide RouteGen;
    forall c | c in s'.calls
      ensures CallOk(s', c)
    {
      assert CallOk(s, c);
    }
  }

  /** Attempts that can still be committed have frozen no more than before. */
  ghost predicate FreezesNoMore(s: State, s': State) {
    forall n :: n in s'.attempts && Live(s, s'.attempts[n]) ==>
      n in s.attempts && Live(s, s.attempts[n]) && SameFreezes(s.attempts[n], s'.attempts[n])
  }

  ghost predicate SameFreezes(a: Attempt, a': Attempt) {
    a'.generation == a.generation && a'.id == a.id && a'.count == a.count && a'.sources == a.sources && a'.Frozen() <= a.Frozen()
  }

  /** Without new freezes, calls or older views, no other freeze becomes needed. */
  lemma NeededFrame(s: State, s': State, ref: Ref, k: string)
    requires s'.sum == s.sum && s'.past == s.past && s'.current == s.current && s'.counts == s.counts && s'.calls <= s.calls
    requires Ordered(s) && FreezesNoMore(s, s') && Needed(s', ref, k)
    requires ref in s.leaders && s.leaders[ref].view <= s'.leaders[ref].view
    ensures Needed(s, ref, k)
  {
    hide RouteGen;
    assert LayoutAt(s', s'.leaders[ref].view) == LayoutAt(s, s'.leaders[ref].view);
    assert RouteGen(LayoutAt(s, s.leaders[ref].view), s.sum(k)) <= RouteGen(LayoutAt(s, s'.leaders[ref].view), s.sum(k));
    if Attempted(s', ref, k) {
      var n :| n in s'.attempts && Freezes(s', s'.attempts[n], ref, k);
      assert Live(s, s'.attempts[n]);
      var i :| 0 <= i < s'.attempts[n].Frozen() && i < |s'.attempts[n].sources| && s'.attempts[n].sources[i] == ref.id;
      assert s.attempts[n].sources[i] == ref.id;
      assert FrozenBy(s.attempts[n], ref.id);
      assert Freezes(s, s.attempts[n], ref, k);
    } else {
      assert Called(s', ref, k) ==> Called(s, ref, k);
    }
  }

  lemma FreezesFrame(s: State, s': State)
    requires FreezesLast(s, s.now) && LayoutsInv(s) && s'.now == s.now
    requires s'.sum == s.sum && s'.past == s.past && s'.current == s.current && s'.counts == s.counts && s'.calls <= s.calls
    requires FreezesNoMore(s, s')
    requires forall ref, k :: Needed(s', ref, k) ==>
      && ref in s.leaders && s.leaders[ref].view <= s'.leaders[ref].view
      && KeepsFrozen(s.leaders[ref].rep.freezes, s'.leaders[ref].rep.freezes, s.now)
    ensures FreezesLast(s', s'.now)
  {
    hide IsFrozen, Attempted, Departed, Covers, FreezesNoMore, LayoutKnown, RouteGen;
    forall ref, k | Needed(s', ref, k)
      ensures IsFrozen(s'.leaders[ref].rep.freezes, k, s'.now)
    {
      NeededFrame(s, s', ref, k);
    }
  }

  lemma SameFrozen(fs: seq<Freeze>, now: int)
    ensures KeepsFrozen(fs, fs, now)
  {}

  /** The leaders an attempt looks at: its sources and its target. */
  ghost predicate SameAround(s: State, s': State, a: Attempt) {
    && (a.Target() in s.leaders ==> a.Target() in s'.leaders && s'.leaders[a.Target()].rep == s.leaders[a.Target()].rep)
    && forall i :: 0 <= i < |a.sources| && a.Source(i) in s.leaders ==>
         a.Source(i) in s'.leaders && s'.leaders[a.Source(i)].rep == s.leaders[a.Source(i)].rep
  }

  lemma SoundFrame(s: State, s': State, a: Attempt)
    requires Sound(s, a) && s'.sum == s.sum && SameAround(s, s', a)
    ensures Sound(s', a)
  {
    hide FirstOk, SecondOk, Replay, Expected, Rep.Content;
    forall i | 0 <= i < |a.firsts|
      ensures SourceOk(s', a, i)
    {
      assert SourceOk(s, a, i);
    }
  }

  lemma FormedFrame(s: State, s': State, a: Attempt)
    requires Formed(s, a) && s'.sum == s.sum && Newest(s.current) <= Newest(s'.current) && NotAhead(s'.current, a)
    requires forall g :: g in s.counts && g <= Newest(s.current) ==> g in s'.counts && s'.counts[g] == s.counts[g]
    ensures Formed(s', a)
  {
    hide SourcesOf, Progress, OwnKeys, NotAhead;
  }

  lemma AttemptFrame(s: State, s': State, a: Attempt)
    requires AttemptOk(s, a) && s'.sum == s.sum && s'.current == s.current && s'.counts == s.counts
    requires Live(s, a) ==> SameAround(s, s', a)
    ensures AttemptOk(s', a)
  {
    hide Sound, SameAround, SourcesOf, Progress, OwnKeys, NotAhead;
    FormedFrame(s, s', a);
    if Live(s, a) {
      SoundFrame(s, s', a);
    }
  }

  // ----- changing one leader -----

  /** One leader's update that keeps everything in order. */
  ghost predicate Harmless(s: State, ref: Ref, rep: Rep, touched: Option<string>) {
    && ref in s.leaders
    && Grown(s.leaders[ref].rep, rep, touched) && RepOk(s, ref, rep)
    && KeepsFrozen(s.leaders[ref].rep.freezes, rep.freezes, s.now)
    && (touched.Some? ==>
          && Covers(s, ref, touched.value) && Route(Some(s.current), s.sum(touched.value)) == Some(ref)
          && !IsFrozen(s.leaders[ref].rep.freezes, touched.value, s.now))
  }

  lemma PutRepLeaders(s: State, ref: Ref, rep: Rep)
    requires LeadersInv(s) && ref in s.leaders && RepOk(s, ref, rep)
    ensures LeadersInv(PutRep(s, ref, rep))
  {
    hide Rep.Content;
    var s' := PutRep(s, ref, rep);
    forall r | r in s'.leaders
      ensures RepOk(s', r, s'.leaders[r].rep)
    {
      assert RepOk(s, r, s'.leaders[r].rep);
      assert forall k :: Covers(s', r, k) == Covers(s, r, k);
    }
    assert NextCount(s') == NextCount(s);
    assert forall p :: SourceRef(s', p) == SourceRef(s, p) && TargetRef(s', p) == TargetRef(s, p);
  }

  lemma PutRepFreezes(s: State, ref: Ref, rep: Rep)
    requires LayoutsInv(s) && FreezesLast(s, s.now) && ref in s.leaders && KeepsFrozen(s.leaders[ref].rep.freezes, rep.freezes, s.now)
    ensures FreezesLast(PutRep(s, ref, rep), s.now)
  {
    hide FreezesLast, LayoutsInv, KeepsFrozen, Attempted, Departed, Covers;
    var s' := PutRep(s, ref, rep);
    forall r | r in s.leaders
      ensures KeepsFrozen(s.leaders[r].rep.freezes, s'.leaders[r].rep.freezes, s.now)
    {
      SameFrozen(s.leaders[r].rep.freezes, s.now);
    }
    FreezesFrame(s, s');
  }

  /** A source that has frozen its keys for a live attempt refuses them. */
  lemma FrozenAtSource(s: State, n: nat, i: nat, k: string)
    requires FreezesLast(s, s.now) && n in s.attempts && Live(s, s.attempts[n]) && i < s.attempts[n].Frozen() && i < |s.attempts[n].sources|
    ensures var src := s.attempts[n].Source(i);
      src in s.leaders && Covers(s, src, k) && AcceptOf(s, s.attempts[n])(k) ==> IsFrozen(s.leaders[src].rep.freezes, k, s.now)
  {
    hide IsFrozen;
    var a := s.attempts[n];
    assert FrozenBy(a, a.Source(i).id);
    assert AcceptOf(s, a)(k) ==> Freezes(s, a, a.Source(i), k);
  }

  lemma PutRepSource(s: State, ref: Ref, rep: Rep, touched: Option<string>, n: nat, i: nat)
    requires Harmless(s, ref, rep, touched) && FreezesLast(s, s.now)
    requires n in s.attempts && Live(s, s.attempts[n]) && Formed(s, s.attempts[n]) && i < |s.attempts[n].firsts| && SourceOk(s, s.attempts[n], i)
    ensures SourceOk(PutRep(s, ref, rep), s.attempts[n], i)
  {
    hide FirstOk, SecondOk, RepOk, KeepsFrozen, Grown, IsFrozen, SourcesOf, OwnKeys, Route;
    var a := s.attempts[n];
    var accept := AcceptOf(s, a);
    if a.Source(i) == ref {
      GrownFirst(s.leaders[ref].rep, rep, touched, accept, a.firsts[i]);
      if i < |a.seconds| {
        if touched.Some? {
          FrozenAtSource(s, n, i, touched.value);
        }
        GrownSecond(s.leaders[ref].rep, rep, touched, accept, a.firsts[i], a.seconds[i]);
      }
    }
  }

  /** A pending target does not own any key yet. */
  lemma PendingOwnsNothing(s: State, generation: int, id: nat, h: nat)
    requires LayoutsInv(s) && IsPending(s, generation, id)
    ensures Route(Some(s.current), h) != Some(Ref(generation, id))
  {
    assert LayoutKnown(s.counts, LayoutAt(s, |s.past|));
  }

  lemma PutRepAttempt(s: State, ref: Ref, rep: Rep, touched: Option<string>, n: nat)
    requires LayoutsInv(s) && FreezesLast(s, s.now) && Harmless(s, ref, rep, touched)
    requires n in s.attempts && AttemptOk(s, s.attempts[n])
    ensures AttemptOk(PutRep(s, ref, rep), s.attempts[n])
  {
    hide FirstOk, SecondOk, RepOk, KeepsFrozen, Grown, IsFrozen, SourceOk, Replay, Expected, LayoutsInv, FreezesLast, Route, Rep.Content, SourcesOf, OwnKeys;
    var a, s' := s.attempts[n], PutRep(s, ref, rep);
    FormedFrame(s, s', a);
    if Live(s, a) {
      forall i | 0 <= i < |a.firsts|
        ensures SourceOk(s', a, i)
      {
        PutRepSource(s, ref, rep, touched, n, i);
      }
      if ref == a.Target() {
        if touched.Some? {
          PendingOwnsNothing(s, a.generation, a.id, s.sum(touched.value));
          assert false;
        }
        GrownContent(s.leaders[ref].rep, rep, touched);
      }
    }
  }

  lemma PutRepKeepsInv(s: State, ref: Ref, rep: Rep, touched: Option<string>)
    requires Inv(s) && Harmless(s, ref, rep, touched)
    ensures Inv(PutRep(s, ref, rep))
    ensures forall k :: touched != Some(k) ==> Value(PutRep(s, ref, rep), k) == Value(s, k)
  {
    hide LayoutsInv, LeadersInv, CallsInv, FreezesLast, AttemptOk, RepOk, Grown, KeepsFrozen, IsFrozen, Route, Rep.Content;
    var s' := PutRep(s, ref, rep);
    SameLayouts(s, s');
    SameCalls(s, s');
    PutRepLeaders(s, ref, rep);
    PutRepFreezes(s, ref, rep);
    forall n | n in s'.attempts
      ensures AttemptOk(s', s'.attempts[n])
    {
      PutRepAttempt(s, ref, rep, touched, n);
    }
    GrownContent(s.leaders[ref].rep, rep, touched);
  }

  // ----- the operations of a leader -----

  lemma {:induction false} UnexpiredSubset(fs: seq<Freeze>, now: int)
    ensures forall f :: f in Unexpired(fs, now) ==> f in fs
  {
    if fs == [] {
    } else {
      UnexpiredSubset(fs[..|fs| - 1], now);
    }
  }

  lemma ThawKeeps(fs: seq<Freeze>, now: int)
    ensures KeepsFrozen(fs, Unexpired(fs, now), now)
  {
    forall k
      ensures IsFrozen(fs, k, now) ==> IsFrozen(Unexpired(fs, now), k, now)
    {
      UnexpiredKeepsFrozen(fs, now, k, now);
    }
  }

  lemma {:induction false} AddFreezeMembers(fs: seq<Freeze>, tag: string, accept: string -> bool, until: int)
    ensures forall f :: f in AddFreeze(fs, tag, accept, until) ==>
      f in fs || f == Freeze(tag, accept, until) || (f.tag == tag && exists g :: g in fs && g.tag == tag && f == g.(until := until))
  {
    if fs == [] {
    } else {
      var fs' := AddFreeze(fs, tag, accept, until);
      assert fs[0] in fs;
      if fs[0].tag == tag {
        forall f | f in fs'
          ensures f in fs || (f.tag == tag && exists g :: g in fs && g.tag == tag && f == g.(until := until))
        {
        }
      } else {
        AddFreezeMembers(fs[1..], tag, accept, until);
      }
    }
  }

  lemma AddFreezeTags(sum: string -> nat, fs: seq<Freeze>, c: nat, id: nat, until: int)
    requires TagsOk(sum, fs)
    ensures TagsOk(sum, AddFreeze(fs, Tag(c, id), Accept(sum, c, id), until))
  {
    var tag, accept := Tag(c, id), Accept(sum, c, id);
    AddFreezeMembers(fs, tag, accept, until);
    forall f, d: nat, j: nat | f in AddFreeze(fs, tag, accept, until) && f.tag == Tag(d, j)
      ensures forall k :: f.accept(k) == Accept(sum, d, j)(k)
    {
      if f.tag == tag {
        TagInjective(c, id, d, j);
      }
    }
  }

  lemma FreezeKeeps(sum: string -> nat, fs: seq<Freeze>, c: nat, id: nat, until: int, now: int)
    requires TagsOk(sum, fs) && now <= until
    ensures var fs' := AddFreeze(fs, Tag(c, id), Accept(sum, c, id), until);
      && KeepsFrozen(fs, fs', now)
      && forall k :: Accept(sum, c, id)(k) ==> IsFrozen(fs', k, now)
  {
    var tag, accept := Tag(c, id), Accept(sum, c, id);
    assert TagNames(fs, tag, accept) by {
      forall i, k | 0 <= i < |fs| && fs[i].tag == tag
        ensures fs[i].accept(k) == accept(k)
      {
        assert fs[i] in fs;
      }
    }
    forall k
      ensures accept(k) ==> IsFrozen(AddFreeze(fs, tag, accept, until), k, now)
      ensures IsFrozen(fs, k, now) ==> IsFrozen(AddFreeze(fs, tag, accept, until), k, now)
    {
      AddFreezeFreezes(fs, tag, accept, until, k, now);
    }
  }

  /** Appending a checkpoint, or an operation on a key of the partition, keeps the replica in order. */
  lemma LogOk(s: State, ref: Ref, r: Rep, op: Op)
    requires RepOk(s, ref, r) && (op.Checkpoint? || Covers(s, ref, op.key))
    ensures RepOk(s, ref, r.Log(op))
  {}

  lemma CheckpointHarmless(s: State, ref: Ref)
    requires ref in s.leaders && RepOk(s, ref, s.leaders[ref].rep)
    ensures Harmless(s, ref, s.leaders[ref].rep.Log(Checkpoint), None)
  {
    LogOk(s, ref, s.leaders[ref].rep, Checkpoint);
  }

  lemma FrozeHarmless(s: State, ref: Ref, c: nat, id: nat, until: int)
    requires ref in s.leaders && RepOk(s, ref, s.leaders[ref].rep) && s.now <= until
    ensures var r := s.leaders[ref].rep.Froze(Tag(c, id), Accept(s.sum, c, id), until);
      && Harmless(s, ref, r, None)
      && forall k :: Accept(s.sum, c, id)(k) ==> IsFrozen(r.freezes, k, s.now)
  {
    hide IsFrozen, AddFreeze, TagsOk, KeepsFrozen;
    var r := s.leaders[ref].rep;
    FreezeKeeps(s.sum, r.freezes, c, id, until, s.now);
    AddFreezeTags(s.sum, r.freezes, c, id, until);
  }

  /** A client write that is refused changes nothing that matters; an accepted one only its key. */
  lemma WriteHarmless(s: State, ref: Ref, op: Op, flush: bool)
    requires Inv(s) && Call(ref, op) in s.calls && ref in s.leaders && !op.Checkpoint?
    ensures Harmless(s, ref, s.leaders[ref].rep.ClientWrite(op, flush, s.now), if Accepts(s, ref, op) then Some(op.key) else None)
    ensures Accepts(s, ref, op) ==>
      && Route(Some(s.current), s.sum(op.key)) == Some(ref)
      && s.leaders[ref].rep.ClientWrite(op, flush, s.now).Content() == ApplyOp(s.leaders[ref].rep.Content(), op)
  {
    hide LayoutsInv, FreezesLast, AttemptsInv, CallsInv, IsFrozen, Rep.Content, Route, Unexpired, KeepsFrozen, TagsOk;
    var r := s.leaders[ref].rep;
    var thawed := r.(freezes := Unexpired(r.freezes, s.now));
    ThawOk(s, ref, r);
    SameFrozen(r.freezes, s.now);
    if Accepts(s, ref, op) {
      WriterIsOwner(s, ref, op);
      LogOk(s, ref, thawed, op);
      LogOk(s, ref, thawed.Log(op), Checkpoint);
      WriteGrown(thawed, op, flush);
      assert thawed.Content() == r.Content() by { ThawContent(r, s.now); }
    }
  }

  lemma ThawContent(r: Rep, now: int)
    ensures r.(freezes := Unexpired(r.freezes, now)).Content() == r.Content()
  {}

  lemma AddressedCovers(s: State, ref: Ref, op: Op)
    requires LayoutsInv(s) && Addressed(s, ref, op)
    ensures Covers(s, ref, op.key)
  {
    var l := LayoutAt(s, s.leaders[ref].view);
    RouteShape(s.counts, l, s.sum(op.key));
  }

  lemma ThawOk(s: State, ref: Ref, r: Rep)
    requires RepOk(s, ref, r)
    ensures RepOk(s, ref, r.(freezes := Unexpired(r.freezes, s.now)))
    ensures KeepsFrozen(r.freezes, Unexpired(r.freezes, s.now), s.now)
  {
    UnexpiredSubset(r.freezes, s.now);
    ThawKeeps(r.freezes, s.now);
  }

  // ----- the steps of a pull -----

  /** What an attempt has frozen is refused. */
  ghost predicate Holds(s: State, a: Attempt) {
    forall ref, k :: Freezes(s, a, ref, k) && ref in s.leaders && Covers(s, ref, k) ==>
      IsFrozen(s.leaders[ref].rep.freezes, k, s.now)
  }

  lemma HoldsAlready(s: State, n: nat, a: Attempt)
    requires FreezesLast(s, s.now) && n in s.attempts
    requires Live(s, a) ==> Live(s, s.attempts[n]) && SameFreezes(s.attempts[n], a)
    ensures Holds(s, a)
  {
    hide IsFrozen;
    forall ref, k | Freezes(s, a, ref, k) && ref in s.leaders && Covers(s, ref, k)
      ensures IsFrozen(s.leaders[ref].rep.freezes, k, s.now)
    {
      var i :| 0 <= i < a.Frozen() && i < |a.sources| && a.sources[i] == ref.id;
      assert s.attempts[n].sources[i] == ref.id;
      assert FrozenBy(s.attempts[n], ref.id);
      assert Freezes(s, s.attempts[n], ref, k);
    }
  }

  /** One more source is frozen. */
  lemma HoldsMore(s: State, n: nat, a: Attempt)
    requires FreezesLast(s, s.now) && n in s.attempts && var b := s.attempts[n];
      && (Live(s, a) ==> Live(s, b)) && a.generation == b.generation && a.id == b.id && a.count == b.count && a.sources == b.sources
      && a.Frozen() == b.Frozen() + 1 && b.Frozen() < |b.sources| && b.Source(b.Frozen()) in s.leaders
      && forall k :: AcceptOf(s, b)(k) ==> IsFrozen(s.leaders[b.Source(b.Frozen())].rep.freezes, k, s.now)
    ensures Holds(s, a)
  {
    hide IsFrozen, FreezesLast;
    var b := s.attempts[n];
    forall ref, k | Freezes(s, a, ref, k) && ref in s.leaders && Covers(s, ref, k)
      ensures IsFrozen(s.leaders[ref].rep.freezes, k, s.now)
    {
      var i :| 0 <= i < a.Frozen() && i < |a.sources| && a.sources[i] == ref.id;
      assert ref == b.Source(i);
      if i < b.Frozen() {
        FrozenAtSource(s, n, i, k);
      }
    }
  }

  lemma PutAttemptFreezes(s: State, n: nat, a: Attempt)
    requires FreezesLast(s, s.now) && Holds(s, a)
    ensures FreezesLast(PutAttempt(s, n, a), s.now)
  {
    hide IsFrozen, RouteGen;
    var s' := PutAttempt(s, n, a);
    forall ref, k | Needed(s', ref, k)
      ensures IsFrozen(s'.leaders[ref].rep.freezes, k, s.now)
    {
      assert LayoutAt(s', s'.leaders[ref].view) == LayoutAt(s, s.leaders[ref].view);
      if Attempted(s', ref, k) {
        var j :| j in s'.attempts && Freezes(s', s'.attempts[j], ref, k);
        if j == n {
          assert Freezes(s, a, ref, k);
        } else {
          assert Freezes(s, s.attempts[j], ref, k);
        }
      } else {
        assert Called(s', ref, k) == Called(s, ref, k);
        assert Needed(s, ref, k);
      }
    }
  }

  lemma PutAttemptKeepsInv(s: State, n: nat, a: Attempt)
    requires Inv(s) && AttemptOk(s, a) && Holds(s, a)
    ensures Inv(PutAttempt(s, n, a))
    ensures forall k :: Value(PutAttempt(s, n, a), k) == Value(s, k)
  {
    hide FreezesLast, LayoutsInv, LeadersInv, CallsInv, RepOk, Route, Rep.Content, Holds, AttemptOk;
    var s' := PutAttempt(s, n, a);
    SameLayouts(s, s');
    SameCalls(s, s');
    PutAttemptFreezes(s, n, a);
    SameLeaders(s, s');
    forall i | i in s'.attempts
      ensures AttemptOk(s', s'.attempts[i])
    {
      AttemptFrame(s, s', s'.attempts[i]);
    }
  }

  lemma SameLeaders(s: State, s': State)
    requires LeadersInv(s) && s' == s.(attempts := s'.attempts, now := s'.now, calls := s'.calls)
    ensures LeadersInv(s')
  {
    forall ref | ref in s'.leaders
      ensures RepOk(s', ref, s'.leaders[ref].rep)
    {
      assert RepOk(s, ref, s.leaders[ref].rep);
      assert forall k :: Covers(s', ref, k) == Covers(s, ref, k);
    }
    assert NextCount(s') == NextCount(s);
    assert forall p :: SourceRef(s', p) == SourceRef(s, p) && TargetRef(s', p) == TargetRef(s, p);
  }

  /** A snapshot answer is the picture as of the checkpoint it logged. */
  lemma FirstAnswer(r: Rep, accept: string -> bool, chunk: Chunk)
    requires SnapshotAnswer(r, accept, chunk)
    ensures FirstOk(r.Log(Checkpoint), accept, chunk)
  {
    hide Restrict, Replay;
    SnapshotEnd(r, r.Log(Checkpoint));
  }

  /** The operations since the bulk copy, read when the keys were frozen, are right and final. */
  lemma LogsAreFinal(r: Rep, tag: string, accept: string -> bool, until: int, first: Chunk, second: Chunk)
    requires r.start <= r.walBase <= first.number && FirstOk(r, accept, first)
    requires LogAnswer(r, accept, first.number, second)
    ensures SecondOk(r.Froze(tag, accept, until), accept, first, second)
  {
    hide Matching, Restrict, Replay, AddFreeze;
    LogSlice(r.ops, first.number - r.start);
  }

  /** So is a snapshot taken after the freeze, whatever happened in between. */
  lemma SnapshotIsFinal(r: Rep, accept: string -> bool, first: Chunk, second: Chunk)
    requires FirstOk(r, accept, first) && SnapshotAnswer(r, accept, second)
    ensures SecondOk(r.Log(Checkpoint), accept, first, second)
  {
    hide Matching, Restrict, Replay;
    SnapshotEnd(r, r.Log(Checkpoint));
  }

  lemma LogSlice(ops: seq<Op>, n: nat)
    requires n <= |ops|
    ensures (if n < |ops| then ops[n..] else []) == ops[n..|ops|]
  {}

  lemma SnapshotEnd(r: Rep, r': Rep)
    requires r'.base == r.base && r'.start == r.start && r'.ops == r.ops + [Checkpoint]
    ensures r'.ContentAt(r'.Seq()) == r.Content()
  {
    ReplayOne(r.base, r.ops, Checkpoint);
    assert r'.ops[..|r'.ops|] == r'.ops;
  }

  lemma InvParts(s: State)
    requires Inv(s)
    ensures LayoutsInv(s) && LeadersInv(s) && CallsInv(s) && FreezesLast(s, s.now) && AttemptsInv(s)
    ensures forall ref :: ref in s.leaders ==> RepOk(s, ref, s.leaders[ref].rep)
  {}

  lemma AttemptParts(s: State, n: nat)
    requires AttemptsInv(s) && n in s.attempts
    ensures AttemptOk(s, s.attempts[n]) && Formed(s, s.attempts[n]) && Progress(s.attempts[n])
    ensures Live(s, s.attempts[n]) ==> Sound(s, s.attempts[n])
  {}

  /** The keys a target accepts are the keys of its partition. */
  lemma AcceptCovers(s: State, a: Attempt)
    requires a.generation in s.counts && s.counts[a.generation] == a.count && a.count > 0
    ensures forall k :: AcceptOf(s, a)(k) == Covers(s, a.Target(), k)
  {}

  lemma BeginKeepsInv(s: State, step: Step)
    requires Inv(s) && step.Begin? && Enabled(s, step)
    ensures Inv(Next(s, step)) && forall k :: Value(Next(s, step), k) == Value(s, k)
  {
    hide Inv, FreezesLast, AttemptsInv, CallsInv, LayoutsInv, RepOk, Harmless, Value, Replay;
    InvParts(s);
    var ref, rep := Ref(step.generation, step.id), s.leaders[Ref(step.generation, step.id)].rep;
    var a := Begun(s, step.generation, step.id, step.epoch, step.sources, step.epochs);
    CheckpointHarmless(s, ref);
    var s1 := PutRep(s, ref, rep.Log(Checkpoint));
    PutRepKeepsInv(s, ref, rep.Log(Checkpoint), None);
    Partition.CheckpointKeeps(rep);
    ContentCovered(s, ref, rep);
    AcceptCovers(s, a);
    assert Formed(s1, a);
    assert Sound(s1, a) by { ReplayNone(rep.Content()); CopiedNone(rep.Content()); }
    assert Holds(s1, a);
    PutAttemptKeepsInv(s1, step.n, a);
  }

  /** A replica holds keys of its own partition only. */
  lemma ContentCovered(s: State, ref: Ref, r: Rep)
    requires RepOk(s, ref, r)
    ensures forall k :: k in r.Content() ==> Covers(s, ref, k)
  {
    forall k | k in r.Content() && !Covers(s, ref, k)
      ensures false
    {
      ReplayOther(r.base, r.ops, k);
    }
  }

  lemma CopyKeepsInv(s: State, step: Step)
    requires Inv(s) && step.Copy? && Enabled(s, step)
    ensures Inv(Next(s, step)) && forall k :: Value(Next(s, step), k) == Value(s, k)
  {
    hide Inv, FreezesLast, RepOk, SourcesOf, Harmless, Value, SnapshotAnswer, FirstOk, AttemptsInv, LayoutsInv, LeadersInv, CallsInv, Lays, Formed, Sound, Holds;
    InvParts(s);
    AttemptParts(s, step.n);
    var n, a := step.n, s.attempts[step.n];
    var src := a.Source(|a.firsts|);
    var rep := s.leaders[src].rep;
    CheckpointHarmless(s, src);
    PutRepKeepsInv(s, src, rep.Log(Checkpoint), None);
    var s1 := PutRep(s, src, rep.Log(Checkpoint));
    InvParts(s1);
    AttemptParts(s1, n);
    var a' := a.(firsts := a.firsts + [step.chunk], todo := step.ops);
    FirstAnswer(rep, AcceptOf(s, a), step.chunk);
    CopyAttempt(s1, a, step.chunk, step.ops);
    HoldsAlready(s1, n, a');
    PutAttemptKeepsInv(s1, n, a');
  }

  /** A new bulk copy joins the attempt. */
  lemma CopyAttempt(s: State, a: Attempt, chunk: Chunk, ops: seq<Op>)
    requires AttemptOk(s, a) && !a.swept && a.todo == [] && |a.firsts| < |a.sources|
    requires a.Source(|a.firsts|) in s.leaders && FirstOk(s.leaders[a.Source(|a.firsts|)].rep, AcceptOf(s, a), chunk)
    requires Lays(ops, DataOf(chunk)) && Touches(ops, DataOf(chunk).Keys)
    ensures AttemptOk(s, a.(firsts := a.firsts + [chunk], todo := ops))
  {
    hide SecondOk, SourcesOf, Replay, Copied, CaughtUp, Rep.ContentAt;
    var a' := a.(firsts := a.firsts + [chunk], todo := ops);
    assert Formed(s, a');
    if Live(s, a) {
      var content := s.leaders[a.Target()].rep.Content();
      assert Filling(s, a') by {
        ReplayNone(content);
        CopiedAppend(a.leftover, a.firsts, chunk);
        assert Replay(content, ops) == content + DataOf(chunk);
      }
      forall i | 0 <= i < |a'.firsts|
        ensures SourceOk(s, a', i)
      {
        if i < |a.firsts| {
          assert SourceOk(s, a, i);
        }
      }
    }
  }

  lemma SweepKeepsInv(s: State, step: Step)
    requires Inv(s) && step.Sweep? && Enabled(s, step)
    ensures Inv(Next(s, step)) && forall k :: Value(Next(s, step), k) == Value(s, k)
  {
    hide Inv, FreezesLast, RepOk, Value, AttemptsInv, LayoutsInv, LeadersInv, CallsInv, Formed, Sound, Holds, Clears;
    InvParts(s);
    AttemptParts(s, step.n);
    var a' := s.attempts[step.n].(swept := true, todo := step.ops);
    SweepAttempt(s, s.attempts[step.n], step.ops);
    HoldsAlready(s, step.n, a');
    PutAttemptKeepsInv(s, step.n, a');
  }

  /** Leftovers are about to go. */
  lemma SweepAttempt(s: State, a: Attempt, ops: seq<Op>)
    requires AttemptOk(s, a) && !a.swept && a.todo == [] && |a.firsts| == |a.sources| && Clears(ops, Stale(a)) && Touches(ops, Stale(a))
    ensures AttemptOk(s, a.(swept := true, todo := ops))
  {
    hide FirstOk, SecondOk, SourcesOf, Replay, Copied, CaughtUp;
    var a' := a.(swept := true, todo := ops);
    assert Formed(s, a');
    if Live(s, a) {
      var content := s.leaders[a.Target()].rep.Content();
      assert Filling(s, a') by {
        ReplayNone(content);
        CaughtUpNone(Bulk(a.leftover, a.firsts));
        assert a.firsts[..0] == [];
        assert Replay(content, ops) == content - Stale(a);
      }
      forall i | 0 <= i < |a'.firsts|
        ensures SourceOk(s, a', i)
      {
        assert SourceOk(s, a, i);
      }
    }
  }

  lemma {:induction false} MatchingAccepts(ops: seq<Op>, accept: string -> bool)
    ensures forall op :: op in Matching(ops, accept) ==> !op.Checkpoint? && accept(op.key)
  {
    if ops == [] {
    } else {
      MatchingAccepts(ops[..|ops| - 1], accept);
    }
  }

  /** Everything a source's second answer makes the target write belongs to the target. */
  lemma LogTouches(r: Rep, accept: string -> bool, after: int, second: Chunk)
    requires LogAnswer(r, accept, after, second) && r.start <= after
    ensures forall op :: op in OpsOf(second.entries) ==> !op.Checkpoint? && accept(op.key)
  {
    hide Matching;
    MatchingAccepts(if after < r.Seq() then r.ops[after - r.start..] else [], accept);
  }

  lemma RepBase(s: State, ref: Ref, r: Rep)
    requires RepOk(s, ref, r)
    ensures r.start <= r.walBase
  {}

  /** What the catch-up makes of an attempt. */
  function CaughtUpBy(a: Attempt, chunk: Chunk, ops: seq<Op>): Attempt {
    a.(seconds := a.seconds + [chunk], waiting := false, todo := ops)
  }

  /** The second answer of one more source joins the attempt. */
  lemma CatchUpAttempt(s: State, a: Attempt, chunk: Chunk, ops: seq<Op>)
    requires AttemptOk(s, a) && AtSource(s, a) && CatchesUp(ops, a.firsts[|a.seconds|], chunk)
    requires Live(s, a) ==> SecondOk(s.leaders[a.Source(|a.seconds|)].rep, AcceptOf(s, a), a.firsts[|a.seconds|], chunk)
    requires forall op :: op in ops ==> op.Checkpoint? || AcceptOf(s, a)(op.key)
    ensures AttemptOk(s, CaughtUpBy(a, chunk, ops))
  {
    hide SourcesOf, Replay, Copied, CaughtUp, CatchUp, FirstOk, SecondOk, Bulk;
    var a', n := CaughtUpBy(a, chunk, ops), |a.seconds|;
    assert Formed(s, a');
    if Live(s, a) {
      var content := s.leaders[a.Target()].rep.Content();
      assert Filling(s, a') by {
        ReplayNone(content);
        CaughtUpAppend(Bulk(a.leftover, a.firsts), a.firsts, n, a.seconds, chunk);
        assert Replay(content, ops) == CatchUp(content, a.firsts[n], chunk);
      }
      forall i | 0 <= i < |a'.firsts|
        ensures SourceOk(s, a', i)
      {
        assert SourceOk(s, a, i);
      }
    }
  }

  lemma SoundSource(s: State, a: Attempt, i: nat)
    requires Sound(s, a) && i < |a.firsts|
    ensures a.Source(i) in s.leaders && FirstOk(s.leaders[a.Source(i)].rep, AcceptOf(s, a), a.firsts[i])
  {
    hide Filling;
    assert SourceOk(s, a, i);
  }

  lemma CatchUpLogsKeepsInv(s: State, step: Step)
    requires Inv(s) && step.CatchUpLogs? && Enabled(s, step)
    ensures Inv(Next(s, step)) && forall k :: Value(Next(s, step), k) == Value(s, k)
  {
    hide Inv, RepOk, Harmless, Value, FirstOk, SecondOk, AttemptsInv, LayoutsInv, LeadersInv, CallsInv, Replay, IsFrozen, FreezesLast, Formed, Sound, Holds, LogAnswer, Rep.Froze, CatchUp;
    InvParts(s);
    AttemptParts(s, step.n);
    var n, a := step.n, s.attempts[step.n];
    var src, first := a.Source(|a.seconds|), a.firsts[|a.seconds|];
    var rep, accept, until := s.leaders[src].rep, AcceptOf(s, a), s.now + step.ttl;
    var rep' := rep.Froze(Tag(a.count, a.id), accept, until);
    FrozeHarmless(s, src, a.count, a.id, until);
    PutRepKeepsInv(s, src, rep', None);
    var s1 := PutRep(s, src, rep');
    InvParts(s1);
    AttemptParts(s1, n);
    RepBase(s, src, rep);
    LogTouches(rep, accept, first.number, step.chunk);
    if Live(s, a) {
      SoundSource(s, a, |a.seconds|);
      LogsAreFinal(rep, Tag(a.count, a.id), accept, until, first, step.chunk);
    }
    LogsShape(rep, accept, first.number, step.chunk);
    CatchUpAttempt(s1, a, step.chunk, step.ops);
    HoldsMore(s1, n, CaughtUpBy(a, step.chunk, step.ops));
    PutAttemptKeepsInv(s1, n, CaughtUpBy(a, step.chunk, step.ops));
  }

  lemma LogsShape(r: Rep, accept: string -> bool, after: int, chunk: Chunk)
    requires LogAnswer(r, accept, after, chunk)
    ensures chunk.Logs?
  {}

  lemma FreezeOnlyKeepsInv(s: State, step: Step)
    requires Inv(s) && step.FreezeOnly? && Enabled(s, step)
    ensures Inv(Next(s, step)) && forall k :: Value(Next(s, step), k) == Value(s, k)
  {
    hide Inv, RepOk, Harmless, Value, AttemptsInv, LayoutsInv, LeadersInv, CallsInv, IsFrozen, FreezesLast, Formed, Sound, Holds, Rep.Froze;
    InvParts(s);
    AttemptParts(s, step.n);
    var n, a := step.n, s.attempts[step.n];
    var src, until := a.Source(|a.seconds|), s.now + step.ttl;
    var rep' := s.leaders[src].rep.Froze(Tag(a.count, a.id), AcceptOf(s, a), until);
    FrozeHarmless(s, src, a.count, a.id, until);
    PutRepKeepsInv(s, src, rep', None);
    var s1 := PutRep(s, src, rep');
    InvParts(s1);
    AttemptParts(s1, n);
    WaitAttempt(s1, a);
    HoldsMore(s1, n, a.(waiting := true));
    PutAttemptKeepsInv(s1, n, a.(waiting := true));
  }

  lemma WaitAttempt(s: State, a: Attempt)
    requires AttemptOk(s, a) && AtSource(s, a)
    ensures AttemptOk(s, a.(waiting := true))
  {
    hide FirstOk, SecondOk, SourcesOf, Replay, Copied, CaughtUp, Bulk;
    var a' := a.(waiting := true);
    if Live(s, a) {
      forall i | 0 <= i < |a.firsts|
        ensures SourceOk(s, a', i)
      {
        assert SourceOk(s, a, i);
      }
    }
  }

  lemma CatchUpSnapshotKeepsInv(s: State, step: Step)
    requires Inv(s) && step.CatchUpSnapshot? && Enabled(s, step)
    ensures Inv(Next(s, step)) && forall k :: Value(Next(s, step), k) == Value(s, k)
  {
    hide Inv, RepOk, Harmless, Value, FirstOk, SecondOk, AttemptsInv, LayoutsInv, LeadersInv, CallsInv, Replay, IsFrozen, FreezesLast, Sound, Holds, SnapshotAnswer, SourcesOf, CatchUp;
    InvParts(s);
    AttemptParts(s, step.n);
    var n, a := step.n, s.attempts[step.n];
    var src, first := a.Source(|a.seconds|), a.firsts[|a.seconds|];
    var rep, accept := s.leaders[src].rep, AcceptOf(s, a);
    CheckpointHarmless(s, src);
    PutRepKeepsInv(s, src, rep.Log(Checkpoint), None);
    var s1 := PutRep(s, src, rep.Log(Checkpoint));
    InvParts(s1);
    AttemptParts(s1, n);
    if Live(s, a) {
      SoundSource(s, a, |a.seconds|);
      SnapshotIsFinal(rep, accept, first, step.chunk);
    }
    SnapshotShape(rep, accept, step.chunk);
    CatchUpAttempt(s1, a, step.chunk, step.ops);
    HoldsAlready(s1, n, CaughtUpBy(a, step.chunk, step.ops));
    PutAttemptKeepsInv(s1, n, CaughtUpBy(a, step.chunk, step.ops));
  }

  lemma SnapshotShape(r: Rep, accept: string -> bool, chunk: Chunk)
    requires SnapshotAnswer(r, accept, chunk)
    ensures chunk.Full? && forall k :: k in chunk.data ==> accept(k)
  {}

  lemma AbortKeepsInv(s: State, step: Step)
    requires Inv(s) && step.Abort? && Enabled(s, step)
    ensures Inv(Next(s, step)) && forall k :: Value(Next(s, step), k) == Value(s, k)
  {
    hide Inv, Value, AttemptsInv, LayoutsInv, LeadersInv, CallsInv, FreezesLast, Sound, Holds, SourcesOf;
    InvParts(s);
    AttemptParts(s, step.n);
    var a := s.attempts[step.n].(alive := false);
    HoldsAlready(s, step.n, a);
    PutAttemptKeepsInv(s, step.n, a);
  }

  lemma {:induction false} WriteAllOk(s: State, ref: Ref, r: Rep, ops: seq<Op>, flushes: seq<bool>)
    requires RepOk(s, ref, r) && |flushes| == |ops|
    requires forall op :: op in ops ==> op.Checkpoint? || Covers(s, ref, op.key)
    ensures var r' := r.WriteAll(ops, flushes); RepOk(s, ref, r') && r'.freezes == r.freezes
    decreases |ops|
  {
    hide RepOk, Covers;
    if ops == [] {
    } else {
      var n := |ops| - 1;
      WriteAllOk(s, ref, r, ops[..n], flushes[..n]);
      var m := r.WriteAll(ops[..n], flushes[..n]);
      LogOk(s, ref, m, ops[n]);
      LogOk(s, ref, m.Log(ops[n]), Checkpoint);
    }
  }

  /** Part of what is still to be imported is imported. */
  lemma ImportAttempt(s: State, s': State, a: Attempt, m: nat, flushes: seq<bool>)
    requires AttemptOk(s, a) && a.Target() in s.leaders && m <= |a.todo| && |flushes| == m
    requires s'.sum == s.sum && s'.current == s.current && s'.counts == s.counts && s'.leaders.Keys == s.leaders.Keys
    requires forall r :: r in s.leaders && r != a.Target() ==> s'.leaders[r].rep == s.leaders[r].rep
    requires s'.leaders[a.Target()].rep == s.leaders[a.Target()].rep.WriteAll(a.todo[..m], flushes)
    ensures AttemptOk(s', a.(todo := a.todo[m..]))
  {
    hide FirstOk, SecondOk, SourcesOf, Replay, Rep.Content, Rep.WriteAll;
    var a' := a.(todo := a.todo[m..]);
    var rep := s.leaders[a.Target()].rep;
    FormedFrame(s, s', a);
    assert Formed(s', a');
    if Live(s, a) {
      assert Filling(s', a') by {
        Partition.WriteAllContent(rep, a.todo[..m], flushes);
        ReplayConcat(rep.Content(), a.todo[..m], a.todo[m..]);
        assert a.todo[..m] + a.todo[m..] == a.todo;
      }
      forall i | 0 <= i < |a.firsts|
        ensures SourceOk(s', a', i)
      {
        assert SourceOk(s, a, i);
      }
    }
  }

  /** No import: the replica stays as it is. */
  lemma WriteNothing(r: Rep, todo: seq<Op>, flushes: seq<bool>)
    requires |flushes| == 0
    ensures r.WriteAll(todo[..0], flushes) == r
  {}

  /** Another attempt: disturbed if it has the same target, otherwise not concerned. */
  lemma OtherAttempt(s: State, s': State, target: Ref, a: Attempt, m: nat)
    requires AttemptOk(s, a) && s'.sum == s.sum && s'.current == s.current && s'.counts == s.counts && s'.leaders.Keys == s.leaders.Keys
    requires m == 0 || !Serving(s, target)
    requires forall r :: r in s.leaders && (r != target || m == 0) ==> s'.leaders[r].rep == s.leaders[r].rep
    ensures AttemptOk(s', if m > 0 && a.Target() == target then a.(clean := false) else a)
  {
    hide Sound, SourcesOf;
    if m > 0 && a.Target() == target {
      FormedFrame(s, s', a);
    } else {
      assert Live(s, a) ==> SameAround(s, s', a);
      AttemptFrame(s, s', a);
    }
  }

  lemma ImportKeepsInv(s: State, step: Step)
    requires Inv(s) && step.Import? && Enabled(s, step) && NoStrayImport(s, step)
    ensures Inv(Next(s, step)) && forall k :: Value(Next(s, step), k) == Value(s, k)
  {
    hide RepOk, AttemptOk, LayoutsInv, LeadersInv, CallsInv, FreezesLast, Rep.WriteAll, Rep.Content, IsFrozen, Route, Formed, Sound, Serving, IsPending;
    InvParts(s);
    AttemptParts(s, step.n);
    var n, a, m := step.n, s.attempts[step.n], step.m;
    var ref := a.Target();
    var rep := s.leaders[ref].rep;
    var rep' := rep.WriteAll(a.todo[..m], step.flushes);
    var s1, s' := PutRep(s, ref, rep'), Next(s, step);
    TodoCovered(s, a);
    assert forall op :: op in a.todo[..m] ==> op in a.todo;
    WriteAllOk(s, ref, rep, a.todo[..m], step.flushes);
    if m == 0 {
      WriteNothing(rep, a.todo, step.flushes);
    }
    SameLayouts(s, s');
    SameCalls(s, s');
    PutRepLeaders(s, ref, rep');
    SameLeaders(s1, s');
    SameFrozen(rep.freezes, s.now);
    ImportFreezes(s, step);
    forall j | j in s'.attempts
      ensures AttemptOk(s', s'.attempts[j])
    {
      AttemptParts(s, j);
      if j == n {
        ImportAttempt(s, s', a, m, step.flushes);
      } else {
        OtherAttempt(s, s', ref, s.attempts[j], m);
      }
    }
    forall k
      ensures Value(s', k) == Value(s, k)
    {
      RouteServes(s, s.sum(k));
    }
  }

  lemma TodoCovered(s: State, a: Attempt)
    requires Formed(s, a)
    ensures forall op :: op in a.todo ==> op.Checkpoint? || Covers(s, a.Target(), op.key)
  {
    AcceptCovers(s, a);
  }

  lemma ImportFreezes(s: State, step: Step)
    requires LayoutsInv(s) && LeadersInv(s) && FreezesLast(s, s.now) && step.Import? && Enabled(s, step)
    requires var a := s.attempts[step.n]; var rep := s.leaders[a.Target()].rep;
      rep.WriteAll(a.todo[..step.m], step.flushes).freezes == rep.freezes
    ensures FreezesLast(Next(s, step), s.now)
  {
    hide FreezesLast, LayoutsInv, LeadersInv, KeepsFrozen, Rep.WriteAll, Attempted, Departed, Covers, FreezesNoMore;
    var s' := Next(s, step);
    ImportNoMore(s, step);
    forall r | r in s.leaders
      ensures KeepsFrozen(s.leaders[r].rep.freezes, s'.leaders[r].rep.freezes, s.now)
    {
      SameFrozen(s.leaders[r].rep.freezes, s.now);
    }
    FreezesFrame(s, s');
  }

  lemma ImportNoMore(s: State, step: Step)
    requires step.Import? && Enabled(s, step)
    ensures FreezesNoMore(s, Next(s, step))
  {
    hide Rep.WriteAll, Live;
    var s' := Next(s, step);
    forall n | n in s'.attempts && Live(s, s'.attempts[n])
      ensures n in s.attempts && Live(s, s.attempts[n]) && SameFreezes(s.attempts[n], s'.attempts[n])
    {
      StillLive(s, s.attempts[n], s'.attempts[n]);
    }
  }

  lemma StillLive(s: State, a: Attempt, a': Attempt)
    requires a' == a.(clean := a'.clean, todo := a'.todo) && (a'.clean ==> a.clean)
    ensures Live(s, a') ==> Live(s, a)
  {}

  /** Keys live in serving partitions. */
  lemma RouteServes(s: State, h: nat)
    requires LayoutsInv(s)
    ensures Route(Some(s.current), h).Some? && Serving(s, Route(Some(s.current), h).value)
  {
    assert LayoutKnown(s.counts, LayoutAt(s, |s.past|));
  }

  // ----- nodes and clients -----

  /** The owner of a key always has a leader. */
  lemma RouteLed(s: State, h: nat)
    requires LayoutsInv(s) && LeadersInv(s)
    ensures Route(Some(s.current), h).Some? && Route(Some(s.current), h).value in s.leaders
    ensures Route(Some(s.current), h).value.generation >= s.current.generation
  {
    hide RepOk;
    assert LayoutKnown(s.counts, LayoutAt(s, |s.past|));
    var r := Route(Some(s.current), h).value;
    if r.generation == s.current.generation {
      assert SourceRef(s, h % s.current.count) == r;
    } else {
      assert TargetRef(s, h % NextCount(s)) == r;
    }
  }

  lemma ObserveKeepsInv(s: State, step: Step)
    requires Inv(s) && step.Observe? && Enabled(s, step)
    ensures Inv(Next(s, step)) && forall k :: Value(Next(s, step), k) == Value(s, k)
  {
    hide RepOk, AttemptOk, CallsInv, Rep.Content, IsFrozen, Route, FreezesLast, KeepsFrozen, LayoutKnown, Attempted, Departed, Covers;
    var s' := Next(s, step);
    SameLayouts(s, s');
    SameCalls(s, s');
    forall r | r in s.leaders
      ensures KeepsFrozen(s.leaders[r].rep.freezes, s'.leaders[r].rep.freezes, s.now)
    {
      SameFrozen(s.leaders[r].rep.freezes, s.now);
    }
    FreezesFrame(s, s');
    SameReps(s, s');
    forall n | n in s'.attempts
      ensures AttemptOk(s', s'.attempts[n])
    {
      AttemptFrame(s, s', s.attempts[n]);
    }
  }

  lemma SameReps(s: State, s': State)
    requires LeadersInv(s) && s' == s.(leaders := s'.leaders) && s.leaders.Keys == s'.leaders.Keys
    requires forall r :: r in s.leaders ==> s'.leaders[r].rep == s.leaders[r].rep && s'.leaders[r].view <= |s.past|
    ensures LeadersInv(s')
  {
    forall ref | ref in s'.leaders
      ensures RepOk(s', ref, s'.leaders[ref].rep)
    {
      assert RepOk(s, ref, s.leaders[ref].rep);
      assert forall k :: Covers(s', ref, k) == Covers(s, ref, k);
    }
    assert NextCount(s') == NextCount(s);
    assert forall p :: SourceRef(s', p) == SourceRef(s, p) && TargetRef(s', p) == TargetRef(s, p);
  }

  lemma TickKeepsInv(s: State, step: Step)
    requires Inv(s) && step.Tick? && Enabled(s, step) && FreezesLast(s, step.now)
    ensures Inv(Next(s, step)) && forall k :: Value(Next(s, step), k) == Value(s, k)
  {
    hide RepOk, AttemptOk, CallsInv, Rep.Content, IsFrozen, Route, LayoutsInv, LeadersInv, Covers;
    var s' := Next(s, step);
    SameLayouts(s, s');
    SameCalls(s, s');
    SameLeaders(s, s');
    forall ref, k | Needed(s', ref, k)
      ensures IsFrozen(s'.leaders[ref].rep.freezes, k, s'.now)
    {
      NeededLater(s, s', ref, k);
    }
    forall n | n in s'.attempts
      ensures AttemptOk(s', s'.attempts[n])
    {
      AttemptFrame(s, s', s.attempts[n]);
    }
  }

  /** Time alone does not make a freeze needed. */
  lemma NeededLater(s: State, s': State, ref: Ref, k: string)
    requires s' == s.(now := s'.now) && Needed(s', ref, k) && LayoutsInv(s)
    ensures Needed(s, ref, k)
  {
    NeededFrame(s, s', ref, k);
  }

  lemma JoinKeepsInv(s: State, step: Step)
    requires Inv(s) && step.Join? && Enabled(s, step)
    ensures Inv(Next(s, step)) && forall k :: Value(Next(s, step), k) == Value(s, k)
  {
    hide AttemptOk, CallsInv, FreezesLast, Rep.Content, IsFrozen, Route, RouteGen, LayoutKnown, KeepsFrozen;
    var s' := Next(s, step);
    SameLayouts(s, s');
    SameCalls(s, s');
    assert LayoutKnown(s.counts, LayoutAt(s, |s.past|));
    JoinLeaders(s, step);
    JoinFreezes(s, step);
    forall n | n in s'.attempts
      ensures AttemptOk(s', s'.attempts[n])
    {
      AttemptFrame(s, s', s.attempts[n]);
    }
    forall k
      ensures Value(s', k) == Value(s, k)
    {
      RouteLed(s, s.sum(k));
    }
  }

  lemma JoinFreezes(s: State, step: Step)
    requires LayoutsInv(s) && LeadersInv(s) && FreezesLast(s, s.now) && step.Join? && Enabled(s, step)
    ensures FreezesLast(Next(s, step), s.now)
  {
    hide RepOk, FreezesLast, KeepsFrozen, RouteGen, Covers, IsPending;
    var s' := Next(s, step);
    assert LayoutKnown(s.counts, LayoutAt(s, |s.past|));
    forall ref, k | Needed(s', ref, k)
      ensures ref in s.leaders && KeepsFrozen(s.leaders[ref].rep.freezes, s'.leaders[ref].rep.freezes, s.now)
    {
      RouteShape(s.counts, s.current, s.sum(k));
      assert ref != step.ref;
      SameFrozen(s.leaders[ref].rep.freezes, s.now);
    }
    FreezesFrame(s, s');
  }

  lemma JoinLeaders(s: State, step: Step)
    requires LeadersInv(s) && LayoutKnown(s.counts, s.current) && step.Join? && Enabled(s, step)
    ensures LeadersInv(Next(s, step))
  {
    var s' := Next(s, step);
    forall ref | ref in s'.leaders
      ensures RepOk(s', ref, s'.leaders[ref].rep)
    {
      assert ref != step.ref ==> RepOk(s, ref, s.leaders[ref].rep);
      assert forall k :: Covers(s', ref, k) == Covers(s, ref, k);
    }
    assert NextCount(s') == NextCount(s);
    assert forall p :: SourceRef(s', p) == SourceRef(s, p) && TargetRef(s', p) == TargetRef(s, p);
  }

  lemma DropKeepsInv(s: State, step: Step)
    requires Inv(s) && step.Drop? && Enabled(s, step)
    ensures Inv(Next(s, step)) && forall k :: Value(Next(s, step), k) == Value(s, k)
  {
    hide AttemptOk, CallsInv, FreezesLast, RepOk, Rep.Content, IsFrozen, Route, RouteGen, LayoutKnown, KeepsFrozen, Covers, Attempted, Departed;
    var s' := Next(s, step);
    SameLayouts(s, s');
    SameCalls(s, s');
    assert LayoutAt(s, s.leaders[step.ref].view).generation <= LayoutAt(s, |s.past|).generation;
    assert step.ref.generation < s.current.generation;
    DropLeaders(s, step.ref);
    forall ref | ref in s'.leaders
      ensures KeepsFrozen(s.leaders[ref].rep.freezes, s'.leaders[ref].rep.freezes, s.now)
    {
      SameFrozen(s.leaders[ref].rep.freezes, s.now);
    }
    FreezesFrame(s, s');
    forall n | n in s'.attempts
      ensures AttemptOk(s', s'.attempts[n])
    {
      AttemptFrame(s, s', s.attempts[n]);
    }
    forall k
      ensures Value(s', k) == Value(s, k)
    {
      RouteLed(s, s.sum(k));
    }
  }

  lemma DropLeaders(s: State, ref: Ref)
    requires LeadersInv(s) && ref.generation < s.current.generation
    ensures LeadersInv(s.(leaders := s.leaders - {ref}))
  {
    var s' := s.(leaders := s.leaders - {ref});
    forall r | r in s'.leaders
      ensures RepOk(s', r, s'.leaders[r].rep)
    {
      assert RepOk(s, r, s.leaders[r].rep);
      assert forall k :: Covers(s', r, k) == Covers(s, r, k);
    }
    assert NextCount(s') == NextCount(s);
    assert forall p :: SourceRef(s', p) == SourceRef(s, p) && TargetRef(s', p) == TargetRef(s, p);
  }

  /** Admitting a request needs no new freeze: the node's layout routes the key here. */
  lemma AdmitKeepsInv(s: State, step: Step)
    requires Inv(s) && step.Admit? && Enabled(s, step)
    ensures Inv(Next(s, step)) && forall k :: Value(Next(s, step), k) == Value(s, k)
  {
    hide AttemptOk, RepOk, Rep.Content, IsFrozen, Route, RouteGen, LayoutKnown, Covers;
    var s' := Next(s, step);
    SameLayouts(s, s');
    SameLeaders(s, s');
    AdmittedOk(s, step.ref, step.op);
    forall c | c in s'.calls
      ensures CallOk(s', c)
    {
      assert CallOk(s, c);
      assert Covers(s', c.ref, c.op.key) == Covers(s, c.ref, c.op.key) by { SameCovers(s, s', c.ref, c.op.key); }
    }
    forall ref, k | Needed(s', ref, k)
      ensures IsFrozen(s'.leaders[ref].rep.freezes, k, s'.now)
    {
      AdmitNeeded(s, step, ref, k);
    }
    forall n | n in s'.attempts
      ensures AttemptOk(s', s'.attempts[n])
    {
      AttemptFrame(s, s', s.attempts[n]);
    }
  }

  lemma SameCovers(s: State, s': State, ref: Ref, k: string)
    requires s'.sum == s.sum && s'.counts == s.counts
    ensures Covers(s', ref, k) == Covers(s, ref, k)
  {}

  lemma AdmittedOk(s: State, ref: Ref, op: Op)
    requires LayoutsInv(s) && LeadersInv(s) && Addressed(s, ref, op)
    ensures CallOk(s, Call(ref, op)) && RouteGen(LayoutAt(s, s.leaders[ref].view), s.sum(op.key)) == ref.generation
  {
    hide RepOk, RouteGen, LayoutKnown;
    var v := s.leaders[ref].view;
    AddressedCovers(s, ref, op);
    RouteShape(s.counts, LayoutAt(s, v), s.sum(op.key));
    assert LayoutAt(s, |s.past|) == s.current;
    assert RouteGen(LayoutAt(s, v), s.sum(op.key)) <= RouteGen(LayoutAt(s, |s.past|), s.sum(op.key));
  }

  lemma AdmitNeeded(s: State, step: Step, ref: Ref, k: string)
    requires LayoutsInv(s) && LeadersInv(s) && step.Admit? && Enabled(s, step) && Needed(Next(s, step), ref, k)
    ensures Needed(s, ref, k)
  {
    hide LayoutsInv, LeadersInv, RouteGen;
    var s' := Next(s, step);
    AdmittedOk(s, step.ref, step.op);
    assert LayoutAt(s', s'.leaders[ref].view) == LayoutAt(s, s.leaders[ref].view);
    if Attempted(s', ref, k) {
      var n :| n in s'.attempts && Freezes(s', s'.attempts[n], ref, k);
      assert Freezes(s, s.attempts[n], ref, k);
    } else if Called(s', ref, k) {
      var c :| c in s'.calls && c.ref == ref && !c.op.Checkpoint? && c.op.key == k;
      assert c in s.calls ==> Called(s, ref, k);
    }
  }

  lemma AnswerKeepsInv(s: State, step: Step)
    requires Inv(s) && step.Answer? && Enabled(s, step)
    ensures Inv(Next(s, step)) && forall k :: Value(Next(s, step), k) == Value(s, k)
  {
    hide AttemptOk, RepOk, CallsInv, FreezesLast, Rep.Content, IsFrozen, Route, RouteGen, LayoutsInv, LeadersInv, Covers, Attempted, Departed, KeepsFrozen;
    var s' := Next(s, step);
    SameLayouts(s, s');
    SameCalls(s, s');
    SameLeaders(s, s');
    forall ref | ref in s'.leaders
      ensures KeepsFrozen(s.leaders[ref].rep.freezes, s'.leaders[ref].rep.freezes, s.now)
    {
      SameFrozen(s.leaders[ref].rep.freezes, s.now);
    }
    FreezesFrame(s, s');
    forall n | n in s'.attempts
      ensures AttemptOk(s', s'.attempts[n])
    {
      AttemptFrame(s, s', s.attempts[n]);
    }
  }

  // ----- a completed pull -----

  ghost function TruthOf(r: Rep, p: nat, first: Chunk, second: Chunk): Truth
    requires r.start <= first.number <= second.number
  {
    Truth(p, r.base, r.ops, first.number - r.start, second.number - r.start)
  }

  /** What is known about a source that has answered both requests is what PullExact asks for. */
  lemma SourceTruth(s: State, p: nat, r: Rep, accept: string -> bool, first: Chunk, second: Chunk)
    requires LayoutKnown(s.counts, s.current) && RepOk(s, SourceRef(s, p), r)
    requires FirstOk(r, accept, first) && SecondOk(r, accept, first, second)
    ensures Plausible(TruthOf(r, p, first, second), Owner(s.sum, s.current.count))
    ensures Honest(TruthOf(r, p, first, second), accept, first, second)
  {
    hide Replay, Matching, Restrict, Quiet, TagsOk;
  }

  lemma QuietLookup(r: Rep, n: int, accept: string -> bool, k: string)
    requires Quiet(r, n, accept) && accept(k) && n <= r.Seq()
    ensures Lookup(r.Content(), k) == Lookup(Restrict(r.ContentAt(n), accept), k)
  {
    var a, b := r.ops[..n - r.start], r.ops[n - r.start..];
    assert r.ops == a + b;
    ReplayConcat(r.base, a, b);
    ReplayOther(Replay(r.base, a), b, k);
  }

  /** Every old partition that can hold a key of the target is among its sources. */
  lemma SourceListed(sources: seq<nat>, id: nat, oldCount: nat, newCount: nat, h: nat) returns (i: nat)
    requires SourcesOf(sources, id, oldCount, newCount) && h % newCount == id
    ensures i < |sources| && sources[i] == h % oldCount
  {
    assert HashesTo(h, oldCount, h % oldCount) && HashesTo(h, newCount, id);
    assert h % oldCount in sources;
    i :| 0 <= i < |sources| && sources[i] == h % oldCount;
  }

  /** In the current layout a live attempt copies from the current generation into the next one. */
  lemma LiveCounts(s: State, a: Attempt)
    requires LayoutsInv(s) && Formed(s, a) && IsPending(s, a.generation, a.id)
    ensures s.current.count > 0 && s.counts[a.generation - 1] == s.current.count && a.count == NextCount(s)
    ensures forall i :: 0 <= i < |a.sources| ==> a.Source(i) == SourceRef(s, a.sources[i])
  {
    hide SourcesOf, OwnKeys;
    assert LayoutKnown(s.counts, LayoutAt(s, |s.past|));
  }

  /** A completed attempt has every key of the target as its old owner has it now. */
  lemma CompleteExact(s: State, a: Attempt, k: string)
    requires LayoutsInv(s) && LeadersInv(s) && Formed(s, a) && Live(s, a) && Sound(s, a) && Complete(a) && AcceptOf(s, a)(k)
    ensures s.current.count > 0
    ensures var src := SourceRef(s, s.sum(k) % s.current.count);
      && FrozenBy(a, src.id) && src in s.leaders
      && Lookup(s.leaders[a.Target()].rep.Content(), k) == Lookup(s.leaders[src].rep.Content(), k)
  {
    hide FirstOk, SecondOk, RepOk, Plausible, Honest, LayoutKnown, Replay, Rep.Content, Rep.ContentAt, Copied, Bulk, CaughtUp, CatchUp, At, Meet, OwnKeys, LayoutsInv;
    LiveCounts(s, a);
    var accept, owner := AcceptOf(s, a), Owner(s.sum, s.current.count);
    var content := s.leaders[a.Target()].rep.Content();
    var ts := Truths(s, a);
    assert content == Pulled(a.leftover, a.firsts, a.seconds) by {
      ReplayNone(content);
      assert a.firsts[..|a.seconds|] == a.firsts;
    }
    PullExact(a.leftover, ts, owner, accept, a.firsts, a.seconds);
    var i := SourceListed(a.sources, a.id, s.current.count, a.count, s.sum(k));
    assert SourceOk(s, a, i);
    var r := s.leaders[a.Source(i)].rep;
    FrozenNow(r, a.sources[i], accept, a.firsts[i], a.seconds[i], k);
    assert Agrees(content, ts[i], owner, At(ts[i], ts[i].frozenAt, accept));
  }

  lemma FrozenNow(r: Rep, p: nat, accept: string -> bool, first: Chunk, second: Chunk, k: string)
    requires SecondOk(r, accept, first, second) && accept(k)
    ensures r.start <= first.number <= second.number <= r.Seq()
    ensures var t := TruthOf(r, p, first, second); Lookup(r.Content(), k) == Lookup(At(t, t.frozenAt, accept), k)
  {
    hide Matching, Restrict, Replay;
    QuietLookup(r, second.number, accept, k);
  }

  lemma Truths(s: State, a: Attempt) returns (ts: seq<Truth>)
    requires LayoutsInv(s) && LeadersInv(s) && Formed(s, a) && Live(s, a) && Sound(s, a) && Complete(a)
    ensures |ts| == |a.sources| && Answers(ts, Owner(s.sum, s.current.count), AcceptOf(s, a), a.firsts, a.seconds)
    ensures forall i :: 0 <= i < |ts| ==>
      && a.Source(i) in s.leaders
      && var r := s.leaders[a.Source(i)].rep;
         && SecondOk(r, AcceptOf(s, a), a.firsts[i], a.seconds[i])
         && r.start <= a.firsts[i].number <= a.seconds[i].number
         && ts[i] == TruthOf(r, a.sources[i], a.firsts[i], a.seconds[i])
  {
    hide FirstOk, RepOk, Plausible, Honest, LayoutKnown, Replay, Filling, Rep.Content, Rep.ContentAt, Matching, Quiet, OwnKeys;
    var owner, accept := Owner(s.sum, s.current.count), AcceptOf(s, a);
    LiveCounts(s, a);
    assert LayoutKnown(s.counts, LayoutAt(s, |s.past|));
    ts := [];
    while |ts| < |a.sources|
      invariant |ts| <= |a.sources|
      invariant forall i :: 0 <= i < |ts| ==>
        && a.Source(i) in s.leaders
        && var r := s.leaders[a.Source(i)].rep;
           && SecondOk(r, AcceptOf(s, a), a.firsts[i], a.seconds[i])
           && r.start <= a.firsts[i].number <= a.seconds[i].number
           && ts[i] == TruthOf(r, a.sources[i], a.firsts[i], a.seconds[i])
      invariant forall i :: 0 <= i < |ts| ==> Plausible(ts[i], owner) && Honest(ts[i], accept, a.firsts[i], a.seconds[i])
    {
      var n := |ts|;
      assert SourceOk(s, a, n);
      var r := s.leaders[a.Source(n)].rep;
      SourceTruth(s, a.sources[n], r, accept, a.firsts[n], a.seconds[n]);
      ts := ts + [TruthOf(r, a.sources[n], a.firsts[n], a.seconds[n])];
    }
  }

  // ----- new layouts -----

  /** A change of the layout that the code makes. */
  predicate Changes(s: State, change: RouteStep) {
    RouteEnabled(s.current, change) && (change.Start? ==> change.next.generation == s.current.generation + 1)
  }

  lemma LayoutKnownNext(s: State, change: RouteStep, v: nat)
    requires LayoutsInv(s) && Changes(s, change)
    ensures LayoutKnown(PutLayout(s, change).counts, LayoutAt(PutLayout(s, change), v))
  {
    hide RouteGen;
    var s' := PutLayout(s, change);
    assert LayoutKnown(s.counts, LayoutAt(s, v));
    assert LayoutKnown(s.counts, LayoutAt(s, |s.past|));
    assert v <= |s.past| ==> Newest(LayoutAt(s, v)) <= Newest(LayoutAt(s, |s.past|));
    assert v <= |s.past| ==> LayoutAt(s', v) == LayoutAt(s, v);
  }

  lemma LayoutChanges(s: State, change: RouteStep)
    requires LayoutsInv(s) && Changes(s, change)
    ensures LayoutsInv(PutLayout(s, change))
  {
    hide LayoutKnown, RouteGen, RouteNext, Newest, RouteEnabled;
    var s' := PutLayout(s, change);
    forall v: nat
      ensures LayoutKnown(s'.counts, LayoutAt(s', v))
    {
      LayoutKnownNext(s, change, v);
    }
    assert LayoutAt(s, |s.past|) == s.current;
    assert LayoutKnown(s.counts, LayoutAt(s, |s.past|));
    forall v: nat, w: nat | v <= w
      ensures forall h: nat :: RouteGen(LayoutAt(s', v), h) <= RouteGen(LayoutAt(s', w), h)
      ensures LayoutAt(s', v).generation <= LayoutAt(s', w).generation && Newest(LayoutAt(s', v)) <= Newest(LayoutAt(s', w))
    {
      ChangeNewest(s.counts, s.current, change);
      if w <= |s.past| {
        assert LayoutAt(s', v) == LayoutAt(s, v) && LayoutAt(s', w) == LayoutAt(s, w);
      } else if v <= |s.past| {
        assert LayoutAt(s', v) == LayoutAt(s, v) && LayoutAt(s', w) == s'.current;
        assert LayoutAt(s, v).generation <= LayoutAt(s, |s.past|).generation;
        forall h: nat
          ensures RouteGen(LayoutAt(s', v), h) <= RouteGen(LayoutAt(s', w), h)
        {
          assert RouteGen(LayoutAt(s, v), h) <= RouteGen(LayoutAt(s, |s.past|), h);
        }
      }
    }
  }

  lemma ChangeNewest(counts: map<int, nat>, l: Layout, change: RouteStep)
    requires LayoutKnown(counts, l) && RouteEnabled(l, change)
    ensures l.generation <= RouteNext(l, change).generation && Newest(l) <= Newest(RouteNext(l, change))
    ensures forall h: nat :: RouteGen(l, h) <= RouteGen(RouteNext(l, change), h)
  {
    forall h: nat
      ensures RouteGen(l, h) <= RouteGen(RouteNext(l, change), h)
    {
      ChangeOrdered(l, change, h);
    }
  }

  /** Old generations keep their partition counts. */
  lemma CoversStay(s: State, change: RouteStep, ref: Ref, k: string)
    requires LayoutsInv(s) && Changes(s, change) && ref.generation <= Newest(s.current)
    ensures Covers(PutLayout(s, change), ref, k) == Covers(s, ref, k)
  {}

  lemma RepStays(s: State, change: RouteStep, ref: Ref)
    requires LayoutsInv(s) && LeadersInv(s) && Changes(s, change) && ref in s.leaders
    ensures RepOk(PutLayout(s, change), ref, s.leaders[ref].rep)
  {
    hide LayoutsInv, Covers, TagsOk, RouteEnabled, RouteNext, Rep.Content;
    var s' := PutLayout(s, change);
    assert RepOk(s, ref, s.leaders[ref].rep);
    forall k
      ensures Covers(s', ref, k) == Covers(s, ref, k)
    {
      CoversStay(s, change, ref, k);
    }
  }

  lemma LeadersStay(s: State, change: RouteStep)
    requires LayoutsInv(s) && LeadersInv(s) && Changes(s, change) && (change.MarkDone? ==> TargetRef(s, change.id) in s.leaders)
    ensures LeadersInv(PutLayout(s, change))
  {
    hide RouteGen, RepOk;
    var s' := PutLayout(s, change);
    assert LayoutKnown(s.counts, LayoutAt(s, |s.past|));
    forall ref | ref in s'.leaders
      ensures RepOk(s', ref, s'.leaders[ref].rep) && ref.generation <= Newest(s'.current)
    {
      RepStays(s, change, ref);
    }
    assert forall p: nat :: SourceRef(s, p) == Ref(s.current.generation, p) && TargetRef(s, p) == Ref(s.current.generation + 1, p);
    forall p: nat | p < s'.current.count
      ensures SourceRef(s', p) in s'.leaders
    {
      assert SourceRef(s', p) == if change.Finish? then TargetRef(s, p) else SourceRef(s, p);
    }
  }

  lemma CallsStay(s: State, change: RouteStep)
    requires LayoutsInv(s) && CallsInv(s) && Changes(s, change)
    ensures CallsInv(PutLayout(s, change))
  {
    hide RouteGen, LayoutKnown, RouteNext, RouteEnabled, Covers;
    var s' := PutLayout(s, change);
    assert LayoutKnown(s.counts, LayoutAt(s, |s.past|));
    ChangeNewest(s.counts, s.current, change);
    forall c | c in s'.calls
      ensures CallOk(s', c)
    {
      assert CallOk(s, c);
      RouteShape(s.counts, s.current, s.sum(c.op.key));
      CoversStay(s, change, c.ref, c.op.key);
    }
  }

  /** No partition gets a new leader by the change. */
  ghost predicate KeepsEpochs(s: State, change: RouteStep) { change.Edit? ==> Raises(s.current, change.edited, {}) }

  /** What an edit that raises some epochs does to the partitions of both generations. */
  lemma RaisedParts(l: Layout, l': Layout, raised: set<Ref>)
    requires SameShape(l, l') && Raises(l, l', raised) && (l.resharding.Some? ==> l.resharding.value.generation == l.generation + 1)
    ensures forall i :: 0 <= i < |l.parts| ==>
      if Ref(l.generation, i) in raised then l'.parts[i].epoch > l.parts[i].epoch else l'.parts[i].epoch == l.parts[i].epoch
    ensures l.resharding.Some? ==> forall i :: 0 <= i < |l.resharding.value.parts| ==>
      if Ref(l.generation + 1, i) in raised then l'.resharding.value.parts[i].epoch > l.resharding.value.parts[i].epoch
      else l'.resharding.value.parts[i].epoch == l.resharding.value.parts[i].epoch
  {
    forall i | 0 <= i < |l.parts|
      ensures Find(Some(l), Ref(l.generation, i)) == Some(l.parts[i]) && Find(Some(l'), Ref(l.generation, i)) == Some(l'.parts[i])
    {
    }
    if l.resharding.Some? {
      forall i | 0 <= i < |l.resharding.value.parts|
        ensures Find(Some(l), Ref(l.generation + 1, i)) == Some(l.resharding.value.parts[i])
        ensures Find(Some(l'), Ref(l.generation + 1, i)) == Some(l'.resharding.value.parts[i])
      {
      }
    }
  }

  /** Epochs that have been reached stay reached. */
  lemma NotAheadEdit(l: Layout, l': Layout, raised: set<Ref>, a: Attempt)
    requires SameShape(l, l') && Raises(l, l', raised) && NotAhead(l, a)
    ensures NotAhead(l', a)
  {
    assert forall ref :: Find(Some(l'), ref).Some? <==> Find(Some(l), ref).Some?;
  }

  lemma NotAheadStays(s: State, change: RouteStep, a: Attempt)
    requires LayoutKnown(s.counts, s.current) && a.generation <= Newest(s.current) && Changes(s, change) && KeepsEpochs(s, change) && NotAhead(s.current, a)
    ensures NotAhead(PutLayout(s, change).current, a)
  {
    if change.Edit? {
      NotAheadEdit(s.current, change.edited, {}, a);
    }
  }

  /** An attempt that is live after the change was live before it. */
  lemma AttemptStays(s: State, change: RouteStep, a: Attempt)
    requires LayoutsInv(s) && AttemptOk(s, a) && Changes(s, change) && KeepsEpochs(s, change)
    ensures AttemptOk(PutLayout(s, change), a)
    ensures Live(PutLayout(s, change), a) ==> Live(s, a) && PutLayout(s, change).current.generation == s.current.generation
  {
    hide Sound, SourcesOf, Progress, OwnKeys, RouteGen, NotAhead, KeepsEpochs;
    var s' := PutLayout(s, change);
    assert LayoutKnown(s.counts, LayoutAt(s, |s.past|));
    ChangeNewest(s.counts, s.current, change);
    NotAheadStays(s, change, a);
    FormedFrame(s, s', a);
    LiveStays(s, change, a);
    if Live(s', a) {
      SoundFrame(s, s', a);
    }
  }

  lemma LiveStays(s: State, change: RouteStep, a: Attempt)
    requires LayoutKnown(s.counts, s.current) && a.generation <= Newest(s.current) && Changes(s, change) && KeepsEpochs(s, change)
    ensures Live(PutLayout(s, change), a) ==> Live(s, a) && PutLayout(s, change).current.generation == s.current.generation
  {
    if change.Edit? {
      RaisedParts(s.current, change.edited, {});
    }
  }

  /** A freeze that is needed after the change was needed before it. */
  lemma NeededBefore(s: State, change: RouteStep, ref: Ref, k: string)
    requires LayoutsInv(s) && LeadersInv(s) && AttemptsInv(s) && Changes(s, change) && Needed(PutLayout(s, change), ref, k)
    requires !change.MarkDone? && KeepsEpochs(s, change)
    ensures Needed(s, ref, k)
  {
    hide RouteGen, AttemptOk, RepOk, RouteEnabled, RouteNext, LayoutKnown, Live;
    var s', h := PutLayout(s, change), s.sum(k);
    CoversStay(s, change, ref, k);
    assert LayoutKnown(s.counts, LayoutAt(s, |s.past|));
    assert LayoutAt(s', s'.leaders[ref].view) == LayoutAt(s, s.leaders[ref].view);
    ChangeGen(s.counts, s.current, change, h);
    if Attempted(s', ref, k) {
      var n :| n in s'.attempts && Freezes(s', s'.attempts[n], ref, k);
      AttemptStays(s, change, s.attempts[n]);
      assert Freezes(s, s.attempts[n], ref, k);
    } else {
      assert Called(s', ref, k) == Called(s, ref, k);
    }
  }

  lemma ChangeGen(counts: map<int, nat>, l: Layout, change: RouteStep, h: nat)
    requires LayoutKnown(counts, l) && RouteEnabled(l, change)
    ensures RouteGen(RouteNext(l, change), h) ==
      if change.MarkDone? && h % l.resharding.value.count == change.id then l.generation + 1 else RouteGen(l, h)
  {
    ChangeOrdered(l, change, h);
  }

  lemma PublishKeepsInv(s: State, change: RouteStep)
    requires Inv(s) && Changes(s, change) && !change.MarkDone? && KeepsEpochs(s, change)
    ensures Inv(PutLayout(s, change)) && forall k :: Value(PutLayout(s, change), k) == Value(s, k)
  {
    hide LayoutsInv, LeadersInv, CallsInv, AttemptOk, Covers, Attempted, Departed, IsFrozen, RouteEnabled, RouteNext, Route, Rep.Content;
    var s' := PutLayout(s, change);
    LayoutChanges(s, change);
    LeadersStay(s, change);
    CallsStay(s, change);
    forall ref, k | Needed(s', ref, k)
      ensures IsFrozen(s'.leaders[ref].rep.freezes, k, s'.now)
    {
      NeededBefore(s, change, ref, k);
    }
    forall n | n in s'.attempts
      ensures AttemptOk(s', s'.attempts[n])
    {
      AttemptStays(s, change, s.attempts[n]);
    }
    forall k
      ensures Value(s', k) == Value(s, k)
    {
      RouteStays(s, change, s.sum(k));
    }
  }

  lemma RouteStays(s: State, change: RouteStep, h: nat)
    requires LayoutsInv(s) && Changes(s, change) && !change.MarkDone?
    ensures Route(Some(PutLayout(s, change).current), h) == Route(Some(s.current), h)
  {
    assert LayoutKnown(s.counts, LayoutAt(s, |s.past|));
    RouteStepEffect(s.current, change, h);
  }

  // ----- leaders that hand over -----

  /** No live attempt has to do with the partition that gets a new leader. */
  lemma HandoverAttempt(s: State, step: Step, a: Attempt)
    requires LayoutsInv(s) && AttemptOk(s, a) && step.Handover? && Enabled(s, step)
    ensures AttemptOk(Next(s, step), a)
    ensures Live(Next(s, step), a) ==> Live(s, a) && a.generation == s.current.generation + 1 && a.Target() != step.ref && forall i :: 0 <= i < |a.sources| ==> a.Source(i) != step.ref
  {
    hide Sound, SourcesOf, Progress, OwnKeys, RouteGen, NotAhead, Raises, RepOk, Rep.Content;
    var s' := Next(s, step);
    assert LayoutKnown(s.counts, LayoutAt(s, |s.past|));
    NotAheadEdit(s.current, step.edited, {step.ref}, a);
    FormedFrame(s, s', a);
    HandoverLive(s, step, a);
    if Live(s', a) {
      SoundFrame(s, s', a);
    }
  }

  lemma HandoverLive(s: State, step: Step, a: Attempt)
    requires LayoutKnown(s.counts, s.current) && step.Handover? && Enabled(s, step) && NotAhead(s.current, a)
    ensures Live(Next(s, step), a) ==> Live(s, a) && a.generation == s.current.generation + 1 && a.Target() != step.ref && forall i :: 0 <= i < |a.sources| ==> a.Source(i) != step.ref
  {
    hide RepOk, Rep.Content;
    RaisedParts(s.current, step.edited, {step.ref});
    if Live(Next(s, step), a) {
      assert Find(Some(s.current), a.Target()) == Some(s.current.resharding.value.parts[a.id]);
      forall i | 0 <= i < |a.sources|
        ensures Find(Some(s.current), a.Source(i)) == Some(s.current.parts[a.sources[i]]) && a.Source(i) != step.ref
      {
      }
    }
  }

  lemma HandoverLeaders(s: State, step: Step)
    requires LayoutsInv(s) && LeadersInv(s) && step.Handover? && Enabled(s, step)
    ensures LeadersInv(Next(s, step))
  {
    hide RepOk, Rep.Content, Raises, RouteGen, LayoutsInv;
    var s1, s' := PutLayout(s, Edit(step.edited)), Next(s, step);
    LeadersStay(s, Edit(step.edited));
    SameShapeRep(s, s', step.ref, step.rep);
    forall r | r in s'.leaders
      ensures RepOk(s', r, s'.leaders[r].rep)
    {
      if r != step.ref {
        assert RepOk(s1, r, s.leaders[r].rep);
        SameShapeRep(s1, s', r, s.leaders[r].rep);
      }
    }
    assert forall p: nat :: SourceRef(s', p) == SourceRef(s1, p) && TargetRef(s', p) == TargetRef(s1, p);
  }

  lemma SameShapeRep(s: State, s': State, ref: Ref, r: Rep)
    requires RepOk(s, ref, r) && s'.sum == s.sum && s'.counts == s.counts
    ensures RepOk(s', ref, r)
  {
    hide TagsOk;
    assert forall k :: Covers(s', ref, k) == Covers(s, ref, k);
  }

  lemma HandoverNeeded(s: State, step: Step, ref: Ref, k: string)
    requires LayoutsInv(s) && LeadersInv(s) && AttemptsInv(s) && step.Handover? && Enabled(s, step) && Needed(Next(s, step), ref, k)
    ensures ref != step.ref && Needed(s, ref, k)
  {
    hide RouteGen, AttemptOk, RepOk, LayoutKnown, Live, Raises, Rep.Content;
    var s', h := Next(s, step), s.sum(k);
    assert LayoutKnown(s.counts, LayoutAt(s, |s.past|));
    ChangeGen(s.counts, s.current, Edit(step.edited), h);
    assert Covers(s', ref, k) == Covers(s, ref, k);
    if Attempted(s', ref, k) {
      var n :| n in s'.attempts && Freezes(s', s'.attempts[n], ref, k);
      HandoverAttempt(s, step, s.attempts[n]);
      HandoverFrozen(s, step, s.attempts[n], ref, k);
      assert Freezes(s, s.attempts[n], ref, k);
    } else {
      assert ref != step.ref;
      assert LayoutAt(s', s'.leaders[ref].view) == LayoutAt(s, s.leaders[ref].view);
      assert Called(s', ref, k) ==> Called(s, ref, k);
    }
  }

  lemma HandoverFrozen(s: State, step: Step, a: Attempt, ref: Ref, k: string)
    requires step.Handover? && Enabled(s, step) && Freezes(Next(s, step), a, ref, k)
    requires forall i :: 0 <= i < |a.sources| ==> a.Source(i) != step.ref
    requires Live(Next(s, step), a) ==> a.generation == s.current.generation + 1
    ensures ref != step.ref
  {
    hide Raises, RepOk, Rep.Content, Live;
    var i :| 0 <= i < a.Frozen() && i < |a.sources| && a.sources[i] == ref.id;
    assert a.Source(i).id == ref.id;
  }

  lemma HandoverKeepsInv(s: State, step: Step)
    requires Inv(s) && step.Handover? && Enabled(s, step)
    ensures Inv(Next(s, step)) && forall k :: Value(Next(s, step), k) == Value(s, k)
  {
    hide LayoutsInv, LeadersInv, CallsInv, AttemptOk, Covers, Attempted, Departed, IsFrozen, Route, Rep.Content, RepOk, Raises;
    var s' := Next(s, step);
    var s1 := PutLayout(s, Edit(step.edited));
    LayoutChanges(s, Edit(step.edited));
    SameLayouts(s1, s');
    HandoverLeaders(s, step);
    CallsStay(s, Edit(step.edited));
    SameCalls(s1, s');
    forall ref, k | Needed(s', ref, k)
      ensures IsFrozen(s'.leaders[ref].rep.freezes, k, s'.now)
    {
      HandoverNeeded(s, step, ref, k);
    }
    forall n | n in s'.attempts
      ensures AttemptOk(s', s'.attempts[n])
    {
      HandoverAttempt(s, step, s.attempts[n]);
    }
    forall k
      ensures Value(s', k) == Value(s, k)
    {
      RouteStays(s, Edit(step.edited), s.sum(k));
    }
  }

  // ----- commits -----

  lemma CommitChanges(s: State, n: nat)
    requires LayoutsInv(s) && Enabled(s, Commit(n))
    ensures Changes(s, MarkDone(s.attempts[n].id)) && NextCount(s) > 0
    ensures Next(s, Commit(n)) == PutLayout(s, MarkDone(s.attempts[n].id))
  {
    assert LayoutKnown(s.counts, LayoutAt(s, |s.past|));
  }

  /** A freeze that is needed after a commit was held for the attempt, or needed, before it. */
  lemma CommitNeeded(s: State, n: nat, ref: Ref, k: string)
    requires LayoutsInv(s) && LeadersInv(s) && AttemptsInv(s) && Enabled(s, Commit(n)) && s.attempts[n].clean
    requires Needed(Next(s, Commit(n)), ref, k)
    ensures Needed(s, ref, k)
  {
    hide RouteGen, AttemptOk, RepOk, RouteEnabled, RouteNext, LayoutKnown, Formed, Sound, IsPending, Complete;
    CommitChanges(s, n);
    var a := s.attempts[n];
    var change := MarkDone(a.id);
    var s', h := PutLayout(s, change), s.sum(k);
    CoversStay(s, change, ref, k);
    assert LayoutKnown(s.counts, LayoutAt(s, |s.past|));
    assert LayoutAt(s', s'.leaders[ref].view) == LayoutAt(s, s.leaders[ref].view);
    ChangeGen(s.counts, s.current, change, h);
    if Attempted(s', ref, k) {
      var j :| j in s'.attempts && Freezes(s', s'.attempts[j], ref, k);
      AttemptStays(s, change, s.attempts[j]);
      assert Freezes(s, s.attempts[j], ref, k);
    } else {
      assert Called(s', ref, k) == Called(s, ref, k);
      RouteShape(s.counts, s.current, h);
      if RouteGen(s.current, h) <= ref.generation {
        MovedByCommit(s, n, ref, k);
      }
    }
  }

  /** The old owner of a key that the commit moves has frozen it for the attempt. */
  lemma MovedByCommit(s: State, n: nat, ref: Ref, k: string)
    requires LayoutsInv(s) && LeadersInv(s) && AttemptsInv(s) && Enabled(s, Commit(n)) && s.attempts[n].clean
    requires Covers(s, ref, k) && RouteGen(s.current, s.sum(k)) <= ref.generation < RouteGen(Next(s, Commit(n)).current, s.sum(k))
    ensures Attempted(s, ref, k)
  {
    hide RouteGen, RepOk, Filling, SourceOk, Rep.Content, Complete, SourcesOf, OwnKeys;
    CommitChanges(s, n);
    AttemptParts(s, n);
    var a, h := s.attempts[n], s.sum(k);
    assert LayoutKnown(s.counts, LayoutAt(s, |s.past|));
    ChangeGen(s.counts, s.current, MarkDone(a.id), h);
    RouteShape(s.counts, s.current, h);
    LiveCounts(s, a);
    CompleteExact(s, a, k);
    assert SourceRef(s, h % s.current.count) == ref;
    assert Freezes(s, a, ref, k);
  }

  lemma CommitKeepsInv(s: State, n: nat)
    requires Inv(s) && Enabled(s, Commit(n)) && s.attempts[n].clean
    ensures Inv(Next(s, Commit(n)))
  {
    hide LayoutsInv, LeadersInv, CallsInv, AttemptOk, Covers, Attempted, Departed, IsFrozen, RouteEnabled, RouteNext, Complete, Formed;
    CommitChanges(s, n);
    AttemptParts(s, n);
    var change := MarkDone(s.attempts[n].id);
    var s' := PutLayout(s, change);
    LayoutChanges(s, change);
    LeadersStay(s, change);
    CallsStay(s, change);
    forall ref, k | Needed(s', ref, k)
      ensures IsFrozen(s'.leaders[ref].rep.freezes, k, s'.now)
    {
      CommitNeeded(s, n, ref, k);
    }
    forall j | j in s'.attempts
      ensures AttemptOk(s', s'.attempts[j])
    {
      AttemptStays(s, change, s.attempts[j]);
    }
  }

  /** What a commit does to the value of a key: the keys of the target get what the target holds. */
  lemma CommitValue(s: State, n: nat, k: string)
    requires LayoutsInv(s) && AttemptsInv(s) && Enabled(s, Commit(n)) && s.attempts[n].Target() in s.leaders
    ensures Value(Next(s, Commit(n)), k) ==
      if AcceptOf(s, s.attempts[n])(k) then Lookup(s.leaders[s.attempts[n].Target()].rep.Content(), k) else Value(s, k)
    ensures AcceptOf(s, s.attempts[n])(k) ==>
      s.current.count > 0 && Route(Some(s.current), s.sum(k)) == Some(SourceRef(s, s.sum(k) % s.current.count))
  {
    hide AttemptOk, Complete, Rep.Content;
    CommitChanges(s, n);
    AttemptParts(s, n);
    var a := s.attempts[n];
    assert LayoutKnown(s.counts, LayoutAt(s, |s.past|));
    LiveCounts(s, a);
    RouteStepEffect(s.current, MarkDone(a.id), s.sum(k));
  }

  /** A commit changes no value, even though keys get a new owner. */
  lemma CommitKeepsValue(s: State, n: nat, k: string)
    requires Inv(s) && Enabled(s, Commit(n)) && s.attempts[n].clean
    ensures Value(Next(s, Commit(n)), k) == Value(s, k)
  {
    hide FreezesLast, RepOk, Complete, Rep.Content, IsFrozen, Filling, SourceOk, Route, LayoutsInv, LeadersInv, CallsInv, Formed;
    AttemptParts(s, n);
    CommitValue(s, n, k);
    if AcceptOf(s, s.attempts[n])(k) {
      CompleteExact(s, s.attempts[n], k);
    }
  }

  // ----- the result -----

  /** The client writes a step lets through. */
  ghost function AcceptedOps(s: State, step: Step): seq<Op> {
    if step.Write? && Accepts(s, step.ref, step.op) then [step.op] else []
  }

  /** A plain map that has, for every key, the value its owner has. */
  ghost predicate Represents(s: State, plain: Data) { forall k :: Value(s, k) == Lookup(plain, k) }

  lemma WriteKeepsInv(s: State, step: Step)
    requires Inv(s) && step.Write? && Enabled(s, step)
    ensures Inv(Next(s, step)) && !step.op.Checkpoint?
    ensures forall k :: (!Accepts(s, step.ref, step.op) || step.op.key != k) ==> Value(Next(s, step), k) == Value(s, k)
    ensures Accepts(s, step.ref, step.op) ==> Value(Next(s, step), step.op.key) == (if step.op.Set? then Some(step.op.value) else None)
  {
    hide Inv, Harmless, Accepts, Rep.ClientWrite, Route, IsFrozen, Rep.Content;
    var rep := s.leaders[step.ref].rep;
    WriteHarmless(s, step.ref, step.op, step.flush);
    var touched := if Accepts(s, step.ref, step.op) then Some(step.op.key) else None;
    PutRepKeepsInv(s, step.ref, rep.ClientWrite(step.op, step.flush, s.now), touched);
  }

  lemma StepKeepsInv(s: State, step: Step)
    requires Inv(s) && Enabled(s, step) && Assumed(s, step)
    ensures Inv(Next(s, step))
    ensures !step.Write? ==> forall k :: Value(Next(s, step), k) == Value(s, k)
  {
    hide Inv, Enabled, Value, Rep.Content, RepOk, Harmless, FreezesLast;
    match step
    case Admit(_, _) => AdmitKeepsInv(s, step);
    case Write(_, _, _) => WriteKeepsInv(s, step);
    case Answer(_, _) => AnswerKeepsInv(s, step);
    case LogCheckpoint(_) => TouchKeepsInv(s, step);
    case Seal(_, _) => TouchKeepsInv(s, step);
    case Observe(_, _) => ObserveKeepsInv(s, step);
    case Tick(_) => TickKeepsInv(s, step);
    case Join(_, _, _, _) => JoinKeepsInv(s, step);
    case Drop(_) => DropKeepsInv(s, step);
    case Handover(_, _, _) => HandoverKeepsInv(s, step);
    case Begin(_, _, _, _, _, _) => BeginKeepsInv(s, step);
    case Copy(_, _, _) => CopyKeepsInv(s, step);
    case Sweep(_, _) => SweepKeepsInv(s, step);
    case CatchUpLogs(_, _, _, _) => CatchUpLogsKeepsInv(s, step);
    case FreezeOnly(_, _) => FreezeOnlyKeepsInv(s, step);
    case CatchUpSnapshot(_, _, _) => CatchUpSnapshotKeepsInv(s, step);
    case Import(_, _, _) => ImportKeepsInv(s, step);
    case Abort(_) => AbortKeepsInv(s, step);
    case Commit(n) => CommitStepKeepsInv(s, n);
    case Publish(change) => PublishStepKeepsInv(s, change);
  }

  lemma CommitStepKeepsInv(s: State, n: nat)
    requires Inv(s) && Enabled(s, Commit(n)) && Assumed(s, Commit(n))
    ensures Inv(Next(s, Commit(n))) && forall k :: Value(Next(s, Commit(n)), k) == Value(s, k)
  {
    hide Inv, Value, Next, Complete, IsPending;
    CommitKeepsInv(s, n);
    forall k
      ensures Value(Next(s, Commit(n)), k) == Value(s, k)
    {
      CommitKeepsValue(s, n, k);
    }
  }

  lemma PublishStepKeepsInv(s: State, change: RouteStep)
    requires Inv(s) && Enabled(s, Publish(change))
    ensures Inv(Next(s, Publish(change))) && forall k :: Value(Next(s, Publish(change)), k) == Value(s, k)
  {
    hide Inv, Value;
    PublishKeepsInv(s, change);
  }

  lemma TouchKeepsInv(s: State, step: Step)
    requires Inv(s) && (step.LogCheckpoint? || step.Seal?) && Enabled(s, step)
    ensures Inv(Next(s, step)) && forall k :: Value(Next(s, step), k) == Value(s, k)
  {
    hide Inv, Value, Rep.Content;
    InvParts(s);
    var rep := s.leaders[step.ref].rep;
    if step.Seal? {
      assert RepOk(s, step.ref, rep.(sealed := step.on));
      assert Harmless(s, step.ref, rep.(sealed := step.on), None);
      PutRepKeepsInv(s, step.ref, rep.(sealed := step.on), None);
    } else {
      CheckpointHarmless(s, step.ref);
      PutRepKeepsInv(s, step.ref, rep.Log(Checkpoint), None);
    }
  }

  /** One step of the whole system is, for the plain map, the accepted write or nothing. */
  lemma StepRefines(s: State, step: Step, plain: Data)
    requires Inv(s) && Enabled(s, step) && Assumed(s, step) && Represents(s, plain)
    ensures Represents(Next(s, step), Replay(plain, AcceptedOps(s, step)))
  {
    hide Inv, Enabled, Next, Value, Accepts, Assumed;
    StepKeepsInv(s, step);
    ReplayNone(plain);
    if step.Write? {
      WriteKeepsInv(s, step);
      ReplayOne(plain, [], step.op);
      assert [] + [step.op] == [step.op];
      var plain' := Replay(plain, AcceptedOps(s, step));
      forall k
        ensures Value(Next(s, step), k) == Lookup(plain', k)
      {
        assert Value(s, k) == Lookup(plain, k);
        if Accepts(s, step.ref, step.op) && k != step.op.key {
          ApplyOpOther(plain, step.op, k);
        }
      }
    }
  }

  ghost predicate Run(s: State, steps: seq<Step>, s': State)
    decreases |steps|
  {
    if steps == [] then s == s' else Enabled(s, steps[0]) && Run(Next(s, steps[0]), steps[1..], s')
  }

  /** The assumptions hold at every step. */
  ghost predicate Undisturbed(s: State, steps: seq<Step>)
    decreases |steps|
  {
    steps == [] || !Enabled(s, steps[0]) || (Assumed(s, steps[0]) && Undisturbed(Next(s, steps[0]), steps[1..]))
  }

  ghost function AcceptedIn(s: State, steps: seq<Step>): seq<Op>
    decreases |steps|
  {
    if steps == [] || !Enabled(s, steps[0]) then []
    else AcceptedOps(s, steps[0]) + AcceptedIn(Next(s, steps[0]), steps[1..])
  }

  /** A run from any state that keeps the invariant refines the plain map. */
  lemma {:induction false} RunRefines(s: State, steps: seq<Step>, s': State, plain: Data)
    requires Inv(s) && Represents(s, plain) && Run(s, steps, s') && Undisturbed(s, steps)
    ensures Inv(s') && Represents(s', Replay(plain, AcceptedIn(s, steps)))
    decreases |steps|
  {
    hide Inv, Enabled, Next, Represents, Replay, AcceptedOps, Assumed;
    if steps == [] {
      ReplayNone(plain);
    } else {
      var ops := AcceptedOps(s, steps[0]);
      StepKeepsInv(s, steps[0]);
      StepRefines(s, steps[0], plain);
      RunRefines(Next(s, steps[0]), steps[1..], s', Replay(plain, ops));
      ReplayConcat(plain, ops, AcceptedIn(Next(s, steps[0]), steps[1..]));
    }
  }

  /** A system at rest: one generation, every node up to date, nothing frozen, no request under way. */
  ghost predicate AtRest(s: State) {
    && s.past == [] && s.current.resharding.None? && s.attempts == map[] && s.calls == {}
    && Routable(s.current) && s.counts == map[s.current.generation := s.current.count]
    && (forall ref :: ref in s.leaders <==> ref.generation == s.current.generation && 0 <= ref.id < s.current.count)
    && forall ref :: ref in s.leaders ==>
         && s.leaders[ref].view == 0 && s.leaders[ref].rep.freezes == []
         && RepOk(s, ref, s.leaders[ref].rep)
  }

  lemma RestIsGood(s: State)
    requires AtRest(s)
    ensures Inv(s)
    ensures (forall ref :: ref in s.leaders ==> s.leaders[ref].rep.Content() == map[]) ==> Represents(s, map[])
  {
    hide RepOk;
    assert LayoutsInv(s);
  }

  /**
   * Any number of reshardings, with their pulls, retries and commits, interleaved in any way with
   * client writes at nodes with old layouts, behaves as one plain map to which the accepted
   * client writes are applied in order, as long as needed freezes last and no pull imports into a
   * partition that has taken over or under the hands of the pull that is committed.
   */
  lemma ReshardingRefinesMap(s: State, steps: seq<Step>, s': State, plain: Data)
    requires AtRest(s) && Represents(s, plain) && Run(s, steps, s') && Undisturbed(s, steps)
    ensures Represents(s', Replay(plain, AcceptedIn(s, steps)))
  {
    hide Inv, AtRest, Represents, Replay, Run, AcceptedIn, Undisturbed;
    RestIsGood(s);
    RunRefines(s, steps, s', plain);
  }
}

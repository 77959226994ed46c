/**
 * Where the assumptions of Reshard come from: when needed freezes expire, or a pull imports where it
 * must not, accepted writes are lost. Each is shown for all states, and by a run from rest.
 */
module ReshardLimits {
  import opened Ops
  import opened Hash
  import opened Replica
  import opened Partitions
  import opened Migration
  import opened Layouts
  import opened Reshard

  // ----- imports -----

  ghost function ContentOf(s: State, ref: Ref): Data {
    if ref in s.leaders then s.leaders[ref].rep.Content() else map[]
  }

  /** The part of the batch that is imported leaves the answers for the given keys alone. */
  ghost predicate NoEffect(s: State, a: Attempt, m: nat, keys: string -> bool)
    requires m <= |a.todo|
  {
    var content := ContentOf(s, a.Target());
    forall k :: keys(k) ==> Lookup(Replay(content, a.todo[..m]), k) == Lookup(content, k)
  }

  /** What an import does to the value of a key, whoever makes it. */
  lemma ImportValue(s: State, n: nat, m: nat, flushes: seq<bool>, k: string)
    requires Enabled(s, Import(n, m, flushes))
    ensures var a := s.attempts[n];
      Value(Next(s, Import(n, m, flushes)), k) ==
        if Route(Some(s.current), s.sum(k)) == Some(a.Target())
        then Lookup(Replay(ContentOf(s, a.Target()), a.todo[..m]), k) else Value(s, k)
  {
    hide Route, Rep.WriteAll, Rep.Content, Replay;
    var a := s.attempts[n];
    Partition.WriteAllContent(s.leaders[a.Target()].rep, a.todo[..m], flushes);
  }

  function OwnedBy(s: State, ref: Ref): string -> bool { k => Route(Some(s.current), s.sum(k)) == Some(ref) }

  /** An import changes no value exactly if it has no effect on the keys its target owns by now. */
  lemma ImportExact(s: State, n: nat, m: nat, flushes: seq<bool>)
    requires Enabled(s, Import(n, m, flushes))
    ensures (forall k :: Value(Next(s, Import(n, m, flushes)), k) == Value(s, k)) <==>
      NoEffect(s, s.attempts[n], m, OwnedBy(s, s.attempts[n].Target()))
  {
    hide Route, Next, Rep.Content, Replay;
    var a, s' := s.attempts[n], Next(s, Import(n, m, flushes));
    forall k
      ensures Value(s', k) == if OwnedBy(s, a.Target())(k) then Lookup(Replay(ContentOf(s, a.Target()), a.todo[..m]), k) else Value(s, k)
      ensures OwnedBy(s, a.Target())(k) ==> Value(s, k) == Lookup(ContentOf(s, a.Target()), k)
    {
      ImportValue(s, n, m, flushes, k);
    }
    if forall k :: Value(s', k) == Value(s, k) {
      forall k | OwnedBy(s, a.Target())(k)
        ensures Lookup(Replay(ContentOf(s, a.Target()), a.todo[..m]), k) == Lookup(ContentOf(s, a.Target()), k)
      {
        assert Value(s', k) == Value(s, k);
      }
    }
  }

  /**
   * If another pull imports between the end of a pull and its commit, the two together change no
   * value exactly if the import has no effect on the keys of the target.
   */
  lemma DisturbedCommitExact(s: State, n: nat, j: nat, m: nat, flushes: seq<bool>)
    requires n in s.attempts && j in s.attempts && j != n && m <= |s.attempts[j].todo| && s.attempts[j].Target() == s.attempts[n].Target()
    requires Inv(s) && Live(s, s.attempts[n]) && Enabled(s, Commit(n)) && Enabled(s, Import(j, m, flushes))
    ensures Enabled(Do(s, Import(j, m, flushes)), Commit(n))
    ensures (forall k :: Value(Do(Do(s, Import(j, m, flushes)), Commit(n)), k) == Value(s, k)) <==>
      NoEffect(s, s.attempts[j], m, AcceptOf(s, s.attempts[n]))
  {
    hide Inv, Route, Rep.Content, Replay, Rep.WriteAll, Value, Complete, IsPending, SameEpochs, Next;
    var s' := Do(s, Import(j, m, flushes));
    DisturbedCommitEnabled(s, n, j, m, flushes);
    var s'' := Do(s', Commit(n));
    var a, b := s.attempts[n], s.attempts[j];
    forall k
      ensures Value(s'', k) == if AcceptOf(s, a)(k) then Lookup(Replay(ContentOf(s, b.Target()), b.todo[..m]), k) else Value(s, k)
      ensures AcceptOf(s, a)(k) ==> Value(s, k) == Lookup(ContentOf(s, a.Target()), k)
    {
      DisturbedCommitValue(s, s', n, j, m, flushes, k);
    }
    if forall k :: Value(s'', k) == Value(s, k) {
      forall k | AcceptOf(s, a)(k)
        ensures Lookup(Replay(ContentOf(s, b.Target()), b.todo[..m]), k) == Lookup(ContentOf(s, b.Target()), k)
      {
        assert Value(s'', k) == Value(s, k);
      }
    }
  }

  lemma DisturbedCommitEnabled(s: State, n: nat, j: nat, m: nat, flushes: seq<bool>)
    requires Enabled(s, Commit(n)) && j != n && Enabled(s, Import(j, m, flushes))
    ensures var s' := Do(s, Import(j, m, flushes));
      && Enabled(s', Commit(n)) && s' == Next(s, Import(j, m, flushes))
      && (s'.attempts[n] == s.attempts[n] || s'.attempts[n] == s.attempts[n].(clean := false))
  {
    hide Rep.WriteAll;
  }

  lemma DisturbedCommitValue(s: State, s': State, n: nat, j: nat, m: nat, flushes: seq<bool>, k: string)
    requires n in s.attempts && j in s.attempts && j != n && m <= |s.attempts[j].todo| && s.attempts[j].Target() == s.attempts[n].Target()
    requires Inv(s) && Live(s, s.attempts[n]) && Enabled(s, Commit(n)) && Enabled(s, Import(j, m, flushes))
    requires s' == Next(s, Import(j, m, flushes)) && Enabled(s', Commit(n))
    ensures var b := s.attempts[j];
      Value(Do(s', Commit(n)), k) ==
        if AcceptOf(s, s.attempts[n])(k) then Lookup(Replay(ContentOf(s, b.Target()), b.todo[..m]), k) else Value(s, k)
    ensures AcceptOf(s, s.attempts[n])(k) ==> Value(s, k) == Lookup(ContentOf(s, s.attempts[n].Target()), k)
  {
    hide LayoutsInv, LeadersInv, CallsInv, FreezesLast, Formed, Sound, Route, Rep.Content, Replay, Rep.WriteAll, Complete, IsPending;
    var a := s.attempts[n];
    AttemptParts(s, n);
    TargetSources(s, a, k);
    ImportValue(s, j, m, flushes, k);
    Partition.WriteAllContent(s.leaders[a.Target()].rep, s.attempts[j].todo[..m], flushes);
    CommitValueAny(s', s, n, k);
    if AcceptOf(s, a)(k) {
      CommitValueAny(s, s, n, k);
      CommitKeepsValue(s, n, k);
    }
  }

  /** A pending target does not own the keys it is to get. */
  lemma TargetSources(s: State, a: Attempt, k: string)
    requires LayoutsInv(s) && IsPending(s, a.generation, a.id)
    ensures Route(Some(s.current), s.sum(k)) != Some(a.Target())
  {
    PendingOwnsNothing(s, a.generation, a.id, s.sum(k));
  }

  /** What a commit does to a value, from the layouts alone; s0 is the state the layouts are known from. */
  lemma CommitValueAny(s: State, s0: State, n: nat, k: string)
    requires LayoutsInv(s0) && s.sum == s0.sum && s.current == s0.current && s.counts == s0.counts && s.past == s0.past
    requires n in s0.attempts && Formed(s0, s0.attempts[n])
    requires Enabled(s, Commit(n)) && s.attempts[n].Target() in s.leaders
    requires s.attempts[n] == s0.attempts[n] || s.attempts[n] == s0.attempts[n].(clean := false)
    ensures Value(Next(s, Commit(n)), k) ==
      if AcceptOf(s, s.attempts[n])(k) then Lookup(s.leaders[s.attempts[n].Target()].rep.Content(), k) else Value(s, k)
  {
    hide Complete, Rep.Content, SourcesOf, OwnKeys;
    SameLayouts(s0, s);
    CommitChanges(s, n);
    var a := s.attempts[n];
    assert LayoutKnown(s.counts, LayoutAt(s, |s.past|));
    LiveCounts(s0, s0.attempts[n]);
    RouteStepEffect(s.current, MarkDone(a.id), s.sum(k));
  }

  // ----- freezes -----

  /** The leader would take a write of k if nothing froze it. */
  predicate Open(s: State, ref: Ref) { ref in s.leaders && s.leaders[ref].rep.role == Leader && !s.leaders[ref].rep.sealed }

  /** Time passes, a client request comes in and is carried out. */
  function LateWrite(ref: Ref, k: string, v: string, later: int): (steps: seq<Step>)
    ensures |steps| == 3
  {
    [Tick(later), Admit(ref, Set(k, v)), Step.Write(ref, Set(k, v), false)]
  }

  ghost function AfterLateWrite(s: State, ref: Ref, k: string, v: string, later: int): State
    requires Addressed(s, ref, Set(k, v))
  {
    var admitted := s.(now := later, calls := s.calls + {Call(ref, Set(k, v))});
    PutRep(admitted, ref, s.leaders[ref].rep.ClientWrite(Set(k, v), false, later))
  }

  /** Once the freeze has expired such a write is accepted. */
  lemma LateWriteRuns(s: State, ref: Ref, k: string, v: string, later: int)
    requires Addressed(s, ref, Set(k, v)) && Open(s, ref) && s.now <= later && !IsFrozen(s.leaders[ref].rep.freezes, k, later)
    ensures Run(s, LateWrite(ref, k, v, later), AfterLateWrite(s, ref, k, v, later))
    ensures AcceptedIn(s, LateWrite(ref, k, v, later)) == [Set(k, v)]
    ensures AfterLateWrite(s, ref, k, v, later).leaders[ref].rep.Content() == s.leaders[ref].rep.Content()[k := v]
  {
    hide IsFrozen, Route, Rep.Content, Unexpired;
    var op, steps := Set(k, v), LateWrite(ref, k, v, later);
    var s1 := Next(s, Tick(later));
    assert Addressed(s1, ref, op) by { assert LayoutAt(s1, s.leaders[ref].view) == LayoutAt(s, s.leaders[ref].view); }
    var s2 := Next(s1, Admit(ref, op));
    assert Accepts(s2, ref, op);
    var s3 := Next(s2, Step.Write(ref, op, false));
    assert s3 == AfterLateWrite(s, ref, k, v, later);
    assert steps[1..] == [Admit(ref, op), Step.Write(ref, op, false)] && steps[1..][1..] == [Step.Write(ref, op, false)];
    assert steps[1..][1..][1..] == [];
    assert Run(s3, [], s3) && AcceptedIn(s3, []) == [];
    RunCons(s2, Step.Write(ref, op, false), [], s3);
    RunCons(s1, Admit(ref, op), [Step.Write(ref, op, false)], s3);
    RunCons(s, Tick(later), steps[1..], s3);
    assert [Tick(later)] + steps[1..] == steps && [Admit(ref, op)] + [Step.Write(ref, op, false)] == steps[1..];
    LateContent(s.leaders[ref].rep, k, v, later);
  }

  lemma LateContent(r: Rep, k: string, v: string, later: int)
    requires r.role == Leader && !r.sealed && !IsFrozen(r.freezes, k, later)
    ensures r.ClientWrite(Set(k, v), false, later).Content() == r.Content()[k := v]
  {
    hide IsFrozen, Unexpired;
    ReplayOne(r.base, r.ops, Set(k, v));
  }

  lemma RunCons(s: State, step: Step, steps: seq<Step>, s': State)
    requires Enabled(s, step) && Run(Next(s, step), steps, s')
    ensures Run(s, [step] + steps, s')
    ensures AcceptedIn(s, [step] + steps) == AcceptedOps(s, step) + AcceptedIn(Next(s, step), steps)
  {
    hide Enabled, Next, AcceptedOps;
    assert ([step] + steps)[0] == step && ([step] + steps)[1..] == steps;
  }

  /**
   * The first half of FreezesLast is needed as it is: whenever a completed pull has frozen k at a
   * leader that is open and to which its node routes k, and the freeze has expired, that leader
   * accepts a write of any new value, which the commit then undoes.
   */
  lemma ExpiredFreezeLosesWrite(s: State, n: nat, ref: Ref, k: string, v: string, later: int)
    requires Inv(s) && Enabled(s, Commit(n)) && Freezes(s, s.attempts[n], ref, k) && Covers(s, ref, k)
    requires Open(s, ref) && Addressed(s, ref, Set(k, v)) && s.now <= later && !IsFrozen(s.leaders[ref].rep.freezes, k, later)
    requires Value(s, k) != Some(v)
    ensures !FreezesLast(s, later)
    ensures Run(s, LateWrite(ref, k, v, later), AfterLateWrite(s, ref, k, v, later))
    ensures AcceptedIn(s, LateWrite(ref, k, v, later)) == [Set(k, v)]
    ensures var s' := AfterLateWrite(s, ref, k, v, later);
      Value(s', k) == Some(v) && Enabled(s', Commit(n)) && Value(Next(s', Commit(n)), k) == Value(s, k) != Some(v)
  {
    hide LayoutsInv, LeadersInv, CallsInv, IsFrozen, Formed, Sound, Rep.Content, Route, Complete, Rep.ClientWrite;
    var s' := AfterLateWrite(s, ref, k, v, later);
    assert Attempted(s, ref, k);
    assert Needed(s, ref, k);
    LateWriteRuns(s, ref, k, v, later);
    AttemptParts(s, n);
    ExpiredRoute(s, n, ref, k);
    CommitKeepsValue(s, n, k);
    CommitValueAny(s, s, n, k);
    ExpiredCommit(s, n, ref, k, v, later);
    CommitValueAny(s', s, n, k);
  }

  lemma ExpiredRoute(s: State, n: nat, ref: Ref, k: string)
    requires LayoutsInv(s) && n in s.attempts && Freezes(s, s.attempts[n], ref, k) && Covers(s, ref, k) && Formed(s, s.attempts[n])
    ensures Route(Some(s.current), s.sum(k)) == Some(ref)
  {
    hide SourcesOf, OwnKeys;
    assert LayoutKnown(s.counts, LayoutAt(s, |s.past|));
    LiveCounts(s, s.attempts[n]);
  }

  lemma ExpiredCommit(s: State, n: nat, ref: Ref, k: string, v: string, later: int)
    requires Enabled(s, Commit(n)) && Addressed(s, ref, Set(k, v)) && s.attempts[n].generation != ref.generation && s.attempts[n].Target() in s.leaders
    ensures var s' := AfterLateWrite(s, ref, k, v, later);
      && Enabled(s', Commit(n)) && s'.leaders.Keys == s.leaders.Keys
      && s'.leaders[s.attempts[n].Target()] == s.leaders[s.attempts[n].Target()]
  {}

  /**
   * So is the second half: once k has moved on, an open leader that still accepts a write of it,
   * because its node has not seen the move or admitted the request before, accepts it for nothing.
   */
  lemma StaleWriteIsLost(s: State, ref: Ref, k: string, v: string, later: int)
    requires LayoutsInv(s) && Open(s, ref) && ref.generation < RouteGen(s.current, s.sum(k))
    requires Addressed(s, ref, Set(k, v)) && s.now <= later && !IsFrozen(s.leaders[ref].rep.freezes, k, later)
    ensures !FreezesLast(s, later)
    ensures Run(s, LateWrite(ref, k, v, later), AfterLateWrite(s, ref, k, v, later))
    ensures AcceptedIn(s, LateWrite(ref, k, v, later)) == [Set(k, v)]
    ensures Value(AfterLateWrite(s, ref, k, v, later), k) == Value(s, k)
  {
    hide IsFrozen, Rep.Content, Rep.ClientWrite, Route, RouteGen, LayoutKnown, Covers;
    LateWriteRuns(s, ref, k, v, later);
    assert LayoutKnown(s.counts, LayoutAt(s, |s.past|));
    RouteShape(s.counts, s.current, s.sum(k));
    RouteShape(s.counts, LayoutAt(s, s.leaders[ref].view), s.sum(k));
    AddressedCovers(s, ref, Set(k, v));
    assert Needed(s, ref, k);
  }

  /** The same for a request that was admitted while the key still lived there. */
  lemma AdmittedWriteIsLost(s: State, ref: Ref, k: string, v: string, later: int)
    requires LayoutsInv(s) && CallsInv(s) && Open(s, ref) && ref.generation < RouteGen(s.current, s.sum(k))
    requires Call(ref, Set(k, v)) in s.calls && s.now <= later && !IsFrozen(s.leaders[ref].rep.freezes, k, later)
    ensures !FreezesLast(s, later)
    ensures var s1 := s.(now := later); var write := Step.Write(ref, Set(k, v), false);
      && Enabled(s, Tick(later)) && Next(s, Tick(later)) == s1
      && Enabled(s1, write) && AcceptedOps(s1, write) == [Set(k, v)] && Value(Next(s1, write), k) == Value(s, k)
  {
    hide IsFrozen, Rep.Content, Rep.ClientWrite, Route, RouteGen, LayoutKnown;
    assert LayoutKnown(s.counts, LayoutAt(s, |s.past|));
    RouteShape(s.counts, s.current, s.sum(k));
    assert CallOk(s, Call(ref, Set(k, v)));
    assert Called(s, ref, k) by { assert Call(ref, Set(k, v)).op.key == k; }
    assert Needed(s, ref, k);
  }

  // ----- leaders that hand over -----

  /** A new leader, however gracefully it took over, has nothing frozen and accepts any value at once. */
  lemma HandoverThaws(s: State, n: nat, ref: Ref, rep: Rep, edited: Layout, k: string, v: string)
    requires Inv(s) && Enabled(s, Commit(n)) && Freezes(s, s.attempts[n], ref, k) && Covers(s, ref, k)
    requires Enabled(s, Handover(ref, rep, edited)) && !rep.sealed
    ensures var s1 := Do(s, Handover(ref, rep, edited));
      && !Enabled(s1, Commit(n)) && Addressed(s1, ref, Set(k, v))
      && Run(s1, LateWrite(ref, k, v, s1.now), AfterLateWrite(s1, ref, k, v, s1.now)) && AcceptedIn(s1, LateWrite(ref, k, v, s1.now)) == [Set(k, v)]
      && Value(AfterLateWrite(s1, ref, k, v, s1.now), k) == Some(v)
  {
    hide LayoutsInv, LeadersInv, CallsInv, FreezesLast, Formed, Sound, Rep.Content, Complete, Raises, RepOk, Rep.ClientWrite, Route, SameEpochs;
    var a, s1 := s.attempts[n], Next(s, Handover(ref, rep, edited));
    AttemptParts(s, n);
    HandoverAttempt(s, Handover(ref, rep, edited), a);
    HandoverDisturbs(s, n, ref, rep, edited, k);
    ExpiredRoute(s, n, ref, k);
    RouteStays(s, Edit(edited), s.sum(k));
    assert LayoutAt(s1, s1.leaders[ref].view) == s1.current;
    LeaderRole(s, ref, rep);
    LateWriteRuns(s1, ref, k, v, s1.now);
  }

  /**
   * Why a commit compares epochs: when a source of a completed pull gets a new leader, the value it
   * accepts next would be undone by marking the target done; the commit is refused.
   */
  lemma HandoverRefusesCommit(s: State, n: nat, ref: Ref, rep: Rep, edited: Layout, k: string, v: string)
    requires Inv(s) && Enabled(s, Commit(n)) && Freezes(s, s.attempts[n], ref, k) && Covers(s, ref, k)
    requires Enabled(s, Handover(ref, rep, edited)) && !rep.sealed && Value(s, k) != Some(v)
    ensures var s1 := Do(s, Handover(ref, rep, edited));
      && !Enabled(s1, Commit(n)) && Addressed(s1, ref, Set(k, v))
      && AcceptedIn(s1, LateWrite(ref, k, v, s1.now)) == [Set(k, v)]
      && var s2 := AfterLateWrite(s1, ref, k, v, s1.now);
         Value(s2, k) == Some(v) && RouteEnabled(s2.current, MarkDone(s.attempts[n].id)) && Value(PutLayout(s2, MarkDone(s.attempts[n].id)), k) == Value(s, k)
  {
    hide LayoutsInv, LeadersInv, CallsInv, FreezesLast, Sound, Rep.Content, Complete, Raises, RepOk, Rep.ClientWrite, Route, SameEpochs, SourcesOf, OwnKeys, Progress, NotAhead, Value, RouteEnabled;
    var a, s1 := s.attempts[n], Next(s, Handover(ref, rep, edited));
    HandoverThaws(s, n, ref, rep, edited, k, v);
    AttemptParts(s, n);
    HandoverAttempt(s, Handover(ref, rep, edited), a);
    HandoverDisturbs(s, n, ref, rep, edited, k);
    CommitKeepsValue(s, n, k);
    CommitValueAny(s, s, n, k);
    HandoverLayouts(s, ref, rep, edited);
    MarkedDone(s1, AfterLateWrite(s1, ref, k, v, s1.now), a, k);
  }

  lemma HandoverLayouts(s: State, ref: Ref, rep: Rep, edited: Layout)
    requires LayoutsInv(s) && Enabled(s, Handover(ref, rep, edited))
    ensures LayoutsInv(Next(s, Handover(ref, rep, edited)))
  {
    hide RepOk, Raises, Rep.Content, LayoutsInv;
    LayoutChanges(s, Edit(edited));
    SameLayouts(PutLayout(s, Edit(edited)), Next(s, Handover(ref, rep, edited)));
  }

  lemma LeaderRole(s: State, ref: Ref, r: Rep)
    requires RepOk(s, ref, r)
    ensures r.role == Leader
  {}

  lemma HandoverDisturbs(s: State, n: nat, ref: Ref, rep: Rep, edited: Layout, k: string)
    requires n in s.attempts && Freezes(s, s.attempts[n], ref, k) && Enabled(s, Handover(ref, rep, edited)) && Sound(s, s.attempts[n])
    requires var a, s1 := s.attempts[n], Next(s, Handover(ref, rep, edited));
      Live(s1, a) ==> forall i :: 0 <= i < |a.sources| ==> a.Source(i) != ref
    ensures var a, s1 := s.attempts[n], Next(s, Handover(ref, rep, edited));
      && !Enabled(s1, Commit(n)) && a.Target() != ref && a.Target() in s1.leaders && s1.leaders[a.Target()] == s.leaders[a.Target()]
      && IsPending(s1, a.generation, a.id) && !IsFrozen(s1.leaders[ref].rep.freezes, k, s1.now)
  {
    hide Complete, Raises, RepOk, Rep.Content, Filling, SourceOk;
    var a := s.attempts[n];
    var i :| 0 <= i < a.Frozen() && i < |a.sources| && a.sources[i] == ref.id;
    assert a.Source(i) == ref;
  }

  lemma MarkedDone(s: State, s': State, a: Attempt, k: string)
    requires LayoutsInv(s) && IsPending(s, a.generation, a.id) && AcceptOf(s, a)(k) && a.generation in s.counts && s.counts[a.generation] == a.count
    requires s'.sum == s.sum && s'.current == s.current && a.Target() in s'.leaders
    ensures RouteEnabled(s'.current, MarkDone(a.id))
    ensures Value(PutLayout(s', MarkDone(a.id)), k) == Lookup(s'.leaders[a.Target()].rep.Content(), k)
  {
    hide Rep.Content;
    assert LayoutKnown(s.counts, LayoutAt(s, |s.past|));
    RouteStepEffect(s.current, MarkDone(a.id), s.sum(k));
  }

  // ----- a run from rest -----

  const SUM: string -> nat := _ => 0
  const OLD := Ref(1, 0)
  const NEW := Ref(2, 0)
  const FIRST: Op := Set("k", "1")
  const SECOND: Op := Set("k", "2")
  const ONE: Data := map["k" := "1"]
  const TWO: Data := map["k" := "2"]

  function SomePart(id: int): Part { Part(id, 1, "n", [], [], [], Active, "", 0, 0, false) }

  const REST_LAYOUT := Layout(1, 1, 1, [SomePart(0)], None, map[])
  const NEXT := Resharding(2, 2, [SomePart(0), SomePart(1)], [Pending, Pending])

  function Led(ops: seq<Op>, freezes: seq<Freeze>): Rep { Fresh(10).LeadFresh(1).(ops := ops, freezes := freezes) }

  /** What the state looks like along the run: before or after the start, both leaders, calls and the two pulls. */
  ghost predicate Looks(s: State, started: bool, src: seq<Op>, freezes: seq<Freeze>, tgt: Option<seq<Op>>, calls: set<Call>,
                        a: Option<Attempt>, b: Option<Attempt>)
  {
    && s.sum == SUM && s.now == 0 && s.calls == calls
    && (if started
        then s.past == [REST_LAYOUT] && s.current == REST_LAYOUT.(resharding := Some(NEXT)) && s.counts == map[1 := 1, 2 := 2]
        else s.past == [] && s.current == REST_LAYOUT && s.counts == map[1 := 1])
    && (forall r :: r in s.leaders <==> r == OLD || (r == NEW && tgt.Some?))
    && s.leaders[OLD] == Lead(Led(src, freezes), 0)
    && (tgt.Some? ==> s.leaders[NEW] == Lead(Led(tgt.value, []), 1))
    && (forall n :: n in s.attempts <==> (n == 0 && a.Some?) || (n == 1 && b.Some?))
    && (a.Some? ==> s.attempts[0] == a.value) && (b.Some? ==> s.attempts[1] == b.value)
  }

  const BEGUN := Attempt(2, 0, 2, 1, [1], true, true, map[], [0], [], false, false, [], [])
  const STRAY := BEGUN.(firsts := [Full(1, 2, ONE)], todo := [FIRST])
  const COPIED := BEGUN.(firsts := [Full(1, 4, TWO)], todo := [SECOND])
  const SWEPT := COPIED.(todo := [], swept := true)
  const COMPLETE := SWEPT.(seconds := [Logs(1, 4, [])])
  const FREEZES := [Freeze(Tag(2, 0), Accept(SUM, 2, 0), 5)]

  /** One step, taken under the assumptions. */
  ghost predicate Takes(s: State, step: Step) { Enabled(s, step) && Assumed(s, step) }

  lemma Contents()
    ensures Replay(map[], [FIRST]) == ONE && Replay(map[], [FIRST, Checkpoint, SECOND]) == TWO
    ensures Replay(map[], [Checkpoint]) == map[] && Replay(map[], []) == map[]
    ensures Replay(map[], [Checkpoint, Checkpoint, SECOND]) == TWO
  {
    hide Replay;
    ReplayNone(map[]);
    ReplayThree(FIRST, Checkpoint, SECOND);
    ReplayThree(Checkpoint, Checkpoint, SECOND);
  }

  lemma ReplayThree(a: Op, b: Op, c: Op)
    ensures Replay(map[], [a]) == ApplyOp(map[], a)
    ensures Replay(map[], [a, b, c]) == ApplyOp(ApplyOp(ApplyOp(map[], a), b), c)
  {
    hide Replay, ApplyOp;
    ReplayNone(map[]);
    ReplayOne(map[], [], a);
    ReplayOne(map[], [a], b);
    ReplayOne(map[], [a, b], c);
    assert [] + [a] == [a] && [a] + [b] == [a, b] && [a, b] + [c] == [a, b, c];
  }

  lemma AllRestrict(m: Data)
    ensures Restrict(m, Accept(SUM, 2, 0)) == m
  {}

  lemma OldSources()
    ensures SourcesOf([0], 0, 1, 2)
  {
    assert HashesTo(0, 1, 0) && HashesTo(0, 2, 0);
    assert Meet(0, 0, 1, 2);
  }

  /** A client writes through the old leader, whose node works with the first layout. */
  lemma ClientSteps(s: State, started: bool, src: seq<Op>, tgt: Option<seq<Op>>, a: Option<Attempt>, op: Op) returns (s': State)
    requires Looks(s, started, src, [], tgt, {}, a, None) && !op.Checkpoint? && |src| < 5
    ensures Run(s, [Admit(OLD, op), Step.Write(OLD, op, false), Answer(OLD, op)], s')
    ensures Undisturbed(s, [Admit(OLD, op), Step.Write(OLD, op, false), Answer(OLD, op)])
    ensures Looks(s', started, src + [op], [], tgt, {}, a, None)
  {
    hide Looks, Route;
    var s1 := AdmitLooks(s, started, src, tgt, a, op);
    var s2 := WriteLooks(s1, started, src, tgt, a, op);
    s' := AnswerLooks(s2, started, src + [op], tgt, a, op);
    assert Run(s', [], s') && Undisturbed(s', []);
    GoodCons(s2, Answer(OLD, op), [], s');
    assert [Answer(OLD, op)] + [] == [Answer(OLD, op)];
    GoodCons(s1, Step.Write(OLD, op, false), [Answer(OLD, op)], s');
    assert [Step.Write(OLD, op, false)] + [Answer(OLD, op)] == [Step.Write(OLD, op, false), Answer(OLD, op)];
    GoodCons(s, Admit(OLD, op), [Step.Write(OLD, op, false), Answer(OLD, op)], s');
    assert [Admit(OLD, op)] + [Step.Write(OLD, op, false), Answer(OLD, op)] == [Admit(OLD, op), Step.Write(OLD, op, false), Answer(OLD, op)];
  }

  lemma GoodCons(s: State, step: Step, steps: seq<Step>, s': State)
    requires Takes(s, step) && Run(Next(s, step), steps, s') && Undisturbed(Next(s, step), steps)
    ensures Run(s, [step] + steps, s') && Undisturbed(s, [step] + steps)
  {
    hide Enabled, Next, Assumed;
    assert ([step] + steps)[0] == step && ([step] + steps)[1..] == steps;
  }

  lemma AdmitLooks(s: State, started: bool, src: seq<Op>, tgt: Option<seq<Op>>, a: Option<Attempt>, op: Op) returns (s': State)
    requires Looks(s, started, src, [], tgt, {}, a, None) && !op.Checkpoint?
    ensures Takes(s, Admit(OLD, op)) && s' == Next(s, Admit(OLD, op))
    ensures Looks(s', started, src, [], tgt, {Call(OLD, op)}, a, None)
  {
    assert LayoutAt(s, 0) == REST_LAYOUT;
    assert Route(Some(REST_LAYOUT), 0) == Some(OLD);
    s' := Next(s, Admit(OLD, op));
  }

  lemma WriteLooks(s: State, started: bool, src: seq<Op>, tgt: Option<seq<Op>>, a: Option<Attempt>, op: Op) returns (s': State)
    requires Looks(s, started, src, [], tgt, {Call(OLD, op)}, a, None) && !op.Checkpoint? && |src| < 5
    ensures Takes(s, Step.Write(OLD, op, false)) && s' == Next(s, Step.Write(OLD, op, false))
    ensures Looks(s', started, src + [op], [], tgt, {Call(OLD, op)}, a, None)
  {
    s' := Next(s, Step.Write(OLD, op, false));
  }

  lemma AnswerLooks(s: State, started: bool, src: seq<Op>, tgt: Option<seq<Op>>, a: Option<Attempt>, op: Op) returns (s': State)
    requires Looks(s, started, src, [], tgt, {Call(OLD, op)}, a, None)
    ensures Takes(s, Answer(OLD, op)) && s' == Next(s, Answer(OLD, op))
    ensures Looks(s', started, src, [], tgt, {}, a, None)
  {
    s' := Next(s, Answer(OLD, op));
  }

  lemma StartLooks(s: State) returns (s': State)
    requires Looks(s, false, [FIRST], [], None, {}, None, None)
    ensures Takes(s, Publish(Start(NEXT))) && s' == Next(s, Publish(Start(NEXT)))
    ensures Looks(s', true, [FIRST], [], None, {}, None, None)
  {
    s' := Next(s, Publish(Start(NEXT)));
  }

  lemma JoinLooks(s: State) returns (s': State)
    requires Looks(s, true, [FIRST], [], None, {}, None, None)
    ensures Takes(s, Join(NEW, 1, 1, 10)) && s' == Next(s, Join(NEW, 1, 1, 10))
    ensures Looks(s', true, [FIRST], [], Some([]), {}, None, None)
  {
    s' := Next(s, Join(NEW, 1, 1, 10));
  }

  lemma BeginLooks(s: State) returns (s': State)
    requires Looks(s, true, [FIRST], [], Some([]), {}, None, None)
    ensures Takes(s, Begin(0, 2, 0, 1, [0], [1])) && s' == Next(s, Begin(0, 2, 0, 1, [0], [1]))
    ensures Looks(s', true, [FIRST], [], Some([Checkpoint]), {}, Some(BEGUN), None)
  {
    Contents();
    OldSources();
    s' := Next(s, Begin(0, 2, 0, 1, [0], [1]));
  }

  lemma CopyLooks(s: State) returns (s': State)
    requires Looks(s, true, [FIRST], [], Some([Checkpoint]), {}, Some(BEGUN), None)
    ensures Takes(s, Copy(0, Full(1, 2, ONE), [FIRST])) && s' == Next(s, Copy(0, Full(1, 2, ONE), [FIRST]))
    ensures Looks(s', true, [FIRST, Checkpoint], [], Some([Checkpoint]), {}, Some(STRAY), None)
  {
    Contents();
    AllRestrict(ONE);
    SetsOne("k", "1");
    s' := Next(s, Copy(0, Full(1, 2, ONE), [FIRST]));
  }

  lemma SetsOne(k: string, v: string)
    ensures Lays([Set(k, v)], map[k := v]) && Touches([Set(k, v)], {k})
  {
    NothingDone();
    LaysOne([], map[], k, v);
    assert [] + [Set(k, v)] == [Set(k, v)];
  }

  lemma AbortLooks(s: State) returns (s': State)
    requires Looks(s, true, [FIRST, Checkpoint], [], Some([Checkpoint]), {}, Some(STRAY), None)
    ensures Takes(s, Abort(0)) && s' == Next(s, Abort(0))
    ensures Looks(s', true, [FIRST, Checkpoint], [], Some([Checkpoint]), {}, Some(STRAY.(alive := false)), None)
  {
    s' := Next(s, Abort(0));
  }

  lemma RetryLooks(s: State) returns (s': State)
    requires Looks(s, true, [FIRST, Checkpoint, SECOND], [], Some([Checkpoint]), {}, Some(STRAY.(alive := false)), None)
    ensures Takes(s, Begin(1, 2, 0, 1, [0], [1])) && s' == Next(s, Begin(1, 2, 0, 1, [0], [1]))
    ensures Looks(s', true, [FIRST, Checkpoint, SECOND], [], Some([Checkpoint, Checkpoint]), {}, Some(STRAY.(alive := false)), Some(BEGUN))
  {
    Contents();
    OldSources();
    s' := Next(s, Begin(1, 2, 0, 1, [0], [1]));
  }

  const SOURCE: seq<Op> := [FIRST, Checkpoint, SECOND, Checkpoint]

  lemma CopyAgainLooks(s: State) returns (s': State)
    requires Looks(s, true, [FIRST, Checkpoint, SECOND], [], Some([Checkpoint, Checkpoint]), {}, Some(STRAY.(alive := false)), Some(BEGUN))
    ensures Takes(s, Copy(1, Full(1, 4, TWO), [SECOND])) && s' == Next(s, Copy(1, Full(1, 4, TWO), [SECOND]))
    ensures Looks(s', true, SOURCE, [], Some([Checkpoint, Checkpoint]), {}, Some(STRAY.(alive := false)), Some(COPIED))
  {
    Contents();
    AllRestrict(TWO);
    SetsOne("k", "2");
    s' := Next(s, Copy(1, Full(1, 4, TWO), [SECOND]));
  }

  const TARGET: seq<Op> := [Checkpoint, Checkpoint, SECOND]
  const GIVEN_UP := STRAY.(alive := false, clean := false)

  lemma ImportLooks(s: State) returns (s': State)
    requires Looks(s, true, SOURCE, [], Some([Checkpoint, Checkpoint]), {}, Some(STRAY.(alive := false)), Some(COPIED))
    ensures Takes(s, Import(1, 1, [false])) && s' == Next(s, Import(1, 1, [false]))
    ensures Looks(s', true, SOURCE, [], Some(TARGET), {}, Some(GIVEN_UP), Some(COPIED.(todo := [])))
  {
    var r := Led([Checkpoint, Checkpoint], []);
    assert [SECOND][..1] == [SECOND] && [SECOND][..0] == [] && [false][..0] == [] && [SECOND][1..] == [];
    assert r.WriteAll([], []) == r;
    assert r.WriteAll([SECOND], [false]) == r.WriteAll([SECOND][..0], [false][..0]).Write(SECOND, false);
    s' := Next(s, Import(1, 1, [false]));
  }

  lemma SweepLooks(s: State) returns (s': State)
    requires Looks(s, true, SOURCE, [], Some(TARGET), {}, Some(GIVEN_UP), Some(COPIED.(todo := [])))
    ensures Takes(s, Sweep(1, [])) && s' == Next(s, Sweep(1, []))
    ensures Looks(s', true, SOURCE, [], Some(TARGET), {}, Some(GIVEN_UP), Some(SWEPT))
  {
    NothingDone();
    assert Stale(COPIED.(todo := [])) == {};
    s' := Next(s, Sweep(1, []));
  }

  lemma CatchUpLooks(s: State) returns (s': State)
    requires Looks(s, true, SOURCE, [], Some(TARGET), {}, Some(GIVEN_UP), Some(SWEPT))
    ensures Takes(s, CatchUpLogs(1, 5, Logs(1, 4, []), [])) && s' == Next(s, CatchUpLogs(1, 5, Logs(1, 4, []), []))
    ensures Looks(s', true, SOURCE, FREEZES, Some(TARGET), {}, Some(GIVEN_UP), Some(COMPLETE))
  {
    assert OpsOf([]) == [] && Matching([], Accept(SUM, 2, 0)) == [];
    s' := Next(s, CatchUpLogs(1, 5, Logs(1, 4, []), []));
  }

  /** A run under the assumptions, without any time passing. */
  ghost predicate Good(s: State, steps: seq<Step>, s': State) {
    Run(s, steps, s') && Undisturbed(s, steps) && forall i :: 0 <= i < |steps| ==> !steps[i].Tick?
  }

  lemma {:induction false} RunConcat(s: State, a: seq<Step>, m: State, b: seq<Step>, s': State)
    requires Run(s, a, m) && Run(m, b, s')
    ensures Run(s, a + b, s') && AcceptedIn(s, a + b) == AcceptedIn(s, a) + AcceptedIn(m, b)
    ensures Undisturbed(s, a) && Undisturbed(m, b) ==> Undisturbed(s, a + b)
    decreases |a|
  {
    hide Enabled, Next, Assumed, AcceptedOps;
    if a == [] {
      assert a + b == b;
    } else {
      assert (a + b)[1..] == a[1..] + b;
      RunConcat(Next(s, a[0]), a[1..], m, b, s');
    }
  }

  lemma GoodSnoc(s: State, steps: seq<Step>, m: State, step: Step)
    requires Good(s, steps, m) && Takes(m, step) && !step.Tick?
    ensures Good(s, steps + [step], Next(m, step))
  {
    hide Enabled, Next, Assumed;
    assert Run(Next(m, step), [], Next(m, step)) && Undisturbed(Next(m, step), []);
    GoodCons(m, step, [], Next(m, step));
    assert [step] + [] == [step];
    RunConcat(s, steps, m, [step], Next(m, step));
  }

  /** At rest: one empty partition. */
  ghost predicate Empty(s: State) { AtRest(s) && Represents(s, map[]) && Looks(s, false, [], [], None, {}, None, None) }

  lemma SomeRest() returns (s: State)
    ensures Empty(s)
  {
    s := State(SUM, [], REST_LAYOUT, map[1 := 1], map[OLD := Lead(Led([], []), 0)], {}, map[], 0);
    assert s.leaders[OLD].rep.Content() == map[];
    RestIsGood(s);
  }

  /** The first write, the start, and a pull that fetches it and is given up. */
  lemma FirstPull(s: State) returns (steps: seq<Step>, s': State)
    requires Looks(s, false, [], [], None, {}, None, None)
    ensures Good(s, steps, s')
    ensures Looks(s', true, [FIRST, Checkpoint], [], Some([Checkpoint]), {}, Some(STRAY.(alive := false)), None)
  {
    hide Looks, Next, Takes;
    var s1 := ClientSteps(s, false, [], None, None, FIRST);
    assert [] + [FIRST] == [FIRST];
    steps := [Admit(OLD, FIRST), Step.Write(OLD, FIRST, false), Answer(OLD, FIRST)];
    var s2 := StartLooks(s1);
    GoodSnoc(s, steps, s1, Publish(Start(NEXT)));
    steps := steps + [Publish(Start(NEXT))];
    var s3 := JoinLooks(s2);
    GoodSnoc(s, steps, s2, Join(NEW, 1, 1, 10));
    steps := steps + [Join(NEW, 1, 1, 10)];
    var s4 := BeginLooks(s3);
    GoodSnoc(s, steps, s3, Begin(0, 2, 0, 1, [0], [1]));
    steps := steps + [Begin(0, 2, 0, 1, [0], [1])];
    var s5 := CopyLooks(s4);
    GoodSnoc(s, steps, s4, Copy(0, Full(1, 2, ONE), [FIRST]));
    steps := steps + [Copy(0, Full(1, 2, ONE), [FIRST])];
    s' := AbortLooks(s5);
    GoodSnoc(s, steps, s5, Abort(0));
    steps := steps + [Abort(0)];
  }

  /** A second write, and the retry, up to its end. */
  lemma Retry(s: State) returns (steps: seq<Step>, s': State)
    requires Looks(s, true, [FIRST, Checkpoint], [], Some([Checkpoint]), {}, Some(STRAY.(alive := false)), None)
    ensures Good(s, steps, s')
    ensures Looks(s', true, SOURCE, FREEZES, Some(TARGET), {}, Some(GIVEN_UP), Some(COMPLETE))
  {
    hide Looks, Next, Takes;
    var s1 := ClientSteps(s, true, [FIRST, Checkpoint], Some([Checkpoint]), Some(STRAY.(alive := false)), SECOND);
    assert [FIRST, Checkpoint] + [SECOND] == [FIRST, Checkpoint, SECOND];
    steps := [Admit(OLD, SECOND), Step.Write(OLD, SECOND, false), Answer(OLD, SECOND)];
    var s2 := RetryLooks(s1);
    GoodSnoc(s, steps, s1, Begin(1, 2, 0, 1, [0], [1]));
    steps := steps + [Begin(1, 2, 0, 1, [0], [1])];
    var s3 := CopyAgainLooks(s2);
    GoodSnoc(s, steps, s2, Copy(1, Full(1, 4, TWO), [SECOND]));
    steps := steps + [Copy(1, Full(1, 4, TWO), [SECOND])];
    var s4 := ImportLooks(s3);
    GoodSnoc(s, steps, s3, Import(1, 1, [false]));
    steps := steps + [Import(1, 1, [false])];
    var s5 := SweepLooks(s4);
    GoodSnoc(s, steps, s4, Sweep(1, []));
    steps := steps + [Sweep(1, [])];
    s' := CatchUpLooks(s5);
    GoodSnoc(s, steps, s5, CatchUpLogs(1, 5, Logs(1, 4, []), []));
    steps := steps + [CatchUpLogs(1, 5, Logs(1, 4, []), [])];
  }

  /** From rest to a completed retry, with the batch of the pull that was given up still to be imported. */
  lemma ToTheCommit() returns (s: State, steps: seq<Step>, s': State)
    ensures Empty(s) && Good(s, steps, s')
    ensures Looks(s', true, SOURCE, FREEZES, Some(TARGET), {}, Some(GIVEN_UP), Some(COMPLETE))
    ensures Inv(s') && Represents(s', Replay(map[], AcceptedIn(s, steps))) && Value(s', "k") == Some("2")
  {
    hide Looks, Inv, AtRest, Represents, Value;
    s := SomeRest();
    var a, m := FirstPull(s);
    var b;
    b, s' := Retry(m);
    RunConcat(s, a, m, b, s');
    steps := a + b;
    RestIsGood(s);
    RunRefines(s, steps, s', map[]);
    AtTheCommit(s');
  }

  lemma AtTheCommit(s: State)
    requires Looks(s, true, SOURCE, FREEZES, Some(TARGET), {}, Some(GIVEN_UP), Some(COMPLETE))
    ensures Value(s, "k") == Some("2") && Takes(s, Commit(1)) && Enabled(s, Import(0, 1, [false]))
    ensures Freezes(s, s.attempts[1], OLD, "k") && Covers(s, OLD, "k") && Open(s, OLD) && Addressed(s, OLD, Set("k", "3"))
    ensures s.now == 0 && !IsFrozen(s.leaders[OLD].rep.freezes, "k", 6)
  {
    assert Route(Some(s.current), 0) == Some(OLD);
    Contents();
    ReplayOne(map[], [FIRST, Checkpoint, SECOND], Checkpoint);
    assert [FIRST, Checkpoint, SECOND] + [Checkpoint] == SOURCE;
    assert s.leaders[OLD].rep.Content() == TWO;
    assert FrozenBy(s.attempts[1], 0) by { assert s.attempts[1].sources[0] == 0; }
    assert LayoutAt(s, 0) == REST_LAYOUT && Route(Some(REST_LAYOUT), 0) == Some(OLD);
  }

  /**
   * A run from rest in which no time passes, so no freeze expires: the retry is committed properly,
   * and then the pull that was given up imports what it had fetched. The system shows the first
   * value although the second one was accepted last.
   */
  lemma StrayImportLosesWrite() returns (s: State, steps: seq<Step>, s': State)
    ensures AtRest(s) && Represents(s, map[]) && Run(s, steps, s') && forall i :: 0 <= i < |steps| ==> !steps[i].Tick?
    ensures Lookup(Replay(map[], AcceptedIn(s, steps)), "k") == Some("2") && Value(s', "k") == Some("1")
    ensures !Undisturbed(s, steps)
  {
    hide Inv, AtRest, Represents, Next, Enabled, Assumed, Looks;
    var done, m;
    s, done, m := ToTheCommit();
    AtTheCommit(m);
    GoodSnoc(s, done, m, Commit(1));
    var committed := Next(m, Commit(1));
    RestIsGood(s);
    RunRefines(s, done + [Commit(1)], committed, map[]);
    StrayEnds(m);
    s' := Next(committed, Import(0, 1, [false]));
    assert Run(s', [], s') && AcceptedIn(s', []) == [];
    RunCons(committed, Import(0, 1, [false]), [], s');
    assert [Import(0, 1, [false])] + [] == [Import(0, 1, [false])];
    RunConcat(s, done + [Commit(1)], committed, [Import(0, 1, [false])], s');
    steps := done + [Commit(1)] + [Import(0, 1, [false])];
    RepresentsKey(committed, Replay(map[], AcceptedIn(s, done + [Commit(1)])), "k");
    assert AcceptedIn(s, steps) == AcceptedIn(s, done + [Commit(1)]);
    if Undisturbed(s, steps) {
      RunRefines(s, steps, s', map[]);
      RepresentsKey(s', Replay(map[], AcceptedIn(s, steps)), "k");
      assert false;
    }
  }

  lemma RepresentsKey(s: State, plain: Data, k: string)
    requires Represents(s, plain)
    ensures Value(s, k) == Lookup(plain, k)
  {}

  lemma StrayEnds(m: State)
    requires Looks(m, true, SOURCE, FREEZES, Some(TARGET), {}, Some(GIVEN_UP), Some(COMPLETE)) && Enabled(m, Commit(1))
    ensures var c := Next(m, Commit(1)); var stray := Import(0, 1, [false]);
      Enabled(c, stray) && Value(c, "k") == Some("2") && Value(Do(c, stray), "k") == Some("1") && AcceptedOps(c, stray) == []
  {
    var c := Next(m, Commit(1));
    CommittedLooks(m);
    ImportValue(c, 0, 1, [false], "k");
    assert [FIRST][..1] == [FIRST];
    ReplayOne(TWO, [], FIRST);
    ReplayNone(TWO);
    assert [] + [FIRST] == [FIRST];
  }

  lemma CommittedLooks(m: State)
    requires Looks(m, true, SOURCE, FREEZES, Some(TARGET), {}, Some(GIVEN_UP), Some(COMPLETE)) && Enabled(m, Commit(1))
    ensures var c := Next(m, Commit(1));
      && Route(Some(c.current), c.sum("k")) == Some(NEW) && NEW in c.leaders && c.leaders[NEW].rep.Content() == TWO
      && 0 in c.attempts && c.attempts[0] == GIVEN_UP && Enabled(c, Import(0, 1, [false]))
  {
    Contents();
  }

  /** A run from rest in which a freeze expires before the commit: the write accepted last is undone. */
  lemma ExpiryLosesWrite() returns (s: State, steps: seq<Step>, s': State)
    ensures AtRest(s) && Represents(s, map[]) && Run(s, steps, s')
    ensures Lookup(Replay(map[], AcceptedIn(s, steps)), "k") == Some("3") && Value(s', "k") == Some("2")
    ensures !Undisturbed(s, steps)
  {
    hide Inv, AtRest, Represents, Next, Enabled, Assumed, Looks, IsFrozen, Freezes, Covers, Open, Addressed, Value, Undisturbed;
    var done, m;
    s, done, m := ToTheCommit();
    AtTheCommit(m);
    ExpiredFreezeLosesWrite(m, 1, OLD, "k", "3", 6);
    var late, w := LateWrite(OLD, "k", "3", 6), AfterLateWrite(m, OLD, "k", "3", 6);
    s' := Next(w, Commit(1));
    assert Run(s', [], s') && AcceptedIn(s', []) == [];
    RunCons(w, Commit(1), [], s');
    assert [Commit(1)] + [] == [Commit(1)];
    RunConcat(s, done, m, late, w);
    RunConcat(s, done + late, w, [Commit(1)], s');
    steps := done + late + [Commit(1)];
    var ops := AcceptedIn(s, done);
    assert AcceptedIn(s, steps) == ops + [Set("k", "3")];
    ReplayOne(map[], ops, Set("k", "3"));
    RestIsGood(s);
    if Undisturbed(s, steps) {
      RunRefines(s, steps, s', map[]);
      RepresentsKey(s', Replay(map[], AcceptedIn(s, steps)), "k");
      assert false;
    }
  }
}

/**
 * Layout writes: a compare-and-swap on the stored layout that is fenced on the writer's election
 * key, retried on conflicts. The store is a register with revisions and the election's keys.
 */
module Fences {
  import opened Ops
  import opened Layouts
  import opened Placement
  import opened Planning
  import opened Rounds

  const MAX_ATTEMPTS := 5

  /** An election key: who created it, at which revision. */
  datatype Candidate = Candidate(owner: string, created: nat)

  /** A term of office: the election key and its create revision. */
  datatype Fence = Fence(key: string, created: nat)

  /** The store; modRev is zero while there is no layout. */
  datatype Store = Store(revision: nat, layout: Option<Layout>, modRev: nat, candidates: map<string, Candidate>)
  {
    /** The election is led by the oldest key. */
    predicate Elected(key: string) {
      key in candidates && forall k :: k in candidates ==> candidates[key].created <= candidates[k].created
    }

    /** Does the transaction's condition hold? */
    predicate Passes(prevModRev: nat, fence: Fence) {
      modRev == prevModRev && fence.key in candidates && candidates[fence.key].created == fence.created
    }

    function PutLayout(l: Layout, prevModRev: nat, fence: Fence): (Store, bool) {
      if Passes(prevModRev, fence) then (this.(revision := revision + 1, layout := Some(l), modRev := revision + 1), true)
      else (this, false)
    }
  }

  /** How far a call of updateLayout has come. */
  datatype Phase = Begin | Fenced(fence: Fence) | Read(fence: Fence, base: Option<Layout>, modRev: nat) | Ended

  datatype Call = Call(who: string, attempt: nat, phase: Phase)

  /** An accepted write: who made it, who led the election then, and what it was derived from. */
  datatype Accepted = Accepted(who: string, key: string, elected: bool, owner: string, base: Option<Layout>, next: Layout)

  datatype World = World(store: Store, terms: map<string, Fence>, calls: map<nat, Call>, log: seq<Accepted>)

  datatype Step =
    | Campaign(controller: string, key: string)
    | Win(controller: string, key: string)
    | Expire(key: string)
    | StepDown(controller: string)
    | Start(call: nat, controller: string)
    | LoadFence(call: nat)
    | Get(call: nat)
    | Fail(call: nat)
    | Put(call: nat, next: Layout)

  /** The copy a change is made to. */
  function Clone(base: Option<Layout>): Layout {
    var l := if base.Some? then base.value else NOTHING;
    l.(version := l.version + 1)
  }

  /** What every change makes of its copy. */
  ghost predicate Mutated(base: Option<Layout>, next: Layout) {
    next.version == Clone(base).version && (WellFormed(Clone(base)) ==> WellFormed(next) && Evolves(Clone(base), next))
  }

  /** Nothing but the version differs, so there is nothing to write. */
  predicate SameLayout(base: Option<Layout>, next: Layout) {
    base.Some? && next.(version := base.value.version) == base.value
  }

  ghost predicate Enabled(w: World, step: Step) {
    match step
    case Campaign(_, key) => key !in w.store.candidates
    case Win(c, key) => w.store.Elected(key) && w.store.candidates[key].owner == c
    case Expire(key) => key in w.store.candidates
    case StepDown(c) => true
    case Start(call, _) => call !in w.calls
    case LoadFence(call) => call in w.calls && w.calls[call].phase == Begin
    case Get(call) => call in w.calls && w.calls[call].phase.Fenced?
    case Fail(call) => call in w.calls && w.calls[call].phase != Ended
    case Put(call, next) => call in w.calls && w.calls[call].phase.Read? && Mutated(w.calls[call].phase.base, next)
  }

  function PutCall(w: World, call: nat, c: Call): World { w.(calls := w.calls[call := c]) }

  ghost function Next(w: World, step: Step): World
    requires Enabled(w, step)
  {
    var s := w.store;
    match step
    case Campaign(c, key) =>
      w.(store := s.(revision := s.revision + 1, candidates := s.candidates[key := Candidate(c, s.revision + 1)]))
    case Win(c, key) => w.(terms := w.terms[c := Fence(key, s.candidates[key].created)])
    case Expire(key) => w.(store := s.(revision := s.revision + 1, candidates := s.candidates - {key}))
    case StepDown(c) => w.(terms := w.terms - {c})
    case Start(call, c) => PutCall(w, call, Call(c, 0, Begin))
    case LoadFence(call) =>
      var c := w.calls[call];
      PutCall(w, call, c.(phase := if c.who in w.terms then Fenced(w.terms[c.who]) else Ended))
    case Get(call) =>
      var c := w.calls[call];
      PutCall(w, call, c.(phase := Read(c.phase.fence, s.layout, s.modRev)))
    case Fail(call) => PutCall(w, call, w.calls[call].(phase := Ended))
    case Put(call, next) =>
      var c := w.calls[call];
      if SameLayout(c.phase.base, next) then PutCall(w, call, c.(phase := Ended))
      else
        var (s', ok) := s.PutLayout(next, c.phase.modRev, c.phase.fence);
        if ok then
          var key := c.phase.fence.key;
          PutCall(w, call, c.(phase := Ended)).(store := s',
            log := w.log + [Accepted(c.who, key, s.Elected(key), s.candidates[key].owner, c.phase.base, next)])
        else
          PutCall(w, call, c.(attempt := c.attempt + 1, phase := if c.attempt + 1 < MAX_ATTEMPTS then Begin else Ended))
  }

  predicate Initial(w: World) {
    w.store == Store(0, None, 0, map[]) && w.terms == map[] && w.calls == map[] && w.log == []
  }

  // ----- the invariant -----

  ghost predicate StoreOk(s: Store) {
    && s.modRev <= s.revision && (s.modRev == 0 <==> s.layout.None?)
    && (forall k :: k in s.candidates ==> s.candidates[k].created <= s.revision)
  }

  /** A fence that is still valid belongs to its controller, who leads the election. */
  ghost predicate FenceOk(s: Store, who: string, f: Fence) {
    && f.created <= s.revision
    && (f.key in s.candidates && s.candidates[f.key].created == f.created ==>
          s.candidates[f.key].owner == who && s.Elected(f.key))
  }

  ghost predicate CallOk(s: Store, c: Call) {
    && c.attempt <= MAX_ATTEMPTS && (c.phase != Ended ==> c.attempt < MAX_ATTEMPTS)
    && (c.phase.Fenced? || c.phase.Read? ==> FenceOk(s, c.who, c.phase.fence))
    && (c.phase.Read? ==> c.phase.modRev <= s.modRev && (c.phase.modRev == s.modRev ==> c.phase.base == s.layout))
  }

  /** The layouts accepted so far, from nothing. */
  function Published(log: seq<Accepted>): seq<Layout> {
    if log == [] then [NOTHING] else Published(log[..|log| - 1]) + [log[|log| - 1].next]
  }

  function Newest(log: seq<Accepted>): Option<Layout> {
    if log == [] then None else Some(log[|log| - 1].next)
  }

  /** Made by the election's leader, derived from the write before it, one version later. */
  ghost predicate EntryOk(log: seq<Accepted>, i: nat)
    requires i < |log|
  {
    && log[i].elected && log[i].owner == log[i].who
    && log[i].base == Newest(log[..i])
    && log[i].next.version == i + 1
  }

  ghost predicate Inv(w: World) {
    && StoreOk(w.store)
    && (forall c :: c in w.terms ==> FenceOk(w.store, c, w.terms[c]))
    && (forall k :: k in w.calls ==> CallOk(w.store, w.calls[k]))
    && w.store.layout == Newest(w.log)
    && (forall i :: 0 <= i < |w.log| ==> EntryOk(w.log, i))
    && History(Published(w.log))
  }

  /** Later revisions do not put anyone in front of a valid fence. */
  lemma FenceLasts(s: Store, s': Store, who: string, f: Fence)
    requires FenceOk(s, who, f) && s.revision <= s'.revision
    requires forall k :: k in s'.candidates ==> (k in s.candidates && s'.candidates[k] == s.candidates[k]) || s'.candidates[k].created > s.revision
    ensures FenceOk(s', who, f)
  {}

  lemma {:induction false} PublishedLast(log: seq<Accepted>)
    ensures |Published(log)| == |log| + 1
    ensures Published(log)[|log|] == if log == [] then NOTHING else log[|log| - 1].next
  {
    if log == [] {
    } else {
      PublishedLast(log[..|log| - 1]);
    }
  }

  lemma {:induction false} PublishedAt(log: seq<Accepted>, i: nat)
    requires i < |log|
    ensures |Published(log)| == |log| + 1 && Published(log)[i + 1] == log[i].next
  {
    PublishedLast(log);
    if i < |log| - 1 {
      PublishedAt(log[..|log| - 1], i);
    }
  }

  lemma PublishedAppend(log: seq<Accepted>, a: Accepted)
    ensures Published(log + [a]) == Published(log) + [a.next]
  {
    assert (log + [a])[..|log|] == log;
  }

  /** The newest layout has as many writes behind it as its version says. */
  lemma LastVersion(log: seq<Accepted>)
    requires forall i :: 0 <= i < |log| ==> EntryOk(log, i)
    ensures log != [] ==> log[|log| - 1].next.version == |log|
  {
    assert log != [] ==> EntryOk(log, |log| - 1);
  }

  /** One more evolved layout with the next version continues a history. */
  lemma HistoryAppend(ls: seq<Layout>, l: Layout)
    requires History(ls) && ls != [] && WellFormed(l) && Evolves(ls[|ls| - 1], l) && l.version == ls[|ls| - 1].version + 1
    ensures History(ls + [l])
  {
    hide Evolves, WellFormed;
  }

  /** A write that passes both conditions continues the history. */
  lemma {:induction false} AcceptedContinues(log: seq<Accepted>, a: Accepted)
    requires History(Published(log)) && a.base == Newest(log) && Mutated(a.base, a.next)
    requires forall i :: 0 <= i < |log| ==> EntryOk(log, i)
    ensures History(Published(log + [a])) && a.next.version == |log| + 1
  {
    hide Evolves, WellFormed, Published, EntryOk;
    PublishedLast(log);
    PublishedAppend(log, a);
    LastVersion(log);
    var current := Published(log)[|log|];
    assert WellFormed(current);
    NewVersion(current);
    assert Clone(a.base) == current.(version := current.version + 1);
    VersionEvolves(current, a.next);
    HistoryAppend(Published(log), a.next);
  }

  lemma EntriesKept(log: seq<Accepted>, a: Accepted)
    requires forall i :: 0 <= i < |log| ==> EntryOk(log, i)
    requires a.elected && a.owner == a.who && a.base == Newest(log) && a.next.version == |log| + 1
    ensures forall i :: 0 <= i < |log| + 1 ==> EntryOk(log + [a], i)
  {
    var log' := log + [a];
    forall i | 0 <= i < |log'|
      ensures EntryOk(log', i)
    {
      assert log'[..i] == log[..i];
      if i < |log| {
        assert EntryOk(log, i);
      } else {
        assert log[..i] == log;
      }
    }
  }

  lemma CallLasts(s: Store, s': Store, c: Call)
    requires CallOk(s, c) && s.revision <= s'.revision
    requires forall k :: k in s'.candidates ==> (k in s.candidates && s'.candidates[k] == s.candidates[k]) || s'.candidates[k].created > s.revision
    requires s'.modRev > s.modRev || (s'.modRev == s.modRev && s'.layout == s.layout)
    ensures CallOk(s', c)
  {
    hide FenceOk;
    if c.phase.Fenced? || c.phase.Read? {
      FenceLasts(s, s', c.who, c.phase.fence);
    }
  }

  lemma StoreStepKeepsInv(w: World, s': Store)
    requires Inv(w) && StoreOk(s') && w.store.revision <= s'.revision
    requires forall k :: k in s'.candidates ==>
      (k in w.store.candidates && s'.candidates[k] == w.store.candidates[k]) || s'.candidates[k].created > w.store.revision
    requires s'.modRev == w.store.modRev && s'.layout == w.store.layout
    ensures Inv(w.(store := s'))
  {
    hide FenceOk, CallOk, History, EntryOk, StoreOk;
    forall c | c in w.terms
      ensures FenceOk(s', c, w.terms[c])
    {
      FenceLasts(w.store, s', c, w.terms[c]);
    }
    forall k | k in w.calls
      ensures CallOk(s', w.calls[k])
    {
      CallLasts(w.store, s', w.calls[k]);
    }
  }

  lemma PutKeepsInv(w: World, call: nat, next: Layout)
    requires Inv(w) && Enabled(w, Put(call, next))
    ensures Inv(Next(w, Put(call, next)))
  {
    hide FenceOk, History, EntryOk, Mutated;
    var w', c, s := Next(w, Put(call, next)), w.calls[call], w.store;
    if !SameLayout(c.phase.base, next) && s.Passes(c.phase.modRev, c.phase.fence) {
      var s' := s.PutLayout(next, c.phase.modRev, c.phase.fence).0;
      var key := c.phase.fence.key;
      var a := Accepted(c.who, key, s.Elected(key), s.candidates[key].owner, c.phase.base, next);
      assert a.elected && a.owner == a.who by { FenceHolds(s, c.who, c.phase.fence); }
      AcceptedContinues(w.log, a);
      EntriesKept(w.log, a);
      forall c' | c' in w.terms
        ensures FenceOk(s', c', w.terms[c'])
      {
        FenceLasts(s, s', c', w.terms[c']);
      }
      forall k | k in w.calls
        ensures CallOk(s', w.calls[k])
      {
        CallLasts(s, s', w.calls[k]);
      }
    }
  }

  lemma FenceHolds(s: Store, who: string, f: Fence)
    requires FenceOk(s, who, f) && f.key in s.candidates && s.candidates[f.key].created == f.created
    ensures s.candidates[f.key].owner == who && s.Elected(f.key)
  {}

  lemma StepKeepsInv(w: World, step: Step)
    requires Inv(w) && Enabled(w, step)
    ensures Inv(Next(w, step))
  {
    match step
    case Campaign(c, key) => StoreStepKeepsInv(w, Next(w, step).store);
    case Expire(key) => StoreStepKeepsInv(w, Next(w, step).store);
    case Put(call, next) => PutKeepsInv(w, call, next);
    case _ => LocalKeepsInv(w, step);
  }

  lemma LocalKeepsInv(w: World, step: Step)
    requires Inv(w) && Enabled(w, step) && !step.Campaign? && !step.Expire? && !step.Put?
    ensures Inv(Next(w, step))
  {
    hide History, EntryOk;
  }

  ghost predicate Run(w: World, steps: seq<Step>, w': World)
    decreases |steps|
  {
    if steps == [] then w == w' else Enabled(w, steps[0]) && Run(Next(w, steps[0]), steps[1..], w')
  }

  lemma {:induction false} RunKeepsInv(w: World, steps: seq<Step>, w': World)
    requires Inv(w) && Run(w, steps, w')
    ensures Inv(w')
    decreases |steps|
  {
    hide Inv, Enabled, Next;
    if steps == [] {
    } else {
      StepKeepsInv(w, steps[0]);
      RunKeepsInv(Next(w, steps[0]), steps[1..], w');
    }
  }

  lemma InitialInv(w: World)
    requires Initial(w)
    ensures Inv(w)
  {
    NothingFormed();
  }

  /**
   * Over every run, with sessions lost, keys recreated, conflicts and retries: each accepted write
   * was made by the controller leading the election at that moment, was derived from the write
   * accepted just before it, and has the next version; and the accepted layouts form a history, so
   * no partition ever gets two leaders in one epoch.
   */
  lemma WritesAreFenced(w: World, steps: seq<Step>, w': World, i: nat)
    requires Initial(w) && Run(w, steps, w') && i < |w'.log|
    ensures w'.log[i].elected && w'.log[i].owner == w'.log[i].who
    ensures w'.log[i].base == if i == 0 then None else Some(w'.log[i - 1].next)
    ensures w'.log[i].next.version == i + 1
    ensures History(Published(w'.log)) && |Published(w'.log)| == |w'.log| + 1 && Published(w'.log)[i + 1] == w'.log[i].next
  {
    InitialInv(w);
    RunKeepsInv(w, steps, w');
    PublishedAt(w'.log, i);
    assert EntryOk(w'.log, i);
  }

  // ----- writes that have to succeed -----

  /** A write is accepted exactly if nothing was written since the read and the writer's key still exists. */
  lemma PutAcceptedIff(w: World, call: nat, next: Layout)
    requires Enabled(w, Put(call, next)) && !SameLayout(w.calls[call].phase.base, next)
    ensures var w', p := Next(w, Put(call, next)), w.calls[call].phase;
      && (|w'.log| == |w.log| + 1 <==>
            w.store.modRev == p.modRev && p.fence.key in w.store.candidates && w.store.candidates[p.fence.key].created == p.fence.created)
      && (|w'.log| == |w.log| + 1 ==> w'.store.layout == Some(next) && w'.calls[call].phase == Ended)
      && (|w'.log| != |w.log| + 1 ==> w'.store == w.store && w'.log == w.log)
      && (|w'.log| != |w.log| + 1 && w.calls[call].attempt + 1 < 5 ==> w'.calls[call].phase == Begin)
  {}

  /** A controller in office that nobody interferes with gets its change accepted at the first attempt. */
  lemma UncontendedWriteIsAccepted(w: World, call: nat, next: Layout)
    requires call in w.calls && w.calls[call].phase == Begin && w.calls[call].who in w.terms
    requires var f := w.terms[w.calls[call].who]; f.key in w.store.candidates && w.store.candidates[f.key].created == f.created
    requires Mutated(w.store.layout, next) && !SameLayout(w.store.layout, next)
    ensures Enabled(w, LoadFence(call))
    ensures var w1 := Next(w, LoadFence(call));
      && Enabled(w1, Get(call))
      && var w2 := Next(w1, Get(call));
         && Enabled(w2, Put(call, next))
         && var w3 := Next(w2, Put(call, next));
            w3.store.layout == Some(next) && |w3.log| == |w.log| + 1 && w3.log[|w.log|].next == next && w3.log[|w.log|].who == w.calls[call].who
  {
    hide Mutated;
  }
}

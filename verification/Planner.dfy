/** The planner: one step of the layout towards the desired state. */
module Planning {
  import opened Ops
  import opened Replica
  import opened Layouts
  import opened Placement

  const HANDOFF_TIMEOUT := 10000
  const JOIN_LAG := 64
  const MAX_MOVES := 2

  /** The load map follows a change of one partition, node by node. */
  ghost predicate Tracks(eligible: seq<string>, load: map<string, int>, load': map<string, int>, p: Part, p': Part) {
    && load'.Keys == load.Keys
    && forall n :: n in eligible && n in load ==> load'[n] - load[n] == Contrib(p', n) - Contrib(p, n)
  }

  /** One more change that adds d copies on node x. */
  lemma TracksStep(eligible: seq<string>, load0: map<string, int>, load: map<string, int>, p0: Part, p: Part, p': Part, x: string, d: int)
    requires Tracks(eligible, load0, load, p0, p) && x in load
    requires Contrib(p', x) == Contrib(p, x) + d && forall n :: n != x ==> Contrib(p', n) == Contrib(p, n)
    ensures Tracks(eligible, load0, load[x := load[x] + d], p0, p')
  {
    hide Contrib;
  }

  lemma TracksSame(eligible: seq<string>, load: map<string, int>, p: Part)
    ensures Tracks(eligible, load, load, p, p)
  {}

  /** What losing members does to a partition: only nodes that are gone or restarted leave it. */
  ghost predicate Shed(input: Input, members: map<string, int>, a: Part, b: Part) {
    && b.id == a.id && b.epoch == a.epoch && b.pinned == a.pinned
    && (SameHandoff(a, b) || (b.state == Active && !Alive(input, members, a.handoffTo)))
    && (b.leader == a.leader || (b.leader == "" && !Alive(input, members, a.leader)))
    && Thinned(input, members, a.followers, b.followers) && Thinned(input, members, a.joining, b.joining)
    && Thinned(input, members, a.evict, b.evict)
  }

  ghost predicate Thinned(input: Input, members: map<string, int>, a: seq<string>, b: seq<string>) {
    && (forall n :: n in b ==> n in a)
    && (forall n :: n in a && Alive(input, members, n) ==> n in b)
  }

  /** No trace of a node that is gone or restarted is left. */
  ghost predicate OnlyAlive(input: Input, members: map<string, int>, parts: seq<Part>) {
    forall i, n :: 0 <= i < |parts| && n != "" && (parts[i].Has(n) || n in parts[i].evict) ==> Alive(input, members, n)
  }

  /** The node is live in the incarnation the layout knows. */
  predicate Alive(input: Input, members: map<string, int>, n: string) {
    n in members && n in input.nodes && members[n] == input.nodes[n]
  }

  ghost predicate AllShed(input: Input, members: map<string, int>, a: seq<Part>, b: seq<Part>) {
    |a| == |b| && forall i :: 0 <= i < |a| ==> Shed(input, members, a[i], b[i])
  }

  /** The partition without any trace of the node. */
  function Forgotten(p: Part, id: string): Part {
    var q := p.(leader := if p.leader == id then "" else p.leader,
                followers := Removed(p.followers, id), joining := Removed(p.joining, id), evict := Removed(p.evict, id));
    if p.handoffTo == id then Cleared(q) else q
  }

  lemma ForgottenOk(p: Part, id: string, members: set<string>)
    requires Orphanable(p, members)
    ensures Orphanable(Forgotten(p, id), members - {id})
    ensures Later(p, Forgotten(p, id))
  {
    RemovedDistinct(p.followers, id);
    RemovedDistinct(p.joining, id);
    RemovedDistinct(p.evict, id);
  }

  lemma ForgottenShed(input: Input, members: map<string, int>, a: Part, b: Part, id: string)
    requires Shed(input, members, a, b) && !Alive(input, members, id) && id != ""
    ensures Shed(input, members, a, Forgotten(b, id))
  {}

  /** A partition that was never assigned. */
  function Unassigned(id: int): Part { Part(id, 0, "", [], [], [], Active, "", 0, 0, false) }

  datatype Phase = Failing | Promoting | Progressing | Evicting | Repairing

  ghost predicate SameHandoff(a: Part, b: Part) {
    b.state == a.state && b.handoffTo == a.handoffTo && b.handoffVersion == a.handoffVersion && b.handoffAt == a.handoffAt
  }

  /** Same leadership, same handoff. */
  ghost predicate Steady(a: Part, b: Part) { b.epoch == a.epoch && b.leader == a.leader && SameHandoff(a, b) }

  ghost predicate Completed(input: Input, ref: Ref, a: Part, b: Part) {
    a.state == HandingOff && input.Completes(ref, a) && b.epoch == a.epoch + 1 && b.leader == a.handoffTo && b.state == Active
  }

  /** What each phase may do to the leadership of a partition. */
  ghost predicate Stepped(phase: Phase, input: Input, version: int, ref: Ref, a: Part, b: Part) {
    match phase
    case Failing =>
      if a.leader != "" then b == a
      else if b.leader == "" then b == a
      else b.epoch == a.epoch + 1 && b.state == Active
    case Promoting => Steady(a, b)
    case Progressing =>
      if a.state == HandingOff && input.now - a.handoffAt <= HANDOFF_TIMEOUT && input.Completes(ref, a) then Completed(input, ref, a, b)
      else Steady(a, b) || b == Cleared(a)
    case Evicting => b.epoch == a.epoch && b.leader == a.leader && (SameHandoff(a, b) || b.handoffVersion == version)
    case Repairing => Steady(a, b)
  }

  /** What one phase does to the partitions of one generation. */
  ghost predicate Passed(phase: Phase, input: Input, l: Layout, generation: int, parts: seq<Part>, out: seq<Part>) {
    && |out| <= |parts|
    && forall i :: 0 <= i < |out| ==>
         && out[i].id == i && PartOk(out[i], l.members.Keys) && Later(parts[i], out[i])
         && Stepped(phase, input, l.version, Ref(generation, i), parts[i], out[i])
  }

  /** A handoff between live nodes that is not late and whose reports allow it is completed. */
  ghost predicate HandsOver(input: Input, members: map<string, int>, ref: Ref, a: Part, b: Part) {
    && a.state == HandingOff && input.now - a.handoffAt <= HANDOFF_TIMEOUT && a.leader != ""
    && Alive(input, members, a.leader) && Alive(input, members, a.handoffTo) && input.Completes(ref, a)
    ==> b.epoch == a.epoch + 1 && b.leader == a.handoffTo
  }

  /**
   * What a whole round may do to the leadership of a partition: nothing but starting or ending a
   * handoff; losing a leader whose node is gone; or a new epoch, whose leader replaces a lost one or
   * is the target of a handoff that the reports allowed to complete.
   */
  ghost predicate Succeeds(input: Input, members: map<string, int>, version: int, ref: Ref, a: Part, b: Part) {
    HandsOver(input, members, ref, a, b) &&
    var handoffOk := b.state == Active || b.handoffVersion == version;
    || (b.epoch == a.epoch && b.leader == a.leader && (a.leader != "" ==> Alive(input, members, a.leader))
        && (handoffOk || (SameHandoff(a, b) && Alive(input, members, a.handoffTo))))
    || (b.epoch == a.epoch && b.leader == "" && b.state == Active && !Alive(input, members, a.leader))
    || (b.epoch == a.epoch + 1 && b.leader != "" && handoffOk
        && (a.leader == "" || !Alive(input, members, a.leader)
            || (a.state == HandingOff && input.Completes(ref, a) && b.leader == a.handoffTo && Alive(input, members, a.handoffTo))))
  }

  /** The phases of a round, one after the other, on one partition. */
  lemma RoundSucceeds(input: Input, l: Layout, members: map<string, int>, ref: Ref,
                      a: Part, shed: Part, led: Part, promoted: Part, progressed: Part, handed: Part, b: Part)
    requires Shed(input, members, a, shed) && forall n :: n != "" && shed.Has(n) ==> Alive(input, members, n)
    requires Stepped(Failing, input, l.version, ref, shed, led) && PartOk(led, l.members.Keys)
    requires Stepped(Promoting, input, l.version, ref, led, promoted)
    requires Stepped(Progressing, input, l.version, ref, promoted, progressed)
    requires Stepped(Evicting, input, l.version, ref, progressed, handed) && PartOk(handed, l.members.Keys)
    requires Stepped(Repairing, input, l.version, ref, handed, b)
    ensures Succeeds(input, members, l.version, ref, a, b)
  {
    hide Distinct, Alive, EvictsHolders;
  }

  /** Later steps that keep the leadership and start handoffs in this version change nothing about that. */
  lemma SucceedsThen(input: Input, members: map<string, int>, version: int, ref: Ref, a: Part, b: Part, c: Part)
    requires Succeeds(input, members, version, ref, a, b)
    requires c.epoch == b.epoch && c.leader == b.leader
    requires SameHandoff(b, c) || (c.handoffVersion == version && c.leader != "")
    ensures Succeeds(input, members, version, ref, a, c)
  {
    hide Alive;
  }

  /** The partitions a round starts from: before the first layout, ones that were never assigned. */
  function Before(l: Layout, n: nat): seq<Part> {
    if l.parts != [] then l.parts else seq(n, i => Unassigned(i))
  }

  /** A partition of a new generation: a leader, in its first epoch. */
  predicate JustPlaced(p: Part) { p.epoch == 1 && p.leader != "" && p.state == Active }

  ghost predicate AllSucceed(input: Input, members: map<string, int>, version: int, generation: int, a: seq<Part>, b: seq<Part>) {
    |a| == |b| && forall i :: 0 <= i < |a| ==> Succeeds(input, members, version, Ref(generation, i), a[i], b[i])
  }

  lemma AllRoundsSucceed(input: Input, l: Layout, members: map<string, int>, generation: int, a: seq<Part>, shed: seq<Part>,
                         led: seq<Part>, promoted: seq<Part>, progressed: seq<Part>, handed: seq<Part>, b: seq<Part>)
    requires AllShed(input, members, a, shed) && OnlyAlive(input, members, shed)
    requires |a| == |led| == |promoted| == |progressed| == |handed| == |b|
    requires Passed(Failing, input, l, generation, shed, led) && Passed(Promoting, input, l, generation, led, promoted)
    requires Passed(Progressing, input, l, generation, promoted, progressed) && Passed(Evicting, input, l, generation, progressed, handed)
    requires Passed(Repairing, input, l, generation, handed, b)
    ensures AllSucceed(input, members, l.version, generation, a, b)
  {
    hide Shed, Stepped, PartOk, Succeeds, Later, Alive;
    forall i | 0 <= i < |a|
      ensures Succeeds(input, members, l.version, Ref(generation, i), a[i], b[i])
    {
      RoundSucceeds(input, l, members, Ref(generation, i), a[i], shed[i], led[i], promoted[i], progressed[i], handed[i], b[i]);
    }
  }

  /** Passed looks at the members and the version of the layout only. */
  lemma PassedFrame(phase: Phase, input: Input, l: Layout, l': Layout, generation: int, parts: seq<Part>, out: seq<Part>)
    requires Passed(phase, input, l, generation, parts, out) && l'.members == l.members && l'.version == l.version
    ensures Passed(phase, input, l', generation, parts, out)
  {
    hide PartOk, Stepped, Later;
  }

  lemma NonEmptyHas(s: seq<string>)
    ensures s != [] ==> exists n :: n in s
  {
    if s != [] {
      assert s[0] in s;
    }
  }

  class Planner {
    const input: Input
    var l: Layout
    /** The members that may receive copies. */
    var eligible: seq<string>
    /** For each of them the number of copies it keeps. */
    var load: map<string, int>
    var events: nat

    ghost function Members(): set<string>
      reads this`l
    {
      l.members.Keys
    }

    ghost predicate Ready()
      reads this`l, this`eligible, this`load
    {
      && "" !in Members() && Distinct(eligible)
      && (forall n :: n in eligible <==> n in Members() && n !in input.drained)
      && (forall n :: n in load <==> n in eligible)
    }

    // ----- choosing nodes -----

    /** c is the better choice: not drained, then newer data epoch, then higher sequence number. */
    predicate Fresher(ref: Ref, c: string, best: string)
      reads this`eligible
    {
      || (c in eligible && best !in eligible)
      || ((c in eligible <==> best in eligible) && Newer(input.Position(c, ref), input.Position(best, ref)))
    }

    /**
     * The most up-to-date candidate, if any qualifies: nodes that are not drained first, then by the
     * data epoch they report, then by the sequence number.
     */
    method MostUpToDate(ref: Ref, candidates: seq<string>, requireSynced: bool) returns (best: string)
      requires "" !in candidates
      ensures best == "" <==> forall c :: c in candidates ==>
        requireSynced && (input.StatusOf(c, ref).None? || !input.StatusOf(c, ref).value.synced)
      ensures best != "" ==> best in candidates && (requireSynced ==> input.StatusOf(best, ref).Some? && input.StatusOf(best, ref).value.synced)
      ensures best != "" ==> forall c :: c in candidates && (requireSynced ==> input.StatusOf(c, ref).Some? && input.StatusOf(c, ref).value.synced) ==>
        && (c in eligible ==> best in eligible)
        && ((c in eligible <==> best in eligible) && input.StatusOf(c, ref).Some? ==>
              var x := input.StatusOf(c, ref).value;
              if input.StatusOf(best, ref).Some? then
                var y := input.StatusOf(best, ref).value;
                x.dataEpoch < y.dataEpoch || (x.dataEpoch == y.dataEpoch && x.number <= y.number)
              else x.dataEpoch < 0 || (x.dataEpoch == 0 && x.number <= 0))
      ensures best != "" ==> forall c :: c in candidates && (requireSynced ==> input.Synced(c, ref)) ==> !Fresher(ref, c, best)
    {
      best := "";
      var bestEpoch, bestNumber, bestEligible := 0, 0, false;
      for i := 0 to |candidates|
        invariant best != "" ==> best in candidates && (requireSynced ==> input.Synced(best, ref))
        invariant best != "" ==> (bestEpoch, bestNumber) == input.Position(best, ref) && bestEligible == (best in eligible)
        invariant forall j :: 0 <= j < i && (requireSynced ==> input.Synced(candidates[j], ref)) ==>
          best != "" && !Fresher(ref, candidates[j], best)
      {
        var c := candidates[i];
        var st := input.StatusOf(c, ref);
        if !requireSynced || (st.Some? && st.value.synced) {
          var (epoch, number) := if st.Some? then (st.value.dataEpoch, st.value.number) else (0, 0);
          var ok := c in eligible;
          if best == "" || (ok && !bestEligible)
             || (ok == bestEligible && (epoch > bestEpoch || (epoch == bestEpoch && number > bestNumber))) {
            best, bestEpoch, bestNumber, bestEligible := c, epoch, number, ok;
          }
        }
      }
    }

    /** The least loaded eligible node without a copy, if there is one. */
    method LeastLoaded(part: Part) returns (best: string)
      requires Ready()
      ensures best == "" <==> forall n :: n in eligible ==> part.Has(n)
      ensures best != "" ==> best in eligible && !part.Has(best)
      ensures best != "" ==> forall n :: n in eligible && !part.Has(n) ==> load[best] <= load[n]
    {
      best := "";
      for i := 0 to |eligible|
        invariant best != "" ==> best in eligible && !part.Has(best)
        invariant forall j :: 0 <= j < i && !part.Has(eligible[j]) ==> best != "" && load[best] <= load[eligible[j]]
      {
        var id := eligible[i];
        if !part.Has(id) && (best == "" || load[id] < load[best]) {
          best := id;
        }
      }
    }

    // ----- leadership -----

    /** Whom an orphaned partition would get: its best follower, else its best synced joiner, else an idle node. */
    ghost predicate Chosen(ref: Ref, part: Part, load: map<string, int>, c: string)
      reads this`eligible
    {
      if part.followers != [] then
        c in part.followers && forall f :: f in part.followers ==> !Fresher(ref, f, c)
      else if exists j :: j in part.joining && input.Synced(j, ref) then
        && c in part.joining && input.Synced(c, ref)
        && forall j :: j in part.joining && input.Synced(j, ref) ==> !Fresher(ref, j, c)
      else
        && c in eligible && !part.Has(c) && c in load
        && forall n :: n in eligible && !part.Has(n) && n in load ==> load[c] <= load[n]
    }

    /** No follower, no synced joiner, and every eligible node is already an unsynced joiner. */
    ghost predicate Hopeless(ref: Ref, part: Part)
      reads this`eligible
    {
      && part.followers == [] && (forall j :: j in part.joining ==> !input.Synced(j, ref))
      && (forall n :: n in eligible ==> part.Has(n))
    }

    method Successor(ref: Ref, part: Part) returns (c: string)
      requires Ready() && Orphanable(part, Members()) && part.leader == ""
      ensures c == "" <==> Hopeless(ref, part)
      ensures c != "" ==> Chosen(ref, part, load, c) && c in Members()
      ensures part.followers != [] ==>
        && c in part.followers
        && forall f :: f in part.followers ==>
             && (f in eligible ==> c in eligible)
             && ((f in eligible <==> c in eligible) && input.StatusOf(f, ref).Some? && input.StatusOf(c, ref).Some? ==>
                   var x, y := input.StatusOf(f, ref).value, input.StatusOf(c, ref).value;
                   x.dataEpoch < y.dataEpoch || (x.dataEpoch == y.dataEpoch && x.number <= y.number))
    {
      NonEmptyHas(part.followers);
      c := MostUpToDate(ref, part.followers, false);
      if c == "" {
        c := MostUpToDate(ref, part.joining, true);
      }
      if c == "" {
        c := LeastLoaded(part);
      }
    }

    static function Installed(part: Part, c: string): Part {
      Cleared(part).(leader := c, epoch := part.epoch + 1, followers := Removed(part.followers, c), joining := Removed(part.joining, c))
    }

    static lemma InstalledOk(part: Part, c: string, members: set<string>)
      requires Orphanable(part, members) && part.leader == "" && c in members
      ensures PartOk(Installed(part, c), members)
      ensures forall n :: n != "" && n != c ==> Contrib(Installed(part, c), n) == Contrib(part, n)
      ensures Contrib(Installed(part, c), c) == if part.Has(c) then Contrib(part, c) else 1
    {
      RemovedDistinct(part.followers, c);
      RemovedDistinct(part.joining, c);
    }

    /**
     * An orphaned partition gets its successor as leader in the next epoch; it stays leaderless
     * exactly if there is none.
     */
    method Failover(ref: Ref, part: Part) returns (p: Part)
      requires Ready() && Orphanable(part, Members())
      modifies this`load, this`events
      ensures Ready() && PartOk(p, Members()) && Later(part, p)
      ensures Tracks(eligible, old(load), load, part, p)
      ensures part.leader != "" ==> p == part && events == old(events) && load == old(load)
      ensures part.leader == "" ==> (p.leader == "" <==> Hopeless(ref, part))
      ensures p.leader == "" ==> p == part
      ensures part.leader == "" && p.leader != "" ==> Chosen(ref, part, old(load), p.leader) && p == Installed(part, p.leader)
      ensures part.leader == "" && p.leader != "" ==>
        && p.epoch == part.epoch + 1 && p.state == Active
        && (forall n :: n in p.followers <==> n in part.followers && n != p.leader)
        && (forall n :: n in p.joining <==> n in part.joining && n != p.leader)
      ensures part.leader == "" && part.followers != [] ==>
        && p.leader in part.followers
        && forall f :: f in part.followers ==>
             && (f in eligible ==> p.leader in eligible)
             && ((f in eligible <==> p.leader in eligible) && input.StatusOf(f, ref).Some? && input.StatusOf(p.leader, ref).Some? ==>
                   var x, y := input.StatusOf(f, ref).value, input.StatusOf(p.leader, ref).value;
                   x.dataEpoch < y.dataEpoch || (x.dataEpoch == y.dataEpoch && x.number <= y.number))
    {
      hide Chosen, Hopeless, Contrib, Tracks, EvictsHolders, Distinct;
      p := part;
      TracksSame(eligible, load, part);
      if part.leader != "" {
        return;
      }
      var c := Successor(ref, part);
      if c == "" {
        assert part.followers == [] by { HopelessEmpty(ref, part); }
        return;
      }
      InstalledOk(part, c, Members());
      TracksInstalled(part, c);
      if !part.Has(c) {
        assert c in eligible by { ChosenEligible(ref, part, load, c); }
        load := load[c := load[c] + 1];
      }
      events := events + 1;
      var followers := RemoveString(part.followers, c);
      var joining := RemoveString(part.joining, c);
      p := Cleared(part).(leader := c, epoch := part.epoch + 1, followers := followers, joining := joining);
    }

    lemma TracksInstalled(part: Part, c: string)
      requires Ready() && Orphanable(part, Members()) && part.leader == "" && c in Members()
      ensures part.Has(c) ==> Tracks(eligible, load, load, part, Installed(part, c))
      ensures !part.Has(c) && c in load ==> Tracks(eligible, load, load[c := load[c] + 1], part, Installed(part, c))
    {
      InstalledOk(part, c, Members());
      EligibleNamed();
    }

    lemma HopelessEmpty(ref: Ref, part: Part)
      requires Hopeless(ref, part)
      ensures part.followers == []
    {}

    lemma ChosenEligible(ref: Ref, part: Part, load: map<string, int>, c: string)
      requires Chosen(ref, part, load, c) && !part.Has(c)
      ensures c in eligible
    {}

    /** A joiner that loaded a snapshot of this epoch and trails its leader by little enough. */
    predicate CaughtUp(ref: Ref, part: Part, j: string) {
      && part.leader != ""
      && var ls, st := input.StatusOf(part.leader, ref), input.StatusOf(j, ref);
      && ls.Some? && ls.value.role == Leader && ls.value.epoch == part.epoch
      && st.Some? && st.value.synced && st.value.role == Follower && st.value.dataEpoch == part.epoch
      && ls.value.number - st.value.number <= JOIN_LAG
    }

    /** Exactly the joiners that caught up become in-sync followers. */
    method PromoteJoiners(ref: Ref, part: Part) returns (p: Part)
      requires Ready() && PartOk(part, Members())
      modifies this`events
      ensures PartOk(p, Members()) && Later(part, p)
      ensures p == part.(followers := p.followers, joining := p.joining)
      ensures forall n :: n in p.followers <==> n in part.followers || (n in part.joining && CaughtUp(ref, part, n))
      ensures forall n :: n in p.joining <==> n in part.joining && !CaughtUp(ref, part, n)
      ensures forall n :: p.Has(n) <==> part.Has(n)
      ensures part.joining == [] ==> p == part && events == old(events)
    {
      p := part;
      for i := 0 to |part.joining|
        invariant PartOk(p, Members())
        invariant p == part.(followers := p.followers, joining := p.joining)
        invariant forall n :: n in p.followers <==> n in part.followers || (n in part.joining[..i] && CaughtUp(ref, part, n))
        invariant forall n :: n in p.joining <==> n in part.joining && !(n in part.joining[..i] && CaughtUp(ref, part, n))
        invariant i == 0 ==> p == part && events == old(events)
      {
        var j := part.joining[i];
        assert part.joining[..i + 1] == part.joining[..i] + [j];
        if CaughtUp(ref, part, j) {
          assert j !in part.joining[..i];
          RemovedDistinct(p.joining, j);
          var joining := RemoveString(p.joining, j);
          p := p.(joining := joining, followers := p.followers + [j]);
          events := events + 1;
        }
      }
      assert part.joining[..|part.joining|] == part.joining;
    }

    /**
     * A handoff completes exactly when the reports allow it, and is cancelled when it took too
     * long. The old leader goes if it was to be moved off, and otherwise starts again as a joiner.
     */
    method ProgressHandoff(ref: Ref, part: Part) returns (p: Part)
      requires Ready() && PartOk(part, Members())
      modifies this`events
      ensures PartOk(p, Members()) && Later(part, p)
      ensures forall n :: n in eligible ==> Contrib(p, n) == Contrib(part, n)
      ensures part.state == Active ==> p == part && events == old(events)
      ensures part.state == HandingOff && input.now - part.handoffAt > HANDOFF_TIMEOUT ==>
        && p == Cleared(part) && p.state == Active && p.leader == part.leader && p.epoch == part.epoch
        && p.handoffTo == "" && p.handoffAt == 0 && p.handoffVersion == 0
      ensures part.state == HandingOff && input.now - part.handoffAt <= HANDOFF_TIMEOUT && !input.Completes(ref, part) ==> p == part
      ensures part.state == HandingOff && input.now - part.handoffAt <= HANDOFF_TIMEOUT && input.Completes(ref, part) ==>
        && p == Cleared(part).(leader := part.handoffTo, epoch := part.epoch + 1, followers := p.followers, joining := p.joining, evict := p.evict)
        && (forall n :: n in p.followers <==> n in part.followers && n != part.handoffTo)
        && (forall n :: n in p.evict <==> n in part.evict && n != part.leader)
        && (forall n :: n in p.joining <==> n in part.joining || (n == part.leader && !input.Evicted(part.leader, part)))
      ensures part.state == HandingOff && input.now - part.handoffAt <= HANDOFF_TIMEOUT ==>
        (p.epoch == part.epoch + 1 && p.leader == part.handoffTo <==>
          && part.leader in input.status && input.status[part.leader].layoutVersion >= part.handoffVersion
          && var ls, ts := input.StatusOf(part.leader, ref), input.StatusOf(part.handoffTo, ref);
             && ls.Some? && ls.value.sealed && ts.Some?
             && ts.value.dataEpoch == part.epoch && ts.value.number >= ls.value.number)
    {
      hide Contrib, Distinct, Part.Has, EvictsHolders;
      p := part;
      EligibleNamed();
      if part.state != HandingOff {
        return;
      }
      ClearedOk(part, Members());
      if input.now - part.handoffAt > HANDOFF_TIMEOUT {
        events := events + 1;
        return Cleared(part);
      }
      if part.leader !in input.status || input.status[part.leader].layoutVersion < part.handoffVersion {
        return;
      }
      var ls := input.StatusOf(part.leader, ref);
      if ls.None? || !ls.value.sealed {
        return;
      }
      var ts := input.StatusOf(part.handoffTo, ref);
      if ts.None? || ts.value.dataEpoch != part.epoch || ts.value.number < ls.value.number {
        return;
      }
      HandedOverOk(part, input.Evicted(part.leader, part), Members());
      var followers := RemoveString(part.followers, part.handoffTo);
      p := Cleared(part).(leader := part.handoffTo, epoch := part.epoch + 1, followers := followers);
      if input.Evicted(part.leader, p) {
        var evict := RemoveString(part.evict, part.leader);
        p := p.(evict := evict);
      } else {
        p := p.(joining := part.joining + [part.leader]);
      }
      events := events + 1;
    }

    static lemma ClearedOk(p: Part, members: set<string>)
      requires PartOk(p, members)
      ensures PartOk(Cleared(p), members) && forall n :: Contrib(Cleared(p), n) == Contrib(p, n)
    {}

    /** After a handoff: the old leader's copy goes with its eviction, or starts again. */
    static function HandedOver(p: Part, evicted: bool): Part {
      Cleared(p).(leader := p.handoffTo, epoch := p.epoch + 1, followers := Removed(p.followers, p.handoffTo),
                  evict := if evicted then Removed(p.evict, p.leader) else p.evict,
                  joining := if evicted then p.joining else p.joining + [p.leader])
    }

    static lemma HandedOverOk(p: Part, evicted: bool, members: set<string>)
      requires PartOk(p, members) && p.state == HandingOff && (p.leader in p.evict ==> evicted)
      ensures PartOk(HandedOver(p, evicted), members) && Later(p, HandedOver(p, evicted))
      ensures forall n :: n != "" && (n == p.leader && evicted ==> n in p.evict) ==> Contrib(HandedOver(p, evicted), n) == Contrib(p, n)
    {
      RemovedDistinct(p.followers, p.handoffTo);
      RemovedDistinct(p.evict, p.leader);
    }

    method StartHandoff(part: Part, target: string) returns (p: Part)
      modifies this`events
      ensures p == HandingTo(part, target, input.now, l.version) && events == old(events) + 1
      ensures p.state == HandingOff && p.handoffTo == target && p.handoffAt == input.now && p.handoffVersion == l.version
    {
      p := HandingTo(part, target, input.now, l.version);
      events := events + 1;
    }

    /** A follower that may take over from a leader being moved off. */
    predicate MayTakeOver(ref: Ref, part: Part, f: string)
      reads this`eligible
    {
      f in part.followers && f in eligible && !input.Evicted(f, part) && input.Synced(f, ref)
    }

    /** A leader that is being moved off starts to hand over as soon as some follower can take it. */
    method HandoffEvictedLeader(ref: Ref, part: Part) returns (p: Part)
      requires Ready() && PartOk(part, Members())
      modifies this`events
      ensures PartOk(p, Members()) && Later(part, p)
      ensures p == part || p == HandingTo(part, p.handoffTo, input.now, l.version)
      ensures p.state == HandingOff && part.state == Active ==>
        && input.Evicted(part.leader, part) && MayTakeOver(ref, part, p.handoffTo)
        && forall f :: MayTakeOver(ref, part, f) ==> !Fresher(ref, f, p.handoffTo)
      ensures part.leader != "" && part.state == Active && input.Evicted(part.leader, part) && (exists f :: MayTakeOver(ref, part, f)) ==>
        p.state == HandingOff
      ensures part.state == Active ==>
        (p.state == HandingOff <==>
          && part.leader != "" && (part.leader in input.drained || part.leader in part.evict)
          && exists f :: f in part.followers && f in eligible && f !in part.evict && input.StatusOf(f, ref).Some? && input.StatusOf(f, ref).value.synced)
      ensures part.state == Active && p.state == HandingOff ==>
        && p.handoffTo in part.followers && p.handoffTo in eligible && p.handoffTo !in part.evict && p.handoffAt == input.now
        && input.StatusOf(p.handoffTo, ref).Some? && input.StatusOf(p.handoffTo, ref).value.synced
        && forall f :: f in part.followers && f in eligible && f !in part.evict && input.StatusOf(f, ref).Some? && input.StatusOf(f, ref).value.synced ==>
             var x, y := input.StatusOf(f, ref).value, input.StatusOf(p.handoffTo, ref).value;
             x.dataEpoch < y.dataEpoch || (x.dataEpoch == y.dataEpoch && x.number <= y.number)
      ensures part.state == HandingOff ==> p == part
      ensures part.leader == "" || !input.Evicted(part.leader, part) ==> p == part && events == old(events)
    {
      p := part;
      if part.leader == "" || part.state == HandingOff || !input.Evicted(part.leader, part) {
        return;
      }
      var candidates := [];
      for i := 0 to |part.followers|
        invariant forall f :: f in candidates <==> f in part.followers[..i] && f in eligible && !input.Evicted(f, part)
      {
        var f := part.followers[i];
        assert part.followers[..i + 1] == part.followers[..i] + [f];
        if f in eligible && !input.Evicted(f, part) {
          candidates := candidates + [f];
        }
      }
      assert part.followers[..|part.followers|] == part.followers;
      assert forall f :: MayTakeOver(ref, part, f) <==> f in candidates && input.Synced(f, ref);
      var target := MostUpToDate(ref, candidates, true);
      if target != "" {
        p := StartHandoff(part, target);
      }
    }

    // ----- number of copies -----

    function DesiredCopies(): nat
      reads this`eligible
    {
      Desired(input.config, |eligible|)
    }

    method CountCopies(part: Part) returns (inSync: nat, joining: nat)
      requires part.leader != ""
      ensures inSync == KeptInSync(part, input.drained)
      ensures joining == CountKept(part.joining, input.drained, part.evict)
    {
      inSync, joining := 0, 0;
      if !input.Evicted(part.leader, part) {
        inSync := 1;
      }
      ghost var leader := [part.leader];
      assert leader[..0] == [];
      for i := 0 to |part.followers|
        invariant inSync == CountKept(leader, input.drained, part.evict) + CountKept(part.followers[..i], input.drained, part.evict)
      {
        assert part.followers[..i + 1][..i] == part.followers[..i];
        if !input.Evicted(part.followers[i], part) {
          inSync := inSync + 1;
        }
      }
      for i := 0 to |part.joining|
        invariant joining == CountKept(part.joining[..i], input.drained, part.evict)
      {
        assert part.joining[..i + 1][..i] == part.joining[..i];
        if !input.Evicted(part.joining[i], part) {
          joining := joining + 1;
        }
      }
      assert part.followers[..|part.followers|] == part.followers && part.joining[..|part.joining|] == part.joining;
      CountKeptConcat(leader, part.followers, input.drained, part.evict);
    }

    /** Lets idle nodes join until there are enough copies or every eligible node has one. */
    method AddCopies(part: Part, inSync: nat, joining0: nat, desired: nat) returns (p: Part, joining: nat)
      requires Ready() && PartOk(part, Members()) && part.leader != ""
      requires joining0 == CountKept(part.joining, input.drained, part.evict)
      modifies this`load, this`events
      ensures Ready() && PartOk(p, Members()) && Tracks(eligible, old(load), load, part, p)
      ensures p == part.(joining := p.joining) && forall n :: n in part.joining ==> n in p.joining
      ensures joining == CountKept(p.joining, input.drained, p.evict)
      ensures inSync + joining < desired ==> forall n :: n in eligible ==> p.Has(n)
      ensures joining0 <= joining && (joining > joining0 ==> inSync + joining <= desired)
      ensures Idlest(old(load), part, p) && |p.joining| - |part.joining| == joining - joining0
      ensures inSync + joining0 >= desired ==> p == part && load == old(load) && events == old(events)
    {
      hide PartOk, Contrib, CountKept, Tracks, Idlest, Untouched;
      p, joining := part, joining0;
      TracksSame(eligible, load, part);
      IdlestAtFirst(load, part);
      while inSync + joining < desired
        invariant Ready() && PartOk(p, Members()) && Tracks(eligible, old(load), load, part, p)
        invariant p == part.(joining := p.joining) && forall n :: n in part.joining ==> n in p.joining
        invariant joining == CountKept(p.joining, input.drained, p.evict)
        invariant joining0 <= joining && (joining > joining0 ==> inSync + joining <= desired)
        invariant Idlest(old(load), part, p) && Untouched(old(load), load, p)
        invariant |p.joining| - |part.joining| == joining - joining0
        invariant inSync + joining0 >= desired ==> p == part && load == old(load) && events == old(events)
        decreases desired - inSync - joining
      {
        var n := LeastLoaded(p);
        if n == "" {
          break;
        }
        CountKeptAppend(p.joining, n, input.drained, p.evict);
        AddJoiner(p, n, Members());
        TracksStep(eligible, old(load), load, part, p, p.(joining := p.joining + [n]), n, 1);
        IdlestStep(old(load), load, part, p, n);
        p := p.(joining := p.joining + [n]);
        joining := joining + 1;
        load := load[n := load[n] + 1];
        events := events + 1;
      }
    }

    /** The nodes that joined were no busier than any eligible node that did not. */
    ghost predicate Idlest(load: map<string, int>, part: Part, p: Part)
      reads this`eligible
    {
      forall n, m :: n in p.joining && n !in part.joining && m in eligible && !p.Has(m) && n in load && m in load ==> load[n] <= load[m]
    }

    static ghost predicate Untouched(load: map<string, int>, load': map<string, int>, p: Part) {
      load'.Keys == load.Keys && forall n :: n in load && !p.Has(n) ==> load'[n] == load[n]
    }

    lemma IdlestAtFirst(load: map<string, int>, part: Part)
      ensures Idlest(load, part, part) && Untouched(load, load, part)
    {}

    lemma IdlestStep(load0: map<string, int>, load: map<string, int>, part: Part, p: Part, n: string)
      requires Idlest(load0, part, p) && Untouched(load0, load, p) && n in load && !p.Has(n)
      requires forall m :: m in eligible && m in load && !p.Has(m) ==> load[n] <= load[m]
      ensures var p' := p.(joining := p.joining + [n]); Idlest(load0, part, p') && Untouched(load0, load[n := load[n] + 1], p')
    {}

    lemma NobodyJoined(load: map<string, int>, part: Part, p: Part)
      requires p.joining == []
      ensures Idlest(load, part, p)
    {}

    lemma NobodyDropped(load: map<string, int>, part: Part, p: Part)
      requires p.followers == part.followers
      ensures BusiestFirst(load, part, p)
    {}

    /** Forgetting done evictions does not change which choices were made. */
    lemma ChoicesKept(load: map<string, int>, part: Part, q: Part, p: Part)
      requires Idlest(load, part, q) && BusiestFirst(load, part, q)
      requires p == q.(evict := p.evict) && forall f :: Spare(p, f) <==> Spare(q, f)
      ensures Idlest(load, part, p) && BusiestFirst(load, part, p)
    {}

    lemma BusiestStep(load0: map<string, int>, load: map<string, int>, part: Part, p: Part, victim: string)
      requires BusiestFirst(load0, part, p) && Spare(p, victim) && victim in load && load.Keys == load0.Keys
      requires forall n :: n in p.followers && n in load ==> load[n] == load0[n]
      requires forall f :: Spare(p, f) && f in load ==> load[f] <= load[victim]
      ensures var p' := p.(followers := Removed(p.followers, victim));
        && BusiestFirst(load0, part, p')
        && forall n :: n in p'.followers && n in load ==> load[victim := load[victim] - 1][n] == load0[n]
    {
      var p' := p.(followers := Removed(p.followers, victim));
      assert forall g :: Spare(p', g) ==> Spare(p, g);
    }

    /** The followers given up were no less busy than any spare one that stays. */
    ghost predicate BusiestFirst(load: map<string, int>, part: Part, p: Part) {
      forall f, g :: f in part.followers && f !in p.followers && !input.Evicted(f, part) && Spare(p, g) && f in load && g in load ==>
        load[g] <= load[f]
    }

    static lemma AddJoiner(p: Part, n: string, members: set<string>)
      requires PartOk(p, members) && n in members && !p.Has(n)
      ensures n !in p.evict
      ensures var p' := p.(joining := p.joining + [n]);
        && PartOk(p', members)
        && Contrib(p', n) == Contrib(p, n) + 1 && forall m :: m != n ==> Contrib(p', m) == Contrib(p, m)
    {}

    /** Removes the copies that are to be moved off, except the target of a handoff. */
    method DropEvicted(part: Part) returns (p: Part)
      requires Ready() && Core(part, Members())
      modifies this`events
      ensures Core(p, Members()) && p == part.(followers := p.followers, joining := p.joining)
      ensures forall n :: n in p.followers <==> n in part.followers && (!input.Evicted(n, part) || n == part.handoffTo)
      ensures forall n :: n in p.joining <==> n in part.joining && (!input.Evicted(n, part) || n == part.handoffTo)
      ensures CountKept(p.followers, input.drained, p.evict) == CountKept(part.followers, input.drained, part.evict)
      ensures (forall n :: n in part.followers || n in part.joining ==> !input.Evicted(n, part)) ==> p == part && events == old(events)
    {
      hide Core, CountKept, Distinct, Ready, Part.Has;
      p := part;
      var all := part.followers + part.joining;
      for i := 0 to |all|
        invariant Core(p, Members()) && p == part.(followers := p.followers, joining := p.joining)
        invariant forall n :: n in p.followers <==> n in part.followers && !(n in all[..i] && input.Evicted(n, part) && n != part.handoffTo)
        invariant forall n :: n in p.joining <==> n in part.joining && !(n in all[..i] && input.Evicted(n, part) && n != part.handoffTo)
        invariant CountKept(p.followers, input.drained, p.evict) == CountKept(part.followers, input.drained, part.evict)
        invariant (forall n :: n in part.followers || n in part.joining ==> !input.Evicted(n, part)) ==> p == part && events == old(events)
      {
        var n := all[i];
        assert all[..i + 1] == all[..i] + [n];
        if input.Evicted(n, part) && n != part.handoffTo {
          DropBoth(p, n, input.drained, Members());
          var followers := RemoveString(p.followers, n);
          var joining := RemoveString(p.joining, n);
          p := p.(followers := followers, joining := joining);
          events := events + 1;
        }
      }
      assert all[..|all|] == all;
    }

    static lemma DropBoth(p: Part, n: string, drained: set<string>, members: set<string>)
      requires Core(p, members) && n != p.handoffTo && (n in drained || n in p.evict)
      ensures Core(p.(followers := Removed(p.followers, n), joining := Removed(p.joining, n)), members)
      ensures CountKept(Removed(p.followers, n), drained, p.evict) == CountKept(p.followers, drained, p.evict)
    {
      RemovedDistinct(p.followers, n);
      RemovedDistinct(p.joining, n);
      CountKeptRemoved(p.followers, n, drained, p.evict);
    }

    /** A follower that may be given up. */
    predicate Spare(part: Part, f: string) { f in part.followers && !input.Evicted(f, part) && f != part.handoffTo }

    /** The busiest follower that may be given up. */
    method Victim(part: Part) returns (victim: string)
      requires Ready() && Core(part, Members())
      ensures victim == "" <==> forall f :: !Spare(part, f)
      ensures victim != "" ==> Spare(part, victim) && victim in load
      ensures victim != "" ==> forall f :: Spare(part, f) && f in load ==> load[f] <= load[victim]
    {
      victim := "";
      for i := 0 to |part.followers|
        invariant victim != "" ==> Spare(part, victim)
        invariant forall j :: 0 <= j < i && Spare(part, part.followers[j]) ==> victim != "" && load[part.followers[j]] <= load[victim]
      {
        var f := part.followers[i];
        if Spare(part, f) && (victim == "" || load[f] >= load[victim]) {
          victim := f;
        }
      }
    }

    /** Gives up surplus in-sync copies, the busiest nodes first. */
    method DropSurplus(part: Part, inSync: nat, desired: nat) returns (p: Part)
      requires Ready() && Core(part, Members()) && inSync == KeptInSync(part, input.drained) && part.leader != ""
      modifies this`load, this`events
      ensures Ready() && Core(p, Members()) && Tracks(eligible, old(load), load, part, p)
      ensures p == part.(followers := p.followers) && forall n :: n in p.followers ==> n in part.followers
      ensures forall n :: n in part.followers && !Spare(part, n) ==> n in p.followers
      ensures inSync >= desired ==> KeptInSync(p, input.drained) >= desired
      ensures KeptInSync(p, input.drained) > desired ==> forall f :: !Spare(p, f)
      ensures BusiestFirst(old(load), part, p)
      ensures inSync <= desired ==> p == part && load == old(load) && events == old(events)
    {
      hide Core, Contrib, KeptInSync, Tracks, BusiestFirst;
      p := part;
      var left := inSync;
      TracksSame(eligible, load, part);
      NobodyDropped(load, part, part);
      while left > desired
        invariant Ready() && Core(p, Members()) && Tracks(eligible, old(load), load, part, p)
        invariant p == part.(followers := p.followers) && forall n :: n in p.followers ==> n in part.followers
        invariant forall n :: n in part.followers && !Spare(part, n) ==> n in p.followers
        invariant left == KeptInSync(p, input.drained) && (inSync >= desired ==> left >= desired)
        invariant BusiestFirst(old(load), part, p) && load.Keys == old(load).Keys
        invariant forall n :: n in p.followers && n in load ==> load[n] == old(load)[n]
        invariant inSync <= desired ==> p == part && load == old(load) && events == old(events)
        decreases left
      {
        var victim := Victim(p);
        if victim == "" {
          break;
        }
        DropFollower(p, victim, input.drained, Members());
        TracksStep(eligible, old(load), load, part, p, p.(followers := Removed(p.followers, victim)), victim, -1);
        BusiestStep(old(load), load, part, p, victim);
        var followers := RemoveString(p.followers, victim);
        p := p.(followers := followers);
        left := left - 1;
        load := load[victim := load[victim] - 1];
        events := events + 1;
      }
    }

    static lemma DropFollower(p: Part, f: string, drained: set<string>, members: set<string>)
      requires Core(p, members) && f in p.followers && f != p.handoffTo && f !in drained && f !in p.evict && p.leader != ""
      ensures var p' := p.(followers := Removed(p.followers, f));
        && Core(p', members) && KeptInSync(p', drained) == KeptInSync(p, drained) - 1
        && Contrib(p', f) == Contrib(p, f) - 1 && forall m :: m != f ==> Contrib(p', m) == Contrib(p, m)
    {
      RemovedDistinct(p.followers, f);
      CountKeptRemoved(p.followers, f, drained, p.evict);
      CountKeptConcat([p.leader], p.followers, drained, p.evict);
      CountKeptConcat([p.leader], Removed(p.followers, f), drained, p.evict);
    }

    /** Cancels all joiners that are not being moved off anyway. */
    method CancelJoining(part: Part) returns (p: Part)
      requires Ready() && Core(part, Members())
      modifies this`load, this`events
      ensures Ready() && Core(p, Members()) && Tracks(eligible, old(load), load, part, p)
      ensures p == part.(joining := p.joining)
      ensures forall n :: n in p.joining <==> n in part.joining && input.Evicted(n, part)
      ensures part.joining == [] ==> p == part && load == old(load) && events == old(events)
    {
      hide Core, Contrib, Distinct, Tracks;
      p := part;
      CoreJoining(part, Members());
      TracksSame(eligible, load, part);
      for i := 0 to |part.joining|
        invariant Ready() && Core(p, Members()) && Tracks(eligible, old(load), load, part, p)
        invariant p == part.(joining := p.joining)
        invariant forall n :: n in p.joining <==> n in part.joining && !(n in part.joining[..i] && !input.Evicted(n, part))
        invariant i == 0 ==> p == part && load == old(load) && events == old(events)
      {
        var j := part.joining[i];
        assert part.joining[..i + 1] == part.joining[..i] + [j];
        if !input.Evicted(j, part) {
          assert j !in part.joining[..i];
          DropJoiner(p, j, Members());
          TracksStep(eligible, old(load), load, part, p, p.(joining := Removed(p.joining, j)), j, -1);
          var joining := RemoveString(p.joining, j);
          p := p.(joining := joining);
          load := load[j := load[j] - 1];
          events := events + 1;
        }
      }
      assert part.joining[..|part.joining|] == part.joining;
    }

    static lemma CoreJoining(p: Part, members: set<string>)
      requires Core(p, members)
      ensures Distinct(p.joining) && forall i, j :: 0 <= i < j < |p.joining| ==> p.joining[i] != p.joining[j]
      ensures forall n :: n in p.joining ==> n in members
    {}

    static lemma DropJoiner(p: Part, j: string, members: set<string>)
      requires Core(p, members) && j in p.joining && j !in p.evict
      ensures var p' := p.(joining := Removed(p.joining, j));
        && Core(p', members)
        && Contrib(p', j) == Contrib(p, j) - 1 && forall m :: m != j ==> Contrib(p', m) == Contrib(p, m)
    {
      RemovedDistinct(p.joining, j);
    }

    /** Forgets evictions that are done. */
    method FilterEvict(part: Part) returns (p: Part)
      requires Core(part, Members()) && part.leader != ""
      ensures Core(p, Members()) && EvictsHolders(p) && p == part.(evict := p.evict)
      ensures forall n :: part.Has(n) && n != "" ==> (n in p.evict <==> n in part.evict)
      ensures part.evict == [] ==> p == part
    {
      var evict := [];
      for i := 0 to |part.evict|
        invariant Distinct(evict) && forall n :: n in evict <==> n in part.evict[..i] && part.Has(n)
        invariant part.evict == [] ==> evict == []
      {
        var n := part.evict[i];
        assert part.evict[..i + 1] == part.evict[..i] + [n];
        if part.Has(n) {
          assert n !in part.evict[..i];
          evict := evict + [n];
        }
      }
      assert part.evict[..|part.evict|] == part.evict;
      p := part.(evict := evict);
    }

    predicate Settled(part: Part)
      reads this`eligible
    {
      StablePart(part, DesiredCopies(), input.drained)
    }

    /** The copies that go once enough are in sync; the order of the steps matters for the load. */
    method Trim(part: Part, inSync: nat, desired: nat) returns (p: Part)
      requires Ready() && Core(part, Members()) && inSync == KeptInSync(part, input.drained) && part.leader != "" && inSync >= desired
      modifies this`load, this`events
      ensures Ready() && Core(p, Members()) && Tracks(eligible, old(load), load, part, p)
      ensures p == part.(followers := p.followers, joining := p.joining)
      ensures forall n :: n in p.followers ==> n in part.followers && (!input.Evicted(n, part) || n == part.handoffTo)
      ensures part.handoffTo in part.followers ==> part.handoffTo in p.followers
      ensures p.joining == []
      ensures KeptInSync(p, input.drained) >= desired
      ensures KeptInSync(p, input.drained) > desired ==> forall f :: !Spare(p, f)
      ensures BusiestFirst(old(load), part, p)
      ensures part.joining == [] && inSync == desired && (forall n :: n in part.followers ==> !input.Evicted(n, part)) ==>
        p == part && load == old(load) && events == old(events)
    {
      hide Core, KeptInSync, CountKept, Ready, Distinct, BusiestFirst;
      var a := DropEvicted(part);
      assert KeptInSync(a, input.drained) == inSync by { SameKept(part, a, input.drained); }
      DropEvictedLoad(part, a);
      var b := DropSurplus(a, inSync, desired);
      p := CancelJoining(b);
      TrimJoining(part, a, p);
      assert forall f :: Spare(p, f) <==> Spare(b, f);
      TrimBusiest(old(load), part, a, b, p);
      assert KeptInSync(p, input.drained) == KeptInSync(b, input.drained) by { SameKept(b, p, input.drained); }
    }

    static lemma SameKept(p: Part, p': Part, drained: set<string>)
      requires p'.leader == p.leader && p'.evict == p.evict && p.leader != ""
      requires CountKept(p'.followers, drained, p.evict) == CountKept(p.followers, drained, p.evict)
      ensures KeptInSync(p', drained) == KeptInSync(p, drained)
    {
      CountKeptConcat([p.leader], p.followers, drained, p.evict);
      CountKeptConcat([p.leader], p'.followers, drained, p.evict);
    }

    /** Copies being moved off carry no load. */
    lemma DropEvictedLoad(part: Part, p: Part)
      requires Ready() && p.evict == part.evict && p.leader == part.leader
      requires forall n :: n in p.followers <==> n in part.followers && (!input.Evicted(n, part) || n == part.handoffTo)
      requires forall n :: n in p.joining <==> n in part.joining && (!input.Evicted(n, part) || n == part.handoffTo)
      ensures forall n :: n in eligible ==> Contrib(p, n) == Contrib(part, n)
    {}

    lemma TrimBusiest(load: map<string, int>, part: Part, a: Part, b: Part, p: Part)
      requires BusiestFirst(load, a, b) && p.followers == b.followers && a.evict == part.evict
      requires forall n :: n in part.followers && !input.Evicted(n, part) ==> n in a.followers
      requires forall f :: Spare(p, f) <==> Spare(b, f)
      ensures BusiestFirst(load, part, p)
    {}

    /** After the evicted and the kept joiners are gone, none is left. */
    lemma TrimJoining(part: Part, a: Part, p: Part)
      requires Core(part, Members()) && a.evict == part.evict
      requires forall n :: n in a.joining ==> n in part.joining && (!input.Evicted(n, part) || n == part.handoffTo)
      requires forall n :: n in p.joining ==> n in a.joining && input.Evicted(n, a)
      ensures p.joining == []
    {
      NonEmptyHas(p.joining);
    }

    /**
     * Adds copies while there are too few and removes surplus ones only once enough are in sync.
     * The leader and the target of a handoff always stay, copies to keep never fall below the
     * desired number if they reached it, and being short means no eligible node is left.
     */
    method FixReplicaCount(ref: Ref, part: Part) returns (p: Part)
      requires Ready() && PartOk(part, Members())
      modifies this`load, this`events
      ensures Ready() && PartOk(p, Members()) && Later(part, p) && Tracks(eligible, old(load), load, part, p)
      ensures p == part.(followers := p.followers, joining := p.joining, evict := p.evict)
      ensures part.leader == "" || DesiredCopies() == 0 ==> p == part
      ensures part.handoffTo in part.followers ==> part.handoffTo in p.followers
      ensures KeptInSync(p, input.drained) >= if KeptInSync(part, input.drained) < DesiredCopies() then KeptInSync(part, input.drained) else DesiredCopies()
      ensures KeptInSync(part, input.drained) < DesiredCopies() ==> p.followers == part.followers && forall n :: n in part.joining ==> n in p.joining
      ensures Idlest(old(load), part, p) && BusiestFirst(old(load), part, p)
      ensures |p.joining| > |part.joining| ==> KeptInSync(p, input.drained) + CountKept(p.joining, input.drained, p.evict) <= DesiredCopies()
      ensures part.leader != "" && KeptInSync(p, input.drained) + CountKept(p.joining, input.drained, p.evict) < DesiredCopies() ==>
        forall n :: n in eligible ==> p.Has(n)
      ensures part.leader != "" && 0 < DesiredCopies() <= KeptInSync(part, input.drained) ==>
        && p.joining == [] && (forall n :: n in p.followers ==> !input.Evicted(n, p) || n == p.handoffTo)
        && (KeptInSync(p, input.drained) > DesiredCopies() ==> forall f :: !Spare(p, f))
        && (KeptInSync(p, input.drained) > DesiredCopies() ==>
              forall f :: f in p.followers ==> f in input.drained || f in p.evict || f == p.handoffTo)
      ensures part.leader != "" && eligible != [] ==>
        || KeptInSync(p, input.drained) + CountKept(p.joining, input.drained, p.evict) >=
             (if input.config.factor < 1 then 1 else if input.config.factor > |eligible| then |eligible| else input.config.factor)
        || forall n :: n in eligible ==> p.Has(n)
      ensures Settled(part) ==> p == part && load == old(load) && events == old(events)
    {
      hide Core, KeptInSync, CountKept, Ready, Distinct, Contrib, Idlest, BusiestFirst, Tracks, PartOk;
      p := FixCopies(part);
      assert forall f :: f in p.followers && f !in input.drained && f !in p.evict && f != p.handoffTo ==> Spare(p, f);
    }

    method FixCopies(part: Part) returns (p: Part)
      requires Ready() && PartOk(part, Members())
      modifies this`load, this`events
      ensures Ready() && PartOk(p, Members()) && Later(part, p) && Tracks(eligible, old(load), load, part, p)
      ensures p == part.(followers := p.followers, joining := p.joining, evict := p.evict)
      ensures part.leader == "" || DesiredCopies() == 0 ==> p == part
      ensures part.handoffTo in part.followers ==> part.handoffTo in p.followers
      ensures KeptInSync(p, input.drained) >= if KeptInSync(part, input.drained) < DesiredCopies() then KeptInSync(part, input.drained) else DesiredCopies()
      ensures KeptInSync(part, input.drained) < DesiredCopies() ==> p.followers == part.followers && forall n :: n in part.joining ==> n in p.joining
      ensures Idlest(old(load), part, p) && BusiestFirst(old(load), part, p)
      ensures |p.joining| > |part.joining| ==> KeptInSync(p, input.drained) + CountKept(p.joining, input.drained, p.evict) <= DesiredCopies()
      ensures part.leader != "" && KeptInSync(p, input.drained) + CountKept(p.joining, input.drained, p.evict) < DesiredCopies() ==>
        forall n :: n in eligible ==> p.Has(n)
      ensures part.leader != "" && 0 < DesiredCopies() <= KeptInSync(part, input.drained) ==>
        && p.joining == [] && (forall n :: n in p.followers ==> !input.Evicted(n, p) || n == p.handoffTo)
        && (KeptInSync(p, input.drained) > DesiredCopies() ==> forall f :: !Spare(p, f))
      ensures Settled(part) ==> p == part && load == old(load) && events == old(events)
    {
      hide Core, KeptInSync, CountKept, Ready, Distinct, Contrib, Idlest, BusiestFirst;
      p := part;
      var desired := DesiredCopies();
      IdlestAtFirst(load, part);
      NobodyDropped(load, part, part);
      if part.leader == "" || desired == 0 {
        return;
      }
      SettledCounts(part);
      var inSync, joining := CountCopies(part);
      p, joining := AddCopies(part, inSync, joining, desired);
      SameKept(part, p, input.drained);
      NobodyDropped(old(load), part, p);
      if inSync >= desired {
        p := Trim(p, inSync, desired);
        NobodyJoined(old(load), part, p);
      }
      ghost var q := p;
      p := FilterEvict(p);
      FilterKept(q, p, input.drained, Members());
      EligibleNamed();
      assert forall f :: Spare(p, f) <==> Spare(q, f);
      ChoicesKept(old(load), part, q, p);
    }

    lemma EligibleNamed()
      requires Ready()
      ensures "" !in eligible
    {}

    lemma SettledCounts(part: Part)
      ensures Settled(part) ==> KeptInSync(part, input.drained) == DesiredCopies()
    {
      CountKeptAll([part.leader] + part.followers, input.drained, part.evict);
    }

    static lemma FilterKept(p: Part, p': Part, drained: set<string>, members: set<string>)
      requires Core(p, members) && p' == p.(evict := p'.evict)
      requires forall n :: p.Has(n) && n != "" ==> (n in p'.evict <==> n in p.evict)
      ensures KeptInSync(p', drained) == KeptInSync(p, drained)
      ensures CountKept(p'.joining, drained, p'.evict) == CountKept(p.joining, drained, p.evict)
      ensures forall n :: n != "" ==> Contrib(p', n) == Contrib(p, n)
      ensures forall n :: n in p.followers ==> (n in p'.evict <==> n in p.evict)
    {
      CountKeptEvict(p.joining, drained, p.evict, p'.evict);
      CountKeptEvict((if p.leader != "" then [p.leader] else []) + p.followers, drained, p.evict, p'.evict);
    }

    // ----- all partitions -----

    ghost predicate Visitable(phase: Phase, part: Part)
      reads this`l
    {
      if phase == Failing then Orphanable(part, Members()) else PartOk(part, Members())
    }

    method Visit(phase: Phase, ref: Ref, part: Part) returns (p: Part)
      requires Ready() && Visitable(phase, part)
      modifies this`load, this`events
      ensures Ready() && PartOk(p, Members()) && Later(part, p) && Tracks(eligible, old(load), load, part, p)
      ensures Stepped(phase, input, l.version, ref, part, p)
      ensures Settled(part) ==> p == part && load == old(load) && events == old(events)
    {
      hide PartOk, Orphanable, Core, KeptInSync, CountKept, Distinct;
      match phase
      case Failing => p := Failover(ref, part);
      case Promoting => p := PromoteJoiners(ref, part);
      case Progressing => p := ProgressHandoff(ref, part);
      case Evicting => p := HandoffEvictedLeader(ref, part);
      case Repairing => p := FixReplicaCount(ref, part);
    }

    method VisitAll(phase: Phase, generation: int, parts: seq<Part>) returns (out: seq<Part>)
      requires Ready() && forall i :: 0 <= i < |parts| ==> parts[i].id == i && Visitable(phase, parts[i])
      modifies this`load, this`events
      ensures Ready() && |out| == |parts| && Passed(phase, input, l, generation, parts, out)
      ensures load.Keys == old(load).Keys
      ensures forall n :: n in eligible && n in load ==> load[n] - old(load)[n] == LoadOf(out, n) - LoadOf(parts, n)
      ensures (forall i :: 0 <= i < |parts| ==> Settled(parts[i])) ==> out == parts && load == old(load) && events == old(events)
    {
      hide PartOk, Orphanable, Ready, Later, Stepped, LoadOf, Contrib, Visitable, Settled, Passed;
      out := [];
      PassedNone(phase, input, l, generation, parts);
      LoadPrefix(parts, 0);
      LoadPrefix(out, 0);
      for i := 0 to |parts|
        invariant Ready() && |out| == i && Passed(phase, input, l, generation, parts, out)
        invariant load.Keys == old(load).Keys
        invariant forall n :: n in eligible && n in load ==> load[n] - old(load)[n] == LoadOf(out, n) - LoadOf(parts[..i], n)
        invariant (forall j :: 0 <= j < |parts| ==> Settled(parts[j])) ==> out == parts[..i] && load == old(load) && events == old(events)
      {
        LoadPrefix(parts, i);
        var p := Visit(phase, Ref(generation, parts[i].id), parts[i]);
        PassedAppend(phase, input, l, generation, parts, out, p);
        forall n
          ensures LoadOf(out + [p], n) == LoadOf(out, n) + Contrib(p, n)
        {
          LoadAppend(out, p, n);
        }
        out := out + [p];
      }
      assert parts[..|parts|] == parts;
    }

    static lemma PassedNone(phase: Phase, input: Input, l: Layout, generation: int, parts: seq<Part>)
      ensures Passed(phase, input, l, generation, parts, [])
    {}

    static lemma PassedAppend(phase: Phase, input: Input, l: Layout, generation: int, parts: seq<Part>, out: seq<Part>, p: Part)
      requires Passed(phase, input, l, generation, parts, out) && |out| < |parts| && parts[|out|].id == |out|
      requires PartOk(p, l.members.Keys) && Later(parts[|out|], p)
      requires Stepped(phase, input, l.version, Ref(generation, |out|), parts[|out|], p)
      ensures Passed(phase, input, l, generation, parts, out + [p])
    {
      hide PartOk, Stepped;
    }

    static lemma LaterId(a: Part, b: Part)
      requires Later(a, b)
      ensures b.id == a.id
    {}

    static lemma LoadPrefix(parts: seq<Part>, i: nat)
      requires i <= |parts|
      ensures forall n :: LoadOf([], n) == 0 && LoadOf(parts[..0], n) == 0
      ensures i < |parts| ==> forall n :: LoadOf(parts[..i + 1], n) == LoadOf(parts[..i], n) + Contrib(parts[i], n)
    {
      if i < |parts| {
        assert parts[..i + 1][..i] == parts[..i];
      }
    }

    /** One phase over the whole layout. */
    method Each(phase: Phase)
      requires Ready() && Exact(l, eligible, load) && (if phase == Failing then Pruned(l) else WellFormed(l))
      modifies this`l, this`load, this`events
      ensures Ready() && Exact(l, eligible, load) && WellFormed(l)
      ensures l == WithParts(old(l), l.parts, NextParts(l)) && Evolves(old(l), l)
      ensures |l.parts| == |old(l).parts| && Passed(phase, input, old(l), l.generation, old(l).parts, l.parts)
      ensures |NextParts(l)| == |NextParts(old(l))| && Passed(phase, input, old(l), l.generation + 1, NextParts(old(l)), NextParts(l))
      ensures Calm(old(l)) ==> l == old(l) && events == old(events) && load == old(load)
    {
      hide PartOk, Later, LoadOf, Settled, Passed, Evolves, Framed, WellFormed, Pruned, Visitable;
      LayoutVisitable(phase);
      var parts := VisitAll(phase, l.generation, l.parts);
      var next := NextParts(l);
      if l.resharding.Some? {
        next := VisitAll(phase, l.resharding.value.generation, next);
      } else {
        PassedNothing(phase, input, l, l.generation + 1);
      }
      PassedLater(phase, input, l, l.generation, l.parts, parts);
      PassedLater(phase, input, l, l.generation + 1, NextParts(l), next);
      PartsEvolve(l, parts, next);
      l := WithParts(l, parts, next);
      FormedAgain(l);
    }

    static lemma FormedAgain(l: Layout)
      requires Framed(l) && PartsOk(l.parts, l.members.Keys) && PartsOk(NextParts(l), l.members.Keys)
      ensures WellFormed(l)
    {}

    /** Each phase finds the partitions as it needs them. */
    lemma LayoutVisitable(phase: Phase)
      requires if phase == Failing then Pruned(l) else WellFormed(l)
      ensures Framed(l)
      ensures l.resharding.Some? ==> l.resharding.value.generation == l.generation + 1
      ensures forall i :: 0 <= i < |l.parts| ==> l.parts[i].id == i && Visitable(phase, l.parts[i])
      ensures forall i :: 0 <= i < |NextParts(l)| ==> NextParts(l)[i].id == i && Visitable(phase, NextParts(l)[i])
    {
      hide PartOk, Orphanable;
    }

    static lemma PassedNothing(phase: Phase, input: Input, l: Layout, generation: int)
      ensures Passed(phase, input, l, generation, [], [])
    {}

    static lemma PassedLater(phase: Phase, input: Input, l: Layout, generation: int, parts: seq<Part>, out: seq<Part>)
      requires |out| == |parts| && Passed(phase, input, l, generation, parts, out)
      ensures PartsLater(parts, out) && PartsOk(out, l.members.Keys)
    {
      hide PartOk, Later, Stepped;
    }

    /** All partitions are settled and no resharding is under way. */
    predicate Calm(l: Layout)
      reads this`eligible
    {
      l.resharding.None? && forall i :: 0 <= i < |l.parts| ==> Settled(l.parts[i])
    }

    // ----- before the phases -----

    constructor (input: Input, l: Layout)
      ensures this.input == input && this.l == l && events == 0 && eligible == [] && load == map[]
    {
      this.input, this.l := input, l;
      eligible, load, events := [], map[], 0;
    }

    /** The very first layout: all partitions, none assigned. */
    method Bootstrap()
      requires WellFormed(l)
      modifies this`l, this`events
      ensures WellFormed(l) && Evolves(old(l), l) && l.generation >= 1
      ensures l == old(l).(generation := l.generation, count := l.count, parts := l.parts)
      ensures old(l).generation >= 1 ==> l.generation == old(l).generation
      ensures old(l).count > 0 || input.config.count <= 0 ==> l.count == old(l).count && l.parts == old(l).parts && events == old(events)
      ensures old(l).count == 0 && input.config.count > 0 ==>
        l.count == input.config.count && forall i :: 0 <= i < l.count ==> l.parts[i] == Unassigned(i)
    {
      hide PartOk;
      if l.generation == 0 {
        l := l.(generation := 1);
      }
      if l.count == 0 && input.config.count > 0 {
        var parts: seq<Part> := [];
        for i := 0 to input.config.count
          invariant |parts| == i && forall j :: 0 <= j < i ==> parts[j] == Unassigned(j)
        {
          parts := parts + [Unassigned(i)];
        }
        forall i | 0 <= i < |parts|
          ensures PartOk(parts[i], Members())
        {
          UnassignedOk(i, Members());
        }
        l := l.(count := input.config.count, parts := parts);
        events := events + 1;
      }
    }

    static lemma UnassignedOk(id: int, members: set<string>)
      requires "" !in members
      ensures PartOk(Unassigned(id), members)
    {}

    method Forget(part: Part, id: string) returns (p: Part)
      ensures p == Forgotten(part, id)
    {
      var followers := RemoveString(part.followers, id);
      var joining := RemoveString(part.joining, id);
      var evict := RemoveString(part.evict, id);
      p := part.(followers := followers, joining := joining, evict := evict);
      if part.leader == id {
        p := p.(leader := "");
      }
      if part.handoffTo == id {
        p := Cleared(p);
      }
    }

    method ForgetAll(parts: seq<Part>, id: string) returns (out: seq<Part>)
      ensures |out| == |parts| && forall i :: 0 <= i < |parts| ==> out[i] == Forgotten(parts[i], id)
    {
      out := [];
      for i := 0 to |parts|
        invariant |out| == i && forall j :: 0 <= j < i ==> out[j] == Forgotten(parts[j], id)
      {
        var p := Forget(parts[i], id);
        out := out + [p];
      }
    }

    static lemma ForgottenParts(input: Input, members: map<string, int>, was: seq<Part>, parts: seq<Part>, out: seq<Part>, now: set<string>, id: string)
      requires PartsOrphanable(parts, now) && AllShed(input, members, was, parts)
      requires |out| == |parts| && forall i :: 0 <= i < |parts| ==> out[i] == Forgotten(parts[i], id)
      requires !Alive(input, members, id) && id != ""
      ensures PartsOrphanable(out, now - {id}) && AllShed(input, members, was, out) && PartsLater(parts, out)
    {
      hide Orphanable, Shed, Forgotten, Later, Alive;
      forall i | 0 <= i < |parts|
        ensures Orphanable(out[i], now - {id}) && Shed(input, members, was[i], out[i]) && Later(parts[i], out[i]) && out[i].id == i
      {
        ForgottenOk(parts[i], id, now);
        ForgottenShed(input, members, was[i], parts[i], id);
        LaterId(parts[i], out[i]);
      }
    }

    /** Takes a lost node out of every partition and out of the members. */
    method RemoveNode(id: string, ghost was: Layout)
      requires Pruned(l) && id in l.members && !Alive(input, was.members, id)
      requires AllShed(input, was.members, was.parts, l.parts) && AllShed(input, was.members, NextParts(was), NextParts(l))
      modifies this`l
      ensures Pruned(l) && l.members == old(l).members - {id}
      ensures l == WithParts(old(l), l.parts, NextParts(l)).(members := l.members)
      ensures AllShed(input, was.members, was.parts, l.parts) && AllShed(input, was.members, NextParts(was), NextParts(l))
    {
      hide Shed, Alive, Orphanable, Forgotten, Later;
      var parts := ForgetAll(l.parts, id);
      var next := ForgetAll(NextParts(l), id);
      ForgottenParts(input, was.members, was.parts, l.parts, parts, l.members.Keys, id);
      ForgottenParts(input, was.members, NextParts(was), NextParts(l), next, l.members.Keys, id);
      l := WithParts(l, parts, next).(members := l.members - {id});
    }

    /**
     * Afterwards the members are the live nodes in their live incarnations, and a partition lost
     * its leader only if that node is gone or came back empty.
     */
    method Membership()
      requires WellFormed(l) && "" !in input.nodes
      modifies this`l, this`events
      ensures Pruned(l) && l.members == input.nodes
      ensures l == WithParts(old(l), l.parts, NextParts(l)).(members := l.members)
      ensures AllShed(input, old(l).members, old(l).parts, l.parts) && AllShed(input, old(l).members, NextParts(old(l)), NextParts(l))
      ensures OnlyAlive(input, old(l).members, l.parts) && OnlyAlive(input, old(l).members, NextParts(l))
      ensures old(l).members == input.nodes ==> l == old(l) && events == old(events)
    {
      hide Shed, Orphanable, Forgotten, Later;
      ghost var was := l;
      PrunedAtFirst(l);
      ShedNothing(input, l);
      var todo := l.members.Keys;
      while todo != {}
        invariant Pruned(l) && l == WithParts(was, l.parts, NextParts(l)).(members := l.members)
        invariant todo <= l.members.Keys && l.members.Keys <= was.members.Keys
        invariant forall id :: id in l.members ==> l.members[id] == was.members[id] && (id in todo || Alive(input, was.members, id))
        invariant AllShed(input, was.members, was.parts, l.parts) && AllShed(input, was.members, NextParts(was), NextParts(l))
        invariant was.members == input.nodes ==> l == was && events == old(events)
        decreases todo
      {
        var id :| id in todo;
        todo := todo - {id};
        if !(id in input.nodes && input.nodes[id] == l.members[id]) {
          RemoveNode(id, was);
          events := events + 1;
        }
      }
      AliveLeft(l, was.members);
      var joiners := input.nodes.Keys;
      while joiners != {}
        invariant Pruned(l) && l == WithParts(was, l.parts, NextParts(l)).(members := l.members)
        invariant joiners <= input.nodes.Keys
        invariant OnlyAlive(input, was.members, l.parts) && OnlyAlive(input, was.members, NextParts(l))
        invariant forall id :: id in l.members ==> id in input.nodes && l.members[id] == input.nodes[id]
        invariant forall id :: id in input.nodes ==> id in joiners || id in l.members
        invariant AllShed(input, was.members, was.parts, l.parts) && AllShed(input, was.members, NextParts(was), NextParts(l))
        invariant was.members == input.nodes ==> l == was && events == old(events)
        decreases joiners
      {
        var id :| id in joiners;
        joiners := joiners - {id};
        if id !in l.members {
          MoreMembers(l, id, input.nodes[id]);
          l := l.(members := l.members[id := input.nodes[id]]);
          events := events + 1;
        }
      }
      assert l.members == input.nodes;
    }

    /** Once all members are alive, so are all holders. */
    lemma AliveLeft(l: Layout, members: map<string, int>)
      requires Pruned(l) && forall n :: n in l.members ==> Alive(input, members, n)
      ensures OnlyAlive(input, members, l.parts) && OnlyAlive(input, members, NextParts(l))
    {
      hide Alive, Distinct;
    }

    static lemma PrunedAtFirst(l: Layout)
      requires WellFormed(l)
      ensures Pruned(l)
    {
      hide Core, EvictsHolders;
    }

    static lemma ShedNothing(input: Input, l: Layout)
      ensures AllShed(input, l.members, l.parts, l.parts) && AllShed(input, l.members, NextParts(l), NextParts(l))
    {}

    static lemma MoreMembers(l: Layout, id: string, incarnation: int)
      requires Pruned(l) && id != ""
      ensures Pruned(l.(members := l.members[id := incarnation]))
    {
      hide EvictsHolders;
    }

    // ----- load -----

    /** Adds the partition's copies to the load. */
    method CountHolders(part: Part)
      requires Ready() && Core(part, Members())
      modifies this`load
      ensures Ready() && load.Keys == old(load).Keys
      ensures forall n :: n in eligible ==> load[n] == old(load)[n] + Contrib(part, n)
    {
      hide Core;
      var hs := part.Holders();
      HoldersDistinct(part, Members());
      for i := 0 to |hs|
        invariant Ready() && load.Keys == old(load).Keys
        invariant forall n :: n in eligible ==>
          load[n] == old(load)[n] + (if n in hs[..i] && n !in part.evict then 1 else 0)
      {
        var h := hs[i];
        assert hs[..i + 1] == hs[..i] + [h] && h !in hs[..i];
        if h in eligible && !input.Evicted(h, part) {
          load := load[h := load[h] + 1];
        }
      }
      assert hs[..|hs|] == hs;
      EligibleNamed();
      forall n | n in eligible
        ensures n in hs <==> part.Has(n)
      {
        part.HoldersHas(n);
      }
    }

    method CountAll(parts: seq<Part>)
      requires Ready() && PartsOrphanable(parts, Members())
      modifies this`load
      ensures Ready() && load.Keys == old(load).Keys
      ensures forall n :: n in eligible ==> load[n] == old(load)[n] + LoadOf(parts, n)
    {
      hide Core, Contrib, LoadOf;
      LoadPrefix(parts, 0);
      for i := 0 to |parts|
        invariant Ready() && load.Keys == old(load).Keys
        invariant forall n :: n in eligible ==> load[n] == old(load)[n] + LoadOf(parts[..i], n)
      {
        LoadPrefix(parts, i);
        CountHolders(parts[i]);
      }
      assert parts[..|parts|] == parts;
    }

    /** Afterwards the load map is exact; the steps that follow keep it so. */
    method ComputeLoad()
      requires Pruned(l)
      modifies this`eligible, this`load
      ensures Ready() && Exact(l, eligible, load)
    {
      hide Orphanable, LoadOf;
      eligible, load := [], map[];
      var todo := l.members.Keys;
      while todo != {}
        invariant todo <= Members() && Distinct(eligible)
        invariant forall n :: n in eligible <==> n in Members() && n !in todo && n !in input.drained
        invariant forall n :: n in load <==> n in eligible
        invariant forall n :: n in load ==> load[n] == 0
        decreases todo
      {
        var id :| id in todo;
        todo := todo - {id};
        if id !in input.drained {
          eligible := eligible + [id];
          load := load[id := 0];
        }
      }
      CountAll(l.parts);
      CountAll(NextParts(l));
    }

    // ----- resharding -----

    /** May the next generation be set up now? */
    predicate MayReshard()
      reads this`l, this`eligible
    {
      && l.resharding.None? && input.config.count > 0 && input.config.count != l.count && l.count != 0 && eligible != []
      && forall i :: 0 <= i < |l.parts| ==> l.parts[i].Writable()
    }

    /** The eligible node leading the fewest of the new partitions; the less loaded one on a tie. */
    method PickLeader(leaders: map<string, int>) returns (best: string)
      requires Ready() && eligible != [] && forall n :: n in eligible ==> n in leaders
      ensures best in eligible
      ensures forall n :: n in eligible ==> leaders[best] < leaders[n] || (leaders[best] == leaders[n] && load[best] <= load[n])
    {
      best := "";
      for i := 0 to |eligible|
        invariant i > 0 ==> best in eligible
        invariant forall j :: 0 <= j < i ==>
          leaders[best] < leaders[eligible[j]] || (leaders[best] == leaders[eligible[j]] && load[best] <= load[eligible[j]])
      {
        var id := eligible[i];
        if i == 0 || leaders[id] < leaders[best] || (leaders[id] == leaders[best] && load[id] < load[best]) {
          best := id;
        }
      }
    }

    /** A new partition with exactly the desired number of distinct holders. */
    ghost predicate FullyPlaced(p: Part, id: int, copies: nat)
      reads this`eligible
    {
      && p == Unassigned(id).(epoch := 1, leader := p.leader, joining := p.joining)
      && p.leader in eligible && |p.Holders()| == copies && Distinct(p.Holders()) && forall n :: n in p.Holders() ==> n in eligible
    }

    method Place(id: int, leader: string) returns (p: Part)
      requires Ready() && leader in eligible
      modifies this`load
      ensures Ready() && PartOk(p, Members()) && p.leader == leader && p.id == id
      ensures FullyPlaced(p, id, DesiredCopies())
      ensures load.Keys == old(load).Keys && forall n :: n in eligible ==> load[n] == old(load)[n] + Contrib(p, n)
    {
      hide Contrib, PartOk, FullyPlaced;
      EligibleNamed();
      var copies := DesiredCopies();
      assert copies >= 1 by { NoLonger([leader], eligible); }
      p := Unassigned(id).(epoch := 1, leader := leader);
      OneHolder(p, Members());
      load := load[leader := load[leader] + 1];
      while |p.joining| + 1 < copies
        invariant Ready() && PartOk(p, Members()) && |p.joining| + 1 <= copies
        invariant p == Unassigned(id).(epoch := 1, leader := leader, joining := p.joining)
        invariant forall n :: n in p.joining ==> n in eligible
        invariant load.Keys == old(load).Keys && forall n :: n in eligible ==> load[n] == old(load)[n] + Contrib(p, n)
        decreases copies - |p.joining|
      {
        var n := LeastLoaded(p);
        RoomLeft(p);
        AddJoiner(p, n, Members());
        p := p.(joining := p.joining + [n]);
        load := load[n := load[n] + 1];
      }
      PlacedInFull(p, id, copies);
    }

    static lemma OneHolder(p: Part, members: set<string>)
      requires p == Unassigned(p.id).(epoch := 1, leader := p.leader) && p.leader in members && "" !in members
      ensures forall n :: Contrib(p, n) == if n == p.leader then 1 else 0
      ensures PartOk(p, members)
    {}

    lemma PlacedInFull(p: Part, id: int, copies: nat)
      requires Ready() && PartOk(p, Members()) && p.leader in eligible && (forall n :: n in p.joining ==> n in eligible)
      requires p == Unassigned(id).(epoch := 1, leader := p.leader, joining := p.joining) && |p.joining| + 1 == copies
      ensures FullyPlaced(p, id, copies)
    {
      HoldersDistinct(p, Members());
    }

    /** With fewer holders than eligible nodes, some eligible node has no copy. */
    lemma RoomLeft(p: Part)
      requires Ready() && p.followers == [] && p.leader != "" && 1 + |p.joining| < |eligible|
      ensures exists n :: n in eligible && !p.Has(n)
    {
      if forall n :: n in eligible ==> p.Has(n) {
        NoLonger(eligible, [p.leader] + p.joining);
        assert false;
      }
    }

    /** Leaderships of the new partitions so far, evenly spread. */
    ghost predicate Even(parts: seq<Part>, low: int)
      reads this`eligible
    {
      forall n :: n in eligible ==> low <= LeaderCount(parts, n) <= low + 1
    }

    /** Sets up all partitions of the next generation. */
    method PlaceAll(count: nat) returns (parts: seq<Part>, ghost low: int)
      requires Ready() && eligible != []
      modifies this`load
      ensures Ready() && load.Keys == old(load).Keys
      ensures |parts| == count && PartsOk(parts, Members()) && Even(parts, low)
      ensures forall i :: 0 <= i < count ==> FullyPlaced(parts[i], i, DesiredCopies())
      ensures forall n :: n in eligible ==> load[n] == old(load)[n] + LoadOf(parts, n)
    {
      hide PartOk, FullyPlaced, LoadOf, Contrib, LeaderCount, Even;
      parts, low := [], 0;
      var leaders: map<string, int> := map n | n in load :: 0;
      LoadPrefix(parts, 0);
      NoLeaders();
      EvenAtFirst();
      for i := 0 to count
        invariant Ready() && load.Keys == old(load).Keys && leaders.Keys == load.Keys
        invariant |parts| == i && PartsOk(parts, Members()) && Even(parts, low)
        invariant forall j :: 0 <= j < i ==> FullyPlaced(parts[j], j, DesiredCopies())
        invariant forall n :: n in eligible ==> leaders[n] == LeaderCount(parts, n)
        invariant forall n :: n in eligible ==> load[n] == old(load)[n] + LoadOf(parts, n)
      {
        var leader := PickLeader(leaders);
        var p := Place(i, leader);
        low := EvenStep(parts, p, low);
        leaders := leaders[leader := leaders[leader] + 1];
        forall n
          ensures LoadOf(parts + [p], n) == LoadOf(parts, n) + Contrib(p, n)
          ensures LeaderCount(parts + [p], n) == LeaderCount(parts, n) + (if p.leader == n then 1 else 0)
        {
          LoadAppend(parts, p, n);
          LeaderCountAppend(parts, p, n);
        }
        parts := parts + [p];
      }
    }

    lemma EvenAtFirst()
      ensures Even([], 0)
    {}

    /** Giving the next partition to a node that leads fewest keeps the spread at one. */
    lemma EvenStep(parts: seq<Part>, p: Part, low: int) returns (low': int)
      requires Even(parts, low) && p.leader in eligible
      requires forall n :: n in eligible ==> LeaderCount(parts, p.leader) <= LeaderCount(parts, n)
      ensures Even(parts + [p], low')
    {
      hide LeaderCount;
      low' := if LeaderCount(parts, p.leader) > low then low + 1 else low;
      forall n | n in eligible
        ensures low' <= LeaderCount(parts + [p], n) <= low' + 1
      {
        LeaderCountAppend(parts, p, n);
      }
    }

    static lemma NoLeaders()
      ensures forall n :: LeaderCount([], n) == 0
    {}

    /**
     * Enters the intermediate state: the next generation next to the current one, every new
     * partition with exactly the desired number of distinct holders and leaderships spread so
     * that no two eligible nodes differ by more than one.
     */
    method StartResharding()
      requires Ready() && WellFormed(l) && Exact(l, eligible, load)
      modifies this`l, this`load, this`events
      ensures Ready() && WellFormed(l) && Exact(l, eligible, load) && Evolves(old(l), l)
      ensures !old(MayReshard()) ==> l == old(l) && load == old(load) && events == old(events)
      ensures l != old(l) <==>
        && old(l).resharding.None? && input.config.count > 0 && input.config.count != old(l).count && old(l).count != 0 && eligible != []
        && forall i :: 0 <= i < |old(l).parts| ==> old(l).parts[i].leader != "" && old(l).parts[i].state == Active
      ensures l != old(l) ==> forall i :: 0 <= i < |NextParts(l)| ==>
        |NextParts(l)[i].Holders()| ==
          if input.config.factor < 1 then 1 else if input.config.factor > |eligible| then |eligible| else input.config.factor
      ensures old(MayReshard()) ==>
        && l == old(l).(resharding := l.resharding) && l.resharding.Some?
        && var r := l.resharding.value;
           && r.generation == l.generation + 1 && r.count == input.config.count && AllPending(r)
           && (forall i :: 0 <= i < r.count ==> FullyPlaced(r.parts[i], i, DesiredCopies()))
           && forall a, b :: a in eligible && b in eligible ==> LeaderCount(r.parts, a) - LeaderCount(r.parts, b) <= 1
    {
      hide PartOk, FullyPlaced, LoadOf, LeaderCount, Evolves;
      NothingEvolves(l);
      if l.resharding.Some? || input.config.count <= 0 || input.config.count == l.count || l.count == 0 || eligible == [] {
        return;
      }
      for i := 0 to |l.parts|
        invariant forall j :: 0 <= j < i ==> l.parts[j].Writable()
      {
        if !l.parts[i].Writable() {
          return;
        }
      }
      var count := input.config.count;
      var parts, _ := PlaceAll(count);
      var status := seq(count, _ => Pending);
      var r := Resharding(l.generation + 1, count, parts, status);
      SameEvolves(l, r);
      LoadPrefix([], 0);
      l := l.(resharding := Some(r));
      events := events + 1;
      PlacedCopies();
      forall i | 0 <= i < |NextParts(l)|
        ensures FullyPlaced(NextParts(l)[i], i, DesiredCopies())
      {
        assert NextParts(l)[i] == parts[i];
      }
    }

    lemma PlacedCopies()
      requires Ready() && eligible != []
      ensures forall p, i :: FullyPlaced(p, i, DesiredCopies()) ==>
        |p.Holders()| == if input.config.factor < 1 then 1 else if input.config.factor > |eligible| then |eligible| else input.config.factor
    {}

    static lemma SameEvolves(l: Layout, r: Resharding)
      requires Framed(l) && l.resharding.None?
      ensures Evolves(l, l.(resharding := Some(r)))
    {}

    // ----- balancing -----

    method Extremes() returns (hi: string, lo: string)
      requires Ready() && eligible != []
      ensures hi in eligible && lo in eligible
      ensures forall n :: n in eligible ==> load[lo] <= load[n] <= load[hi]
    {
      hi, lo := eligible[0], eligible[0];
      for i := 0 to |eligible|
        invariant hi in eligible && lo in eligible
        invariant forall j :: 0 <= j < i ==> load[lo] <= load[eligible[j]] <= load[hi]
        invariant load[lo] <= load[hi]
      {
        var id := eligible[i];
        if load[id] > load[hi] {
          hi := id;
        }
        if load[id] < load[lo] {
          lo := id;
        }
      }
    }

    /** A quiet partition that may move a copy to the node. */
    static predicate Movable(p: Part, to: string) {
      !p.pinned && p.state == Active && p.leader != "" && p.joining == [] && p.evict == [] && !p.Has(to)
    }

    static function Moving(p: Part, from: string, to: string): Part { p.(joining := [to], evict := [from]) }

    static lemma MovingOk(p: Part, from: string, to: string, members: set<string>)
      requires PartOk(p, members) && Movable(p, to) && to in members && from != "" && (p.leader == from || from in p.followers)
      ensures PartOk(Moving(p, from, to), members) && Later(p, Moving(p, from, to))
      ensures forall n :: Contrib(Moving(p, from, to), n) == Contrib(p, n) + (if n == to then 1 else 0) - (if n == from then 1 else 0)
    {}

    /** Finds the first partition to move a copy of, preferring those where no leadership has to move. */
    method FindMove(from: string, to: string) returns (found: Option<nat>)
      ensures found.Some? ==> found.value < |l.parts| && Movable(l.parts[found.value], to)
      ensures found.Some? ==> from in l.parts[found.value].followers || l.parts[found.value].leader == from
      ensures found.Some? && from !in l.parts[found.value].followers ==>
        forall i :: 0 <= i < |l.parts| ==> !Movable(l.parts[i], to) || from !in l.parts[i].followers
      ensures found.None? ==> NoMove(l.parts, from, to)
    {
      for i := 0 to |l.parts|
        invariant forall j :: 0 <= j < i ==> !Movable(l.parts[j], to) || from !in l.parts[j].followers
      {
        if Movable(l.parts[i], to) && from in l.parts[i].followers {
          return Some(i);
        }
      }
      for i := 0 to |l.parts|
        invariant forall j :: 0 <= j < i ==> !Movable(l.parts[j], to) || l.parts[j].leader != from
      {
        if Movable(l.parts[i], to) && l.parts[i].leader == from {
          return Some(i);
        }
      }
      found := None;
    }

    /** Starts one move: the total load stays, the sum of its squares falls by at least two. */
    method MoveReplica(from: string, to: string) returns (moved: bool)
      requires Ready() && WellFormed(l) && Exact(l, eligible, load) && l.resharding.None?
      requires from in eligible && to in eligible && load[from] - load[to] >= 2
      modifies this`l, this`load, this`events
      ensures Ready() && WellFormed(l) && Exact(l, eligible, load) && Evolves(old(l), l)
      ensures l == old(l).(parts := l.parts) && Kept(old(l).parts, l.parts)
      ensures !moved ==> l == old(l) && load == old(load) && events == old(events) && NoMove(l.parts, from, to)
      ensures moved ==>
        && (exists i :: 0 <= i < |l.parts| && Movable(old(l).parts[i], to) && l.parts == old(l).parts[i := Moving(old(l).parts[i], from, to)])
        && Total(eligible, load) == Total(eligible, old(load)) && Squares(eligible, load) <= Squares(eligible, old(load)) - 2
      ensures moved <==> exists i :: 0 <= i < |old(l).parts| && var p := old(l).parts[i];
        && !p.pinned && p.state == Active && p.leader != "" && p.joining == [] && p.evict == [] && !p.Has(to)
        && (from in p.followers || p.leader == from)
      ensures moved ==> exists i :: 0 <= i < |l.parts| && var p := old(l).parts[i];
        && !p.pinned && p.state == Active && p.leader != "" && p.joining == [] && p.evict == [] && !p.Has(to)
        && l.parts == old(l).parts[i := p.(joining := [to], evict := [from])]
        && (from in p.followers || (p.leader == from && forall j :: 0 <= j < |old(l).parts| && from in old(l).parts[j].followers ==>
              var q := old(l).parts[j];
              q.pinned || q.state != Active || q.leader == "" || q.joining != [] || q.evict != [] || q.Has(to)))
    {
      hide PartOk, LoadOf, Contrib, Later, Evolves, Squares, Total;
      var found := FindMove(from, to);
      if found.None? {
        assert Kept(l.parts, l.parts);
        assert Evolves(l, l) by { NothingEvolves(l); }
        return false;
      }
      var i := found.value;
      EligibleNamed();
      MovingOk(l.parts[i], from, to, Members());
      var parts := l.parts[i := Moving(l.parts[i], from, to)];
      forall n
        ensures LoadOf(parts, n) == LoadOf(l.parts, n) + (if n == to then 1 else 0) - (if n == from then 1 else 0)
      {
        LoadUpdate(l.parts, i, Moving(l.parts[i], from, to), n);
      }
      MoveEvens(eligible, load, from, to);
      load := load[to := load[to] + 1][from := load[from] - 1];
      assert PartsLater(l.parts, parts) by { UpdateLater(l.parts, i, Moving(l.parts[i], from, to)); }
      assert PartsLater(NextParts(l), []);
      PartsEvolve(l, parts, []);
      assert WithParts(l, parts, []) == l.(parts := parts);
      l := l.(parts := parts);
      events := events + 1;
      moved := true;
    }

    static lemma NothingEvolves(l: Layout)
      ensures Evolves(l, l)
    {}

    static lemma UpdateLater(parts: seq<Part>, i: nat, p: Part)
      requires i < |parts| && Later(parts[i], p)
      ensures PartsLater(parts, parts[i := p])
    {}

    /** The same partitions with the same leaderships and handoffs. */
    static ghost predicate Kept(a: seq<Part>, b: seq<Part>) {
      |a| == |b| && forall i :: 0 <= i < |a| ==> Steady(a[i], b[i])
    }

    static lemma WellFormedFinds(l: Layout)
      requires WellFormed(l)
      ensures forall ref :: Find(Some(l), ref).Some? ==> ref.generation >= l.generation
    {
      FramedFinds(l);
    }

    static lemma KeptSame(parts: seq<Part>)
      ensures Kept(parts, parts)
    {}

    static lemma KeptTrans(a: seq<Part>, b: seq<Part>, c: seq<Part>)
      requires Kept(a, b) && Kept(b, c)
      ensures Kept(a, c)
    {}

    /** No partition could move a copy between the two nodes. */
    static predicate NoMove(parts: seq<Part>, from: string, to: string) {
      forall i :: 0 <= i < |parts| ==> !Movable(parts[i], to) || (from !in parts[i].followers && parts[i].leader != from)
    }

    /** Between a busiest and an idlest node there is nothing to gain or nothing to move. */
    predicate Blocked(hi: string, lo: string)
      reads this`l, this`eligible, this`load
    {
      && hi in eligible && lo in eligible && hi in load && lo in load
      && (forall n :: n in eligible && n in load ==> load[lo] <= load[n] <= load[hi])
      && (load[hi] - load[lo] < 2 || NoMove(l.parts, hi, lo))
    }

    /** At most two moves, each from a busiest to an idlest node; none if the load is already even. */
    method BalanceReplicas() returns (moves: nat)
      requires Ready() && WellFormed(l) && Exact(l, eligible, load) && l.resharding.None?
      modifies this`l, this`load, this`events
      ensures Ready() && WellFormed(l) && Exact(l, eligible, load) && Evolves(old(l), l)
      ensures l == old(l).(parts := l.parts) && Kept(old(l).parts, l.parts)
      ensures moves <= MAX_MOVES && Total(eligible, load) == Total(eligible, old(load))
      ensures Squares(eligible, load) <= Squares(eligible, old(load)) - 2 * moves
      ensures moves == 0 && |eligible| >= 2 ==> exists hi, lo :: Blocked(hi, lo)
      ensures old(forall a, b :: a in eligible && b in eligible ==> load[a] - load[b] < 2) ==>
        l == old(l) && load == old(load) && events == old(events)
    {
      hide WellFormed, Exact, Evolves, Squares, Total, Kept, NoMove;
      moves := 0;
      NothingEvolves(l);
      KeptSame(l.parts);
      if |eligible| < 2 {
        return;
      }
      while moves < MAX_MOVES
        invariant Ready() && WellFormed(l) && Exact(l, eligible, load) && Evolves(old(l), l) && l.resharding.None?
        invariant l == old(l).(parts := l.parts) && Kept(old(l).parts, l.parts)
        invariant moves <= MAX_MOVES && Total(eligible, load) == Total(eligible, old(load))
        invariant Squares(eligible, load) <= Squares(eligible, old(load)) - 2 * moves
        invariant old(forall a, b :: a in eligible && b in eligible ==> load[a] - load[b] < 2) ==>
          l == old(l) && load == old(load) && events == old(events) && moves == 0
        decreases MAX_MOVES - moves
      {
        var hi, lo := Extremes();
        if load[hi] - load[lo] < 2 {
          assert Blocked(hi, lo);
          return;
        }
        ghost var before := l;
        var moved := MoveReplica(hi, lo);
        if !moved {
          assert Blocked(hi, lo);
          return;
        }
        KeptTrans(old(l).parts, before.parts, l.parts);
        WellFormedFinds(l);
        EvolvesTrans(old(l), before, l);
        moves := moves + 1;
      }
    }

    /** How many partitions each eligible node leads. */
    static function Leaderships(nodes: set<string>, l: Layout): map<string, int> {
      map n | n in nodes :: LeaderCount(l.parts, n)
    }

    static predicate Busy(l: Layout) { exists i :: 0 <= i < |l.parts| && l.parts[i].state == HandingOff }

    /** Counts leaderships; stops if a handoff is under way. */
    method CountLeaders() returns (busy: bool, leaders: map<string, int>)
      requires Ready()
      ensures busy == Busy(l)
      ensures !busy ==> leaders == Leaderships(load.Keys, l)
    {
      hide LeaderCount;
      busy, leaders := false, map n | n in load :: 0;
      NoLeaders();
      for i := 0 to |l.parts|
        invariant leaders.Keys == load.Keys && forall n :: n in eligible ==> leaders[n] == LeaderCount(l.parts[..i], n)
        invariant forall j :: 0 <= j < i ==> l.parts[j].state != HandingOff
      {
        if l.parts[i].state == HandingOff {
          return true, leaders;
        }
        var p := l.parts[i];
        assert l.parts[..i + 1] == l.parts[..i] + [p];
        forall n
          ensures LeaderCount(l.parts[..i + 1], n) == LeaderCount(l.parts[..i], n) + (if p.leader == n then 1 else 0)
        {
          LeaderCountAppend(l.parts[..i], p, n);
        }
        if p.leader in leaders {
          leaders := leaders[p.leader := leaders[p.leader] + 1];
        }
      }
      assert l.parts[..|l.parts|] == l.parts;
    }

    /** The follower is close behind a leader that leads at least two partitions more. */
    predicate Relieves(generation: int, p: Part, counts: map<string, int>, f: string) {
      var ref := Ref(generation, p.id);
      && p.leader in counts && !p.pinned && p.state == Active && p.evict == [] && f in p.followers
      && f in counts && counts[p.leader] - counts[f] >= 2
      && var ls, fs := input.StatusOf(p.leader, ref), input.StatusOf(f, ref);
         ls.Some? && fs.Some? && fs.value.dataEpoch == p.epoch && ls.value.number - fs.value.number <= JOIN_LAG
    }

    ghost predicate NoRelief(l: Layout)
      reads this`load
    {
      forall i, f :: 0 <= i < |l.parts| ==> !Relieves(l.generation, l.parts[i], Leaderships(load.Keys, l), f)
    }

    method FindRelief(counts: map<string, int>) returns (found: Option<(nat, string)>)
      ensures found.Some? ==> found.value.0 < |l.parts| && Relieves(l.generation, l.parts[found.value.0], counts, found.value.1)
      ensures found.None? ==> forall i, f :: 0 <= i < |l.parts| ==> !Relieves(l.generation, l.parts[i], counts, f)
    {
      for i := 0 to |l.parts|
        invariant forall j, f :: 0 <= j < i ==> !Relieves(l.generation, l.parts[j], counts, f)
      {
        var p := l.parts[i];
        for k := 0 to |p.followers|
          invariant forall m :: 0 <= m < k ==> !Relieves(l.generation, p, counts, p.followers[m])
        {
          if Relieves(l.generation, p, counts, p.followers[k]) {
            return Some((i, p.followers[k]));
          }
        }
      }
      found := None;
    }

    static lemma HandingOk(p: Part, f: string, now: int, version: int, members: set<string>)
      requires PartOk(p, members) && f in p.followers
      ensures PartOk(HandingTo(p, f, now, version), members) && Later(p, HandingTo(p, f, now, version))
      ensures forall n :: Contrib(HandingTo(p, f, now, version), n) == Contrib(p, n)
    {}

    /** A handoff starts in a partition that was in none. */
    static predicate OneHanding(input: Input, version: int, a: seq<Part>, b: seq<Part>, i: nat, f: string) {
      i < |a| && f in a[i].followers && a[i].state == Active && b == a[i := HandingTo(a[i], f, input.now, version)]
    }

    /** Starts at most one handoff, from a leader to a follower that leads at least two fewer. */
    method BalanceLeaders() returns (relief: Option<(nat, string)>)
      requires Ready() && WellFormed(l) && Exact(l, eligible, load) && l.resharding.None?
      modifies this`l, this`events
      ensures Ready() && WellFormed(l) && Exact(l, eligible, load) && Evolves(old(l), l) && l == old(l).(parts := l.parts)
      ensures relief.None? ==> l == old(l) && events == old(events)
      ensures relief.None? <==> Busy(old(l)) || NoRelief(old(l))
      ensures relief.Some? ==>
        var (i, f) := relief.value;
        OneHanding(input, l.version, old(l).parts, l.parts, i, f) && Relieves(l.generation, old(l).parts[i], Leaderships(load.Keys, old(l)), f)
      ensures relief.Some? ==>
        var (i, f) := relief.value;
        var p := old(l).parts[i];
        && !p.pinned && p.state == Active && p.evict == [] && p.leader in eligible && f in p.followers && f in eligible
        && LeaderCount(old(l).parts, p.leader) - LeaderCount(old(l).parts, f) >= 2
      ensures relief.None? && (forall i :: 0 <= i < |l.parts| ==> l.parts[i].state == Active) ==>
        forall i, f :: 0 <= i < |l.parts| && f in l.parts[i].followers ==>
          var p, ref := l.parts[i], Ref(l.generation, l.parts[i].id);
          || p.pinned || p.evict != [] || p.leader !in eligible || f !in eligible
          || LeaderCount(l.parts, p.leader) - LeaderCount(l.parts, f) < 2
          || input.StatusOf(p.leader, ref).None? || input.StatusOf(f, ref).None? || input.StatusOf(f, ref).value.dataEpoch != p.epoch
          || input.StatusOf(p.leader, ref).value.number - input.StatusOf(f, ref).value.number > JOIN_LAG
      ensures (forall a, b :: a in eligible && b in eligible ==> LeaderCount(old(l).parts, a) - LeaderCount(old(l).parts, b) < 2) ==> relief.None?
    {
      hide PartOk, LoadOf, Contrib, Later, Evolves, LeaderCount;
      NothingEvolves(l);
      var busy, counts := CountLeaders();
      if busy {
        return None;
      }
      relief := FindRelief(counts);
      forall i, f | relief.None? && 0 <= i < |l.parts| && f in l.parts[i].followers
        ensures !Relieves(l.generation, l.parts[i], counts, f)
      {
      }
      if relief.Some? {
        var (i, f) := relief.value;
        HandingOk(l.parts[i], f, input.now, l.version, Members());
        var p := StartHandoff(l.parts[i], f);
        var parts := l.parts[i := p];
        forall n
          ensures LoadOf(parts, n) == LoadOf(l.parts, n)
        {
          LoadUpdate(l.parts, i, p, n);
        }
        UpdateLater(l.parts, i, p);
        PartsEvolve(l, parts, []);
        assert WithParts(l, parts, []) == l.(parts := parts);
        l := l.(parts := parts);
      }
    }

    // ----- a whole round -----

    static lemma ShedEvolves(input: Input, l: Layout, l': Layout)
      requires Framed(l) && l' == WithParts(l, l'.parts, NextParts(l')).(members := input.nodes)
      requires AllShed(input, l.members, l.parts, l'.parts) && AllShed(input, l.members, NextParts(l), NextParts(l'))
      requires OnlyAlive(input, l.members, l'.parts) && OnlyAlive(input, l.members, NextParts(l'))
      ensures Evolves(l, l')
    {
      hide Thinned;
      var same := WithParts(l, l'.parts, NextParts(l'));
      PartsEvolve(l, l'.parts, NextParts(l'));
      forall ref | Find(Some(l), ref).Some? && Find(Some(l'), ref).Some?
        ensures LaterIn(l, l', Find(Some(l), ref).value, Find(Some(l'), ref).value)
      {
        var p := Find(Some(l'), ref).value;
        assert Find(Some(same), ref) == Some(p);
        assert p.leader != "" ==> Alive(input, l.members, p.leader);
      }
    }

    /** The five phases over all partitions. */
    method Phases(ghost was: Layout)
      requires Ready() && Exact(l, eligible, load) && Pruned(l)
      requires AllShed(input, was.members, was.parts, l.parts) && AllShed(input, was.members, NextParts(was), NextParts(l))
      requires OnlyAlive(input, was.members, l.parts) && OnlyAlive(input, was.members, NextParts(l))
      modifies this`l, this`load, this`events
      ensures Ready() && Exact(l, eligible, load) && WellFormed(l)
      ensures l == WithParts(old(l), l.parts, NextParts(l)) && Evolves(old(l), l)
      ensures AllSucceed(input, was.members, l.version, l.generation, was.parts, l.parts)
      ensures AllSucceed(input, was.members, l.version, l.generation + 1, NextParts(was), NextParts(l))
      ensures Calm(old(l)) ==> l == old(l) && events == old(events) && load == old(load)
    {
      hide Ready, Exact, WellFormed, Pruned, Evolves, Passed, AllShed, AllSucceed, Calm, OnlyAlive;
      ghost var l0 := l;
      Each(Failing);
      ghost var l1 := l;
      Each(Promoting);
      ghost var l2 := l;
      Each(Progressing);
      ghost var l3 := l;
      Each(Evicting);
      ghost var l4 := l;
      Each(Repairing);
      Chain(l0, l1, l2, l3, l4, l);
      PassedFrames(Promoting, input, l1, l0, l2);
      PassedFrames(Progressing, input, l2, l0, l3);
      PassedFrames(Evicting, input, l3, l0, l4);
      PassedFrames(Repairing, input, l4, l0, l);
      ShedSize(input, was, l0);
      AllRoundsSucceed(input, l0, was.members, l.generation, was.parts, l0.parts, l1.parts, l2.parts, l3.parts, l4.parts, l.parts);
      AllRoundsSucceed(input, l0, was.members, l.generation + 1, NextParts(was), NextParts(l0), NextParts(l1), NextParts(l2), NextParts(l3), NextParts(l4), NextParts(l));
    }

    static lemma ShedSize(input: Input, was: Layout, l: Layout)
      requires AllShed(input, was.members, was.parts, l.parts) && AllShed(input, was.members, NextParts(was), NextParts(l))
      ensures |was.parts| == |l.parts| && |NextParts(was)| == |NextParts(l)|
    {}

    static lemma PassedFrames(phase: Phase, input: Input, l: Layout, l0: Layout, out: Layout)
      requires Passed(phase, input, l, l.generation, l.parts, out.parts) && Passed(phase, input, l, l.generation + 1, NextParts(l), NextParts(out))
      requires l0.members == l.members && l0.version == l.version && l0.generation == l.generation
      ensures Passed(phase, input, l0, l0.generation, l.parts, out.parts) && Passed(phase, input, l0, l0.generation + 1, NextParts(l), NextParts(out))
    {
      PassedFrame(phase, input, l, l0, l.generation, l.parts, out.parts);
      PassedFrame(phase, input, l, l0, l.generation + 1, NextParts(l), NextParts(out));
    }

    static lemma Chain(a: Layout, b: Layout, c: Layout, d: Layout, e: Layout, f: Layout)
      requires Evolves(a, b) && Evolves(b, c) && Evolves(c, d) && Evolves(d, e) && Evolves(e, f)
      requires WellFormed(b) && WellFormed(c) && WellFormed(d) && WellFormed(e) && WellFormed(f)
      ensures Evolves(a, f)
    {
      hide Evolves, WellFormed;
      WellFormedFinds(c);
      WellFormedFinds(d);
      WellFormedFinds(e);
      WellFormedFinds(f);
      EvolvesTrans(a, b, c);
      EvolvesTrans(a, c, d);
      EvolvesTrans(a, d, e);
      EvolvesTrans(a, e, f);
    }

    /** Before the balancing: everything that a round always does. */
    method Repair()
      requires WellFormed(l) && "" !in input.nodes
      modifies this
      ensures Ready() && Exact(l, eligible, load) && WellFormed(l) && Evolves(old(l), l)
      ensures l.members == input.nodes && l.version == old(l).version
      ensures old(l).count > 0 ==> l.count == old(l).count && l.generation == old(l).generation
      ensures old(l).resharding.Some? ==> l.resharding.Some?
      ensures AllSucceed(input, old(l).members, l.version, l.generation, Before(old(l), |l.parts|), l.parts)
      ensures old(l).resharding.None? && l.resharding.Some? ==> forall i :: 0 <= i < |NextParts(l)| ==> JustPlaced(NextParts(l)[i])
      ensures old(l).resharding.Some? ==> AllSucceed(input, old(l).members, l.version, l.generation + 1, NextParts(old(l)), NextParts(l))
      ensures old(l).members == input.nodes && StableLayout(old(l), input.config, input.drained, input.autoBalance) ==>
        l == old(l) && events == old(events)
    {
      hide Ready, Exact, WellFormed, Pruned, Evolves, AllShed, AllSucceed, Balanced, StablePart, Settled;
      ghost var l0 := l;
      WellFormedCounts(l);
      Bootstrap();
      ghost var l1 := l;
      WellFormedCounts(l);
      Membership();
      ghost var l2 := l;
      assert Evolves(l1, l2) by { ShedEvolvesWell(input, l1, l2); }
      ComputeLoad();
      StableCalm(l0);
      Phases(l1);
      ghost var l3 := l;
      assert l1.parts == Before(l0, |l1.parts|);
      AllSucceedSize(input, l0.members, l.version, l.generation, l1.parts, l.parts);
      StartResharding();
      WellFormedCounts(l);
      PlacedNow();
      PlanChain(l0, l1, l2, l3, l);
    }

    static lemma AllSucceedSize(input: Input, members: map<string, int>, version: int, generation: int, a: seq<Part>, b: seq<Part>)
      requires AllSucceed(input, members, version, generation, a, b)
      ensures |a| == |b|
    {}

    lemma PlacedNow()
      requires Ready()
      ensures forall p, i :: FullyPlaced(p, i, DesiredCopies()) ==> JustPlaced(p)
    {}

    static lemma WellFormedCounts(l: Layout)
      requires WellFormed(l)
      ensures l.count == |l.parts| && l.count >= 0 && (l.count > 0 ==> l.generation >= 1) && (l.resharding.Some? ==> l.count > 0)
      ensures l.resharding.Some? ==> l.resharding.value.generation == l.generation + 1 && |NextParts(l)| == l.resharding.value.count
    {}

    static lemma ShedEvolvesWell(input: Input, l: Layout, l': Layout)
      requires WellFormed(l) && l' == WithParts(l, l'.parts, NextParts(l')).(members := input.nodes)
      requires AllShed(input, l.members, l.parts, l'.parts) && AllShed(input, l.members, NextParts(l), NextParts(l'))
      requires OnlyAlive(input, l.members, l'.parts) && OnlyAlive(input, l.members, NextParts(l'))
      ensures Evolves(l, l')
    {
      ShedEvolves(input, l, l');
    }

    static lemma PlanChain(a: Layout, b: Layout, c: Layout, d: Layout, e: Layout)
      requires Evolves(a, b) && Evolves(b, c) && Evolves(c, d) && Evolves(d, e)
      requires Pruned(c) && WellFormed(d) && WellFormed(e)
      ensures Evolves(a, e)
    {
      hide Evolves;
      FramedFinds(c);
      FramedFinds(d);
      FramedFinds(e);
      EvolvesTrans(a, b, c);
      EvolvesTrans(a, c, d);
      EvolvesTrans(a, d, e);
    }

    /** In a stable layout no phase finds anything to do. */
    lemma StableCalm(l': Layout)
      requires Ready()
      ensures StableLayout(l', input.config, input.drained, input.autoBalance) && l'.members == l.members ==> Calm(l')
    {
      hide Balanced, StablePart;
      DistinctSize(eligible, Members() - input.drained);
    }

    /**
     * One round. It keeps layouts well-formed, makes the members the live nodes, lets leaderships
     * change only as they may, ends with an exact load map, and leaves a stable layout alone.
     */
    method Plan()
      requires WellFormed(l) && "" !in input.nodes
      modifies this
      ensures WellFormed(l) && l.members == input.nodes && l.version == old(l).version
      ensures old(l).count > 0 ==> l.count == old(l).count && l.generation == old(l).generation
      ensures old(l).resharding.Some? ==> l.resharding.Some?
      ensures Evolves(old(l), l)
      ensures Ready() && Exact(l, eligible, load)
      ensures AllSucceed(input, old(l).members, l.version, l.generation, Before(old(l), |l.parts|), l.parts)
      ensures old(l).resharding.None? && l.resharding.Some? ==> forall i :: 0 <= i < |NextParts(l)| ==> JustPlaced(NextParts(l)[i])
      ensures old(l).resharding.Some? ==> AllSucceed(input, old(l).members, l.version, l.generation + 1, NextParts(old(l)), NextParts(l))
      ensures old(l).members == input.nodes && StableLayout(old(l), input.config, input.drained, input.autoBalance) ==>
        l == old(l) && events == old(events)
    {
      hide Ready, Exact, WellFormed, Evolves, AllSucceed, Kept, Total, Squares, Balanced, StablePart;
      ghost var l0 := l;
      Repair();
      if input.autoBalance && l.resharding.None? {
        ghost var l1 := l;
        StableEven(l0);
        var _ := BalanceReplicas();
        ghost var l2 := l;
        var relief := BalanceLeaders();
        BalanceChain(l0, l1, l2, l);
        BalanceSucceeds(input, l0.members, Before(l0, |l1.parts|), l1, l2, l, relief);
      }
    }

    static lemma BalanceChain(a: Layout, b: Layout, c: Layout, d: Layout)
      requires Evolves(a, b) && Evolves(b, c) && Evolves(c, d) && WellFormed(c) && WellFormed(d)
      ensures Evolves(a, d)
    {
      hide Evolves, WellFormed;
      WellFormedFinds(c);
      WellFormedFinds(d);
      EvolvesTrans(a, b, c);
      EvolvesTrans(a, c, d);
    }

    static lemma BalanceSucceeds(input: Input, members: map<string, int>, was: seq<Part>, l1: Layout, l2: Layout, l3: Layout, relief: Option<(nat, string)>)
      requires AllSucceed(input, members, l1.version, l1.generation, was, l1.parts)
      requires Kept(l1.parts, l2.parts) && l2.version == l1.version && WellFormed(l2)
      requires relief.None? ==> l3.parts == l2.parts
      requires relief.Some? ==> OneHanding(input, l1.version, l2.parts, l3.parts, relief.value.0, relief.value.1)
      ensures AllSucceed(input, members, l1.version, l1.generation, was, l3.parts) && |l3.parts| == |l1.parts|
    {
      hide Succeeds, Distinct, EvictsHolders;
      forall i | 0 <= i < |was|
        ensures Succeeds(input, members, l1.version, Ref(l1.generation, i), was[i], l3.parts[i])
      {
        SucceedsThen(input, members, l1.version, Ref(l1.generation, i), was[i], l1.parts[i], l2.parts[i]);
        assert relief.Some? && relief.value.0 == i ==> l2.parts[i].leader != "" by {
          assert PartOk(l2.parts[i], l2.members.Keys);
        }
        SucceedsThen(input, members, l1.version, Ref(l1.generation, i), was[i], l2.parts[i], l3.parts[i]);
      }
    }

    /** A stable layout is even, as far as the balancing can see. */
    lemma StableEven(l': Layout)
      requires Ready() && Exact(l, eligible, load) && input.autoBalance
      ensures l' == l && StableLayout(l', input.config, input.drained, true) ==>
        && (forall a, b :: a in eligible && b in eligible ==> a in load && b in load && load[a] - load[b] < 2)
        && (forall a, b :: a in eligible && b in eligible ==> LeaderCount(l'.parts, a) - LeaderCount(l'.parts, b) < 2)
    {
      hide LoadOf, LeaderCount, StablePart;
      NoLoad();
    }

    static lemma NoLoad()
      ensures forall n :: LoadOf([], n) == 0
    {}
  }

  // ----- the stability report -----

  datatype Reason =
    | Stable | NoLayout | Migrating | CountPending | NoLeader(id: nat) | HandoffPending(id: nat) | StillJoining(id: nat)
    | MovePending(id: nat) | WrongCopies(id: nat) | DrainedHolder(id: nat) | UnevenReplicas | UnevenLeaders

  /** The difference between the largest and the smallest count. */
  method Spread(counts: map<string, int>) returns (spread: int)
    ensures forall a, b :: a in counts && b in counts ==> counts[a] - counts[b] <= spread
    ensures spread == 0 || exists a, b :: a in counts && b in counts && counts[a] - counts[b] == spread
  {
    var lo, hi, first := 0, 0, true;
    var todo := counts.Keys;
    while todo != {}
      invariant todo <= counts.Keys && (first <==> todo == counts.Keys)
      invariant first ==> lo == hi == 0
      invariant !first ==> (exists a, b :: a in counts && b in counts && counts[a] == hi && counts[b] == lo)
      invariant forall a :: a in counts && a !in todo ==> lo <= counts[a] <= hi
      decreases todo
    {
      var k :| k in todo;
      var v := counts[k];
      if first || v < lo {
        lo := v;
      }
      if first || v > hi {
        hi := v;
      }
      first := false;
      todo := todo - {k};
    }
    spread := hi - lo;
  }

  /** What is wrong with one partition, if anything. */
  method PartReason(p: Part, id: nat, desired: nat, drained: set<string>) returns (reason: Reason)
    ensures reason == Stable <==> StablePart(p, desired, drained)
  {
    if p.leader == "" {
      return NoLeader(id);
    }
    if p.state == HandingOff {
      return HandoffPending(id);
    }
    if p.joining != [] {
      return StillJoining(id);
    }
    if p.evict != [] {
      return MovePending(id);
    }
    if 1 + |p.followers| != desired {
      return WrongCopies(id);
    }
    var hs := p.Holders();
    for i := 0 to |hs|
      invariant forall j :: 0 <= j < i ==> hs[j] !in drained
    {
      if hs[i] in drained {
        assert hs[i] == p.leader || hs[i] in p.followers;
        return DrainedHolder(id);
      }
    }
    assert hs == [p.leader] + p.followers;
    assert hs[0] == p.leader && forall f :: f in p.followers ==> f in hs;
    reason := Stable;
  }

  /** Copies and leaderships of every node that is not drained. */
  method Tally(l: Layout, desired: nat, drained: set<string>) returns (replicas: map<string, int>, leaders: map<string, int>)
    requires WellFormed(l) && forall i :: 0 <= i < |l.parts| ==> StablePart(l.parts[i], desired, drained)
    ensures replicas.Keys == l.members.Keys - drained && leaders.Keys == replicas.Keys
    ensures forall n :: n in replicas ==> replicas[n] == LoadOf(l.parts, n) && leaders[n] == LeaderCount(l.parts, n)
  {
    hide LoadOf, LeaderCount, PartOk, Contrib;
    replicas, leaders := map n | n in l.members.Keys - drained :: 0, map n | n in l.members.Keys - drained :: 0;
    Planner.NoLoad();
    Planner.NoLeaders();
    for i := 0 to |l.parts|
      invariant replicas.Keys == l.members.Keys - drained && leaders.Keys == replicas.Keys
      invariant forall n :: n in replicas ==> replicas[n] == LoadOf(l.parts[..i], n) && leaders[n] == LeaderCount(l.parts[..i], n)
    {
      var p := l.parts[i];
      assert l.parts[..i + 1] == l.parts[..i] + [p];
      forall n
        ensures LoadOf(l.parts[..i + 1], n) == LoadOf(l.parts[..i], n) + Contrib(p, n)
        ensures LeaderCount(l.parts[..i + 1], n) == LeaderCount(l.parts[..i], n) + (if p.leader == n then 1 else 0)
      {
        LoadAppend(l.parts[..i], p, n);
        LeaderCountAppend(l.parts[..i], p, n);
      }
      StableLeader(p, l.members.Keys, desired, drained);
      leaders := leaders[p.leader := leaders[p.leader] + 1];
      replicas := TallyPart(p, l.members.Keys, desired, drained, replicas);
    }
    assert l.parts[..|l.parts|] == l.parts;
  }

  lemma StableLeader(p: Part, members: set<string>, desired: nat, drained: set<string>)
    requires PartOk(p, members) && StablePart(p, desired, drained)
    ensures p.leader in members - drained
  {}

  method TallyPart(p: Part, members: set<string>, desired: nat, drained: set<string>, replicas0: map<string, int>) returns (replicas: map<string, int>)
    requires PartOk(p, members) && replicas0.Keys == members - drained && StablePart(p, desired, drained)
    ensures replicas.Keys == replicas0.Keys && forall n :: n in replicas ==> replicas[n] == replicas0[n] + Contrib(p, n)
  {
    replicas := replicas0;
    var hs := p.Holders();
    HoldersDistinct(p, members);
    assert forall h :: h in hs ==> h in members - drained;
    for i := 0 to |hs|
      invariant replicas.Keys == replicas0.Keys
      invariant forall n :: n in replicas ==> replicas[n] == replicas0[n] + (if n in hs[..i] then 1 else 0)
    {
      var h := hs[i];
      assert hs[..i + 1] == hs[..i] + [h] && h !in hs[..i] && h in hs;
      replicas := replicas[h := replicas[h] + 1];
    }
    assert hs[..|hs|] == hs;
  }

  /** Says stable exactly if nothing is pending and every partition is as it should be; a round leaves such layouts alone. */
  method UnstableReason(layout: Option<Layout>, config: Config, drained: set<string>, autoBalance: bool) returns (reason: Reason)
    requires layout.Some? ==> WellFormed(layout.value)
    ensures reason == Stable <==> layout.Some? && StableLayout(layout.value, config, drained, autoBalance)
    ensures reason == Stable <==>
      && layout.Some?
      && var l := layout.value;
         && l.count != 0 && l.resharding.None? && (config.count <= 0 || config.count == l.count)
         && (forall i :: 0 <= i < |l.parts| ==>
               && l.parts[i].leader != "" && l.parts[i].state == Active && l.parts[i].joining == [] && l.parts[i].evict == []
               && 1 + |l.parts[i].followers| == Desired(config, |l.members.Keys - drained|)
               && l.parts[i].leader !in drained && forall f :: f in l.parts[i].followers ==> f !in drained)
         && (autoBalance ==> forall a, b :: a in l.members.Keys - drained && b in l.members.Keys - drained ==>
               LoadOf(l.parts, a) - LoadOf(l.parts, b) < 2 && LeaderCount(l.parts, a) - LeaderCount(l.parts, b) < 2)
  {
    hide LoadOf, LeaderCount, PartOk;
    reason := FirstReason(layout, config, drained, autoBalance);
  }

  /** The first reason found, in the order of the checks. */
  method FirstReason(layout: Option<Layout>, config: Config, drained: set<string>, autoBalance: bool) returns (reason: Reason)
    requires layout.Some? ==> WellFormed(layout.value)
    ensures reason == Stable <==> layout.Some? && StableLayout(layout.value, config, drained, autoBalance)
  {
    hide StablePart, LoadOf, LeaderCount, PartOk;
    if layout.None? || layout.value.count == 0 {
      return NoLayout;
    }
    var l := layout.value;
    if l.resharding.Some? {
      return Migrating;
    }
    if config.count > 0 && config.count != l.count {
      return CountPending;
    }
    var desired := Desired(config, |l.members.Keys - drained|);
    for i := 0 to |l.parts|
      invariant forall j :: 0 <= j < i ==> StablePart(l.parts[j], desired, drained)
    {
      reason := PartReason(l.parts[i], i, desired, drained);
      if reason != Stable {
        return;
      }
    }
    if autoBalance {
      var replicas, leaders := Tally(l, desired, drained);
      var r := Spread(replicas);
      if r >= 2 {
        return UnevenReplicas;
      }
      r := Spread(leaders);
      if r >= 2 {
        return UnevenLeaders;
      }
    }
    reason := Stable;
  }
}

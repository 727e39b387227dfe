/** How the fixed-capacity engine relates to v0.0.2: equal up to the first ceiling, different at it, and
    an under-approximation when only seeds are ever dropped. */
module Ceilings {
  import opened Events
  import opened Multisets
  import opened Storylines
  import opened DagSpec

  // A lookup fails, or the two storylines are too big to be merged.
  ghost predicate LinkHits(caps: Caps, lines: Lines<Mask>, a: Key, o: Key) {
    match Resolve(caps, lines, a)
    case None => true
    case Some(l1) =>
      match Resolve(caps, l1, o)
      case None => true
      case Some(l2) => a !in l2 || o !in l2 || (o !in l2[a].members && !MergeFits(caps, l2[a], l2[o]))
  }

  ghost predicate SeedsDropped(caps: Caps, rules: Rules, x: Story<Mask>, op: Op, ttps: seq<Ttp>) {
    var seeds := Seeds(rules, |rules|, op, ttps);
    Kept(caps.automata, |x.autos|, seeds) != seeds
  }

  // The event disarms an actor for which the disarm table has no room.
  ghost predicate DisarmLost(caps: Caps, rules: Rules, st: State<Mask>, x: Story<Mask>, e: Event, ttps: seq<Ttp>) {
    && StoryEffect(caps, rules, x, e, ttps).verdict == Disarmed
    && e.actor !in st.disarmed && !caps.disarmed.Admits(|st.disarmed| + 1)
  }

  // The event runs into some ceiling. The test looks only at the state before the event.
  ghost predicate Hits(caps: Caps, rules: Rules, st: State<Mask>, e: Event, ttps: seq<Ttp>) {
    && !Gated(st.disarmed, e.actor, e.op)
    && (LinkHits(caps, st.lines, e.actor, e.target)
        || var linked := Link(caps, st.lines, e.actor, e.target);
           linked.Linked? && e.actor in linked.lines
           && (SeedsDropped(caps, rules, linked.lines[e.actor], e.op, ttps)
               || DisarmLost(caps, rules, st, linked.lines[e.actor], e, ttps)))
  }

  // ----- equal below every ceiling -----

  lemma LinkBelowCeilings(caps: Caps, lines: Lines<Mask>, a: Key, o: Key)
    requires !LinkHits(caps, lines, a, o)
    ensures Link(caps, lines, a, o) == Link(UNBOUNDED, lines, a, o)
    ensures Link(caps, lines, a, o).Linked? && a in Link(caps, lines, a, o).lines
  {
  }

  lemma SameBelowCeilings(caps: Caps, rules: Rules, st: State<Mask>, e: Event, ttps: seq<Ttp>)
    requires !Hits(caps, rules, st, e, ttps)
    ensures OnEvent(caps, rules, st, e, ttps) == OnEvent(UNBOUNDED, rules, st, e, ttps)
  {
    hide Link, LinkHits, Image, Total;
    if !Gated(st.disarmed, e.actor, e.op) {
      LinkBelowCeilings(caps, st.lines, e.actor, e.target);
      var x := Link(caps, st.lines, e.actor, e.target).lines[e.actor];
      assert Seeded(caps, rules, x.autos, e.op, ttps) == Seeded(UNBOUNDED, rules, x.autos, e.op, ttps);
    }
  }

  // ----- different at the first one -----

  lemma LinkAtCeiling(caps: Caps, lines: Lines<Mask>, a: Key, o: Key)
    requires Partition(lines) && LinkHits(caps, lines, a, o)
    ensures Link(UNBOUNDED, lines, a, o).Linked?
    ensures var full, capped := Link(UNBOUNDED, lines, a, o).lines, Link(caps, lines, a, o).lines;
      && a in full && o in full && o in full[a].members
      && (Link(caps, lines, a, o).Linked? ==> a in capped)
      && (a !in capped || o !in capped || o !in capped[a].members)
  {
    hide Merge;
    LinkKeepsPartition(UNBOUNDED, lines, a, o);
    LinkKeepsPartition(caps, lines, a, o);
    AlwaysResolves(lines, a);
    var l1 := Resolved(lines, a);
    AlwaysResolves(l1, o);
    var l2 := Resolved(l1, o);
    ResolveKeepsPartition(UNBOUNDED, lines, a);
    ResolveKeepsPartition(UNBOUNDED, l1, o);
    MergedTogether(l2, a, o);
    if Resolve(caps, lines, a).Some? && Resolve(caps, l1, o).Some? {
      MergeRefused(caps, l2, a, o);
    }
  }

  lemma MergedTogether(lines: Lines<Mask>, a: Key, o: Key)
    requires a in lines && o in lines && a in lines[a].members && o in lines[o].members
    ensures var r := Merge(UNBOUNDED, lines, a, o); a in r && o in r && o in r[a].members
  {
  }

  lemma MergeRefused(caps: Caps, lines: Lines<Mask>, a: Key, o: Key)
    requires a in lines && o in lines && !MergeFits(caps, lines[a], lines[o])
    ensures Merge(caps, lines, a, o) == lines
  {
  }

  lemma AdvanceKeepsMembers(caps: Caps, rules: Rules, st: State<Mask>, e: Event, ttps: seq<Ttp>, k: Key)
    requires Partition(st.lines) && e.actor in st.lines
    ensures var r := Advance(caps, rules, st, e, ttps).state.lines;
      (k in r <==> k in st.lines) && (k in st.lines ==> r[k].members == st.lines[k].members)
  {
  }

  lemma DifferentAtCeiling(caps: Caps, rules: Rules, st: State<Mask>, e: Event, ttps: seq<Ttp>)
    requires Partition(st.lines) && Hits(caps, rules, st, e, ttps)
    ensures OnEvent(caps, rules, st, e, ttps).state != OnEvent(UNBOUNDED, rules, st, e, ttps).state
  {
    hide Link, LinkHits, Image, Total, Seeds, Install;
    var a, o := e.actor, e.target;
    var capped, full := Link(caps, st.lines, a, o), Link(UNBOUNDED, st.lines, a, o);
    LinkKeepsPartition(caps, st.lines, a, o);
    LinkKeepsPartition(UNBOUNDED, st.lines, a, o);
    if LinkHits(caps, st.lines, a, o) {
      LinkAtCeiling(caps, st.lines, a, o);
      AdvanceKeepsMembers(UNBOUNDED, rules, State(full.lines, st.disarmed), e, ttps, a);
      AdvanceKeepsMembers(UNBOUNDED, rules, State(full.lines, st.disarmed), e, ttps, o);
      if capped.Linked? {
        AdvanceKeepsMembers(caps, rules, State(capped.lines, st.disarmed), e, ttps, a);
        AdvanceKeepsMembers(caps, rules, State(capped.lines, st.disarmed), e, ttps, o);
      }
    } else {
      LinkBelowCeilings(caps, st.lines, a, o);
      AdvanceDiffers(caps, rules, State(full.lines, st.disarmed), e, ttps);
    }
  }

  lemma KeptAll<A>(have: nat, seeds: seq<A>)
    ensures Kept(NoLimit, have, seeds) == seeds
  {
  }

  lemma KeptShorter<A>(limit: Limit, have: nat, seeds: seq<A>)
    requires Kept(limit, have, seeds) != seeds
    ensures |Kept(limit, have, seeds)| < |seeds|
  {
  }

  lemma AdvanceDiffers(caps: Caps, rules: Rules, st: State<Mask>, e: Event, ttps: seq<Ttp>)
    requires Partition(st.lines) && e.actor in st.lines
    requires || SeedsDropped(caps, rules, st.lines[e.actor], e.op, ttps)
             || DisarmLost(caps, rules, st, st.lines[e.actor], e, ttps)
    ensures Advance(caps, rules, st, e, ttps).state != Advance(UNBOUNDED, rules, st, e, ttps).state
  {
    hide Seeds, Image, Total, Kept;
    var x := st.lines[e.actor];
    assert Kept(UNBOUNDED.automata, |x.autos|, Seeds(rules, |rules|, e.op, ttps))
        == Seeds(rules, |rules|, e.op, ttps) by {
      KeptAll(|x.autos|, Seeds(rules, |rules|, e.op, ttps));
    }
    if SeedsDropped(caps, rules, x, e.op, ttps) {
      var r1, r2 := Advance(caps, rules, st, e, ttps).state.lines, Advance(UNBOUNDED, rules, st, e, ttps).state.lines;
      KeptShorter(caps.automata, |x.autos|, Seeds(rules, |rules|, e.op, ttps));
      assert |Seeded(caps, rules, x.autos, e.op, ttps)| < |Seeded(UNBOUNDED, rules, x.autos, e.op, ttps)|;
      assert |r1[e.actor].autos| < |r2[e.actor].autos|;
    } else {
      assert Seeded(caps, rules, x.autos, e.op, ttps) == Seeded(UNBOUNDED, rules, x.autos, e.op, ttps);
    }
  }

  // One event keeps the two engines in the same state exactly when it hits no ceiling.
  lemma SameStateIffNoCeiling(caps: Caps, rules: Rules, st: State<Mask>, e: Event, ttps: seq<Ttp>)
    requires Partition(st.lines)
    ensures OnEvent(caps, rules, st, e, ttps).state == OnEvent(UNBOUNDED, rules, st, e, ttps).state
       <==> !Hits(caps, rules, st, e, ttps)
  {
    hide OnEvent, Hits;
    if Hits(caps, rules, st, e, ttps) {
      DifferentAtCeiling(caps, rules, st, e, ttps);
    } else {
      SameBelowCeilings(caps, rules, st, e, ttps);
    }
  }

  // ----- whole streams -----

  // None of the first `n` events hits a ceiling, in the run of v0.0.2.
  ghost predicate Clear(caps: Caps, rules: Rules, stream: seq<Tagged>, n: nat)
    requires n <= |stream|
  {
    forall i | 0 <= i < n :: !Hits(caps, rules, Run(UNBOUNDED, rules, stream, i), stream[i].event, stream[i].ttps)
  }

  lemma {:induction false} EqualWhileClear(caps: Caps, rules: Rules, stream: seq<Tagged>, n: nat)
    requires n <= |stream| && Clear(caps, rules, stream, n)
    ensures Run(caps, rules, stream, n) == Run(UNBOUNDED, rules, stream, n)
    ensures forall i | 0 <= i < n :: VerdictAt(caps, rules, stream, i) == VerdictAt(UNBOUNDED, rules, stream, i)
  {
    hide OnEvent, Hits;
    if n > 0 {
      EqualWhileClear(caps, rules, stream, n - 1);
      var st, t := Run(UNBOUNDED, rules, stream, n - 1), stream[n - 1];
      SameBelowCeilings(caps, rules, st, t.event, t.ttps);
      assert VerdictAt(caps, rules, stream, n - 1) == VerdictAt(UNBOUNDED, rules, stream, n - 1);
    }
  }

  // The first event over a ceiling is the first after which the states differ.
  lemma FirstCeilingIsFirstDifference(caps: Caps, rules: Rules, stream: seq<Tagged>, n: nat)
    requires n < |stream| && Clear(caps, rules, stream, n)
    ensures Run(caps, rules, stream, n + 1) == Run(UNBOUNDED, rules, stream, n + 1)
       <==> !Hits(caps, rules, Run(UNBOUNDED, rules, stream, n), stream[n].event, stream[n].ttps)
  {
    hide OnEvent, Hits;
    EqualWhileClear(caps, rules, stream, n);
    RunKeepsPartition(UNBOUNDED, rules, stream, n);
    SameStateIffNoCeiling(caps, rules, Run(UNBOUNDED, rules, stream, n), stream[n].event, stream[n].ttps);
  }

  // ----- dropped seeds only -----

  ghost predicate NeverDisarms(rules: Rules) {
    forall p, s | p in rules && s in p.steps :: s.action != None ==> s.action.value == Block
  }

  // The same storylines, each with a sub-multiset of the automata.
  ghost predicate UnderLines(b: Lines<Mask>, u: Lines<Mask>) {
    && b.Keys == u.Keys
    && forall k | k in b :: b[k].members == u[k].members && b[k].autos <= u[k].autos
  }

  ghost predicate Under(b: State<Mask>, u: State<Mask>) {
    UnderLines(b.lines, u.lines) && b.disarmed == u.disarmed
  }

  lemma ImageMonotone<A, B>(f: A -> B, a: multiset<A>, b: multiset<A>)
    requires a <= b
    ensures Image(f, a) <= Image(f, b)
  {
    ImageUnion(f, a, b - a);
    assert a + (b - a) == b;
  }

  lemma TotalMonotone<A>(g: A -> Effect, a: multiset<A>, b: multiset<A>)
    requires a <= b
    ensures Total(g, b).StrongerThan(Total(g, a))
  {
    TotalUnion(g, a, b - a);
    assert a + (b - a) == b;
  }

  lemma {:induction false} PassNeverDisarms(steps: seq<DagStep>, n: nat, done: Mask, op: Op, ttps: seq<Ttp>)
    requires n <= |steps| && forall s | s in steps :: s.action != None ==> s.action.value == Block
    ensures Pass(steps, n, done, op, ttps).effect.verdict != Disarmed
  {
    if n > 0 {
      PassNeverDisarms(steps, n - 1, done, op, ttps);
    }
  }

  lemma {:induction false} TotalNeverDisarms(rules: Rules, op: Op, ttps: seq<Ttp>, m: multiset<Auto<Mask>>)
    requires NeverDisarms(rules)
    ensures Total(Reaction(rules, op, ttps), m).verdict != Disarmed
    decreases |m|
  {
    if m != multiset{} {
      var x :| x in m;
      TotalNeverDisarms(rules, op, ttps, m - multiset{x});
      TotalTake(Reaction(rules, op, ttps), m, x);
      if x.pid < |rules| {
        PassNeverDisarms(rules[x.pid].steps, |rules[x.pid].steps|, x.progress, op, ttps);
      }
    }
  }

  lemma ResolveUnder(caps: Caps, b: Lines<Mask>, u: Lines<Mask>, k: Key)
    requires UnderLines(b, u) && Resolve(caps, b, k).Some?
    ensures Resolve(UNBOUNDED, u, k).Some? && k in Resolve(caps, b, k).value
    ensures UnderLines(Resolve(caps, b, k).value, Resolve(UNBOUNDED, u, k).value)
  {
  }

  lemma MergeUnder(caps: Caps, b: Lines<Mask>, u: Lines<Mask>, a: Key, o: Key)
    requires UnderLines(b, u) && a in b && o in b
    requires o in b[a].members || MergeFits(caps, b[a], b[o])
    ensures a in u && o in u && a in Merge(caps, b, a, o)
    ensures UnderLines(Merge(caps, b, a, o), Merge(UNBOUNDED, u, a, o))
  {
    assert b[a].autos + b[o].autos <= u[a].autos + u[o].autos;
  }

  lemma LinkUnder(caps: Caps, b: Lines<Mask>, u: Lines<Mask>, a: Key, o: Key)
    requires UnderLines(b, u) && !LinkHits(caps, b, a, o)
    ensures Link(caps, b, a, o).Linked? && Link(UNBOUNDED, u, a, o).Linked?
    ensures UnderLines(Link(caps, b, a, o).lines, Link(UNBOUNDED, u, a, o).lines)
    ensures a in Link(caps, b, a, o).lines
  {
    hide Merge, Resolve, UnderLines;
    ResolveUnder(caps, b, u, a);
    var b1, u1 := Resolve(caps, b, a).value, Resolve(UNBOUNDED, u, a).value;
    ResolveUnder(caps, b1, u1, o);
    MergeUnder(caps, Resolve(caps, b1, o).value, Resolve(UNBOUNDED, u1, o).value, a, o);
  }

  lemma SeededUnder(caps: Caps, rules: Rules, b: multiset<Auto<Mask>>, u: multiset<Auto<Mask>>, op: Op, ttps: seq<Ttp>)
    requires b <= u
    ensures Seeded(caps, rules, b, op, ttps) <= Seeded(UNBOUNDED, rules, u, op, ttps)
  {
    hide Seeds;
    var seeds := Seeds(rules, |rules|, op, ttps);
    var kept := Kept(caps.automata, |b|, seeds);
    assert kept + seeds[|kept|..] == seeds;
    assert multiset(kept) + multiset(seeds[|kept|..]) == multiset(seeds);
    KeptAll(|u|, seeds);
  }

  lemma AdvanceUnder(caps: Caps, rules: Rules, b: State<Mask>, u: State<Mask>, e: Event, ttps: seq<Ttp>)
    requires Under(b, u) && e.actor in b.lines && NeverDisarms(rules)
    ensures var rb, ru := Advance(caps, rules, b, e, ttps), Advance(UNBOUNDED, rules, u, e, ttps);
      Under(rb.state, ru.state) && rb.verdict.Rank() <= ru.verdict.Rank()
  {
    hide Image, Total, Seeded;
    var xb, xu := b.lines[e.actor], u.lines[e.actor];
    var sb, su := Seeded(caps, rules, xb.autos, e.op, ttps), Seeded(UNBOUNDED, rules, xu.autos, e.op, ttps);
    SeededUnder(caps, rules, xb.autos, xu.autos, e.op, ttps);
    ImageMonotone(Advanced(rules, e.op, ttps), sb, su);
    TotalMonotone(Reaction(rules, e.op, ttps), sb, su);
    TotalNeverDisarms(rules, e.op, ttps, sb);
    TotalNeverDisarms(rules, e.op, ttps, su);
  }

  lemma OnEventUnder(caps: Caps, rules: Rules, b: State<Mask>, u: State<Mask>, e: Event, ttps: seq<Ttp>)
    requires Under(b, u) && NeverDisarms(rules)
    requires Gated(b.disarmed, e.actor, e.op) || !LinkHits(caps, b.lines, e.actor, e.target)
    ensures var rb, ru := OnEvent(caps, rules, b, e, ttps), OnEvent(UNBOUNDED, rules, u, e, ttps);
      Under(rb.state, ru.state) && rb.verdict.Rank() <= ru.verdict.Rank()
  {
    hide Link, LinkHits, Advance, UnderLines;
    if !Gated(b.disarmed, e.actor, e.op) {
      LinkUnder(caps, b.lines, u.lines, e.actor, e.target);
      AdvanceUnder(caps, rules, State(Link(caps, b.lines, e.actor, e.target).lines, b.disarmed),
                   State(Link(UNBOUNDED, u.lines, e.actor, e.target).lines, u.disarmed), e, ttps);
    }
  }

  // In the bounded run, the first `n` events may drop seeds but hit no other ceiling.
  ghost predicate OnlySeedsDropped(caps: Caps, rules: Rules, stream: seq<Tagged>, n: nat)
    requires n <= |stream|
  {
    forall i | 0 <= i < n :: var st := Run(caps, rules, stream, i);
      Gated(st.disarmed, stream[i].event.actor, stream[i].event.op)
      || !LinkHits(caps, st.lines, stream[i].event.actor, stream[i].event.target)
  }

  lemma NothingRun(caps: Caps, rules: Rules, stream: seq<Tagged>)
    ensures Under(Run(caps, rules, stream, 0), Run(UNBOUNDED, rules, stream, 0))
  {
  }

  // Losing seeds only ever weakens the engine.
  lemma {:induction false} DroppedSeedsOnlyWeaken(caps: Caps, rules: Rules, stream: seq<Tagged>, n: nat)
    requires n <= |stream| && NeverDisarms(rules) && OnlySeedsDropped(caps, rules, stream, n)
    ensures Under(Run(caps, rules, stream, n), Run(UNBOUNDED, rules, stream, n))
    ensures forall i | 0 <= i < n ::
      VerdictAt(caps, rules, stream, i).Rank() <= VerdictAt(UNBOUNDED, rules, stream, i).Rank()
  {
    hide OnEvent, LinkHits, Run, VerdictAt, Under;
    if n == 0 {
      NothingRun(caps, rules, stream);
    } else {
      DroppedSeedsOnlyWeaken(caps, rules, stream, n - 1);
      RunNext(caps, rules, stream, n - 1);
      RunNext(UNBOUNDED, rules, stream, n - 1);
      OnEventUnder(caps, rules, Run(caps, rules, stream, n - 1), Run(UNBOUNDED, rules, stream, n - 1),
                   stream[n - 1].event, stream[n - 1].ttps);
    }
  }

  // ----- the first ceiling event itself -----

  lemma ResolvedAutos(caps: Caps, lines: Lines<Mask>, k: Key)
    requires Resolve(caps, lines, k).Some?
    ensures Resolve(UNBOUNDED, lines, k) == Resolve(caps, lines, k)
  {
  }

  // Whatever the link ran into, the actor's automata are among those of the unbounded link.
  lemma LinkLosesAutomata(caps: Caps, lines: Lines<Mask>, a: Key, o: Key)
    requires Partition(lines) && Link(caps, lines, a, o).Linked?
    ensures var b, u := Link(caps, lines, a, o).lines, Link(UNBOUNDED, lines, a, o).lines;
      Link(UNBOUNDED, lines, a, o).Linked? && a in b && a in u && b[a].autos <= u[a].autos
  {
    hide Resolve;
    ResolvedAutos(caps, lines, a);
    var l1 := Resolve(caps, lines, a).value;
    ResolvedAutos(caps, l1, o);
    LinkKeepsPartition(caps, lines, a, o);
    LinkKeepsPartition(UNBOUNDED, lines, a, o);
  }

  // From equal states no single event is answered more strongly by the bounded engine, whatever ceiling it
  // hits: a stronger verdict needs an earlier event that left the states different.
  lemma OneEventNeverStronger(caps: Caps, rules: Rules, st: State<Mask>, e: Event, ttps: seq<Ttp>)
    requires Partition(st.lines)
    ensures OnEvent(caps, rules, st, e, ttps).verdict.Rank() <= OnEvent(UNBOUNDED, rules, st, e, ttps).verdict.Rank()
  {
    hide Link, Total, Image, Seeded, Install, DisarmActor;
    if !Gated(st.disarmed, e.actor, e.op) && Link(caps, st.lines, e.actor, e.target).Linked? {
      LinkLosesAutomata(caps, st.lines, e.actor, e.target);
      var b := Link(caps, st.lines, e.actor, e.target).lines[e.actor].autos;
      var u := Link(UNBOUNDED, st.lines, e.actor, e.target).lines[e.actor].autos;
      SeededUnder(caps, rules, b, u, e.op, ttps);
      TotalMonotone(Reaction(rules, e.op, ttps), Seeded(caps, rules, b, e.op, ttps),
                    Seeded(UNBOUNDED, rules, u, e.op, ttps));
    } else {
      UnboundedNeverFull(st.lines, e.actor, e.target);
    }
  }

  lemma UnboundedNeverFull(lines: Lines<Mask>, a: Key, o: Key)
    ensures Link(UNBOUNDED, lines, a, o).Linked?
  {
  }

  // So on every stream the verdicts stay in order up to and including the first event over a ceiling.
  lemma FirstCeilingEventIsSafe(caps: Caps, rules: Rules, stream: seq<Tagged>, n: nat)
    requires n < |stream| && Clear(caps, rules, stream, n)
    ensures forall i | 0 <= i <= n ::
      VerdictAt(caps, rules, stream, i).Rank() <= VerdictAt(UNBOUNDED, rules, stream, i).Rank()
  {
    hide OnEvent, Hits, Run, VerdictAt;
    EqualWhileClear(caps, rules, stream, n);
    RunKeepsPartition(UNBOUNDED, rules, stream, n);
    RunNext(caps, rules, stream, n);
    RunNext(UNBOUNDED, rules, stream, n);
    OneEventNeverStronger(caps, rules, Run(UNBOUNDED, rules, stream, n), stream[n].event, stream[n].ttps);
  }
}

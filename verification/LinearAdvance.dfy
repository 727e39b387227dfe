/** `ADVANCE` on one storyline, the same in the base and v0.0.1 engines. */
module LinearAdvance {
  import opened Events
  import opened Multisets
  import opened Storylines
  import opened Offers
  import opened LineStore
  import opened LinearSpec
  import Detector

  // Patterns whose first step matches start an automaton, and their first step reacts.
  method SeedAll(rules: Rules, automata: map<nat, seq<Automaton>>, e: Event, ttps: seq<Ttp>, disarmed: map<Key, OpSet>)
    returns (r: map<nat, seq<Automaton>>, v: Verdict, d: map<Key, OpSet>)
    requires NonEmpty(rules) && forall p | p in automata :: p < |rules|
    ensures forall p | p in r :: p < |rules|
    ensures Flat(r, |rules|) == Flat(automata, |rules|) + multiset(Seeds(rules, |rules|, e, ttps))
    ensures v == SeedEffect(rules, |rules|, e.op, ttps).verdict
    ensures d == DisarmActor(UNBOUNDED, disarmed, e.actor, SeedEffect(rules, |rules|, e.op, ttps))
  {
    hide Flat, DisarmActor, ListOf, Seeds, SeedEffect;
    SeedsNone(rules, e, ttps);
    r, v, d := automata, Ignore, disarmed;
    DisarmNothing(UNBOUNDED, disarmed, e.actor);
    for pid := 0 to |rules|
      invariant forall p | p in r :: p < |rules|
      invariant Flat(r, |rules|) == Flat(automata, |rules|) + multiset(Seeds(rules, pid, e, ttps))
      invariant v == SeedEffect(rules, pid, e.op, ttps).verdict
      invariant d == DisarmActor(UNBOUNDED, disarmed, e.actor, SeedEffect(rules, pid, e.op, ttps))
    {
      var steps := rules[pid].steps;
      SeedsNext(rules, pid, e, ttps);
      if steps[0].matcher.Matches(e.op, ttps) {
        FlatPush(r, pid, Automaton(1, e.ts), |rules|);
        r := r[pid := ListOf(r, pid) + [Automaton(1, e.ts)]];
        SeedEffectHonest(rules, pid, e.op, ttps);
        DisarmTwice(UNBOUNDED, disarmed, e.actor, SeedEffect(rules, pid, e.op, ttps), ApplyEffect(steps[0].action));
        var reaction;
        reaction, d := Detector.Apply(steps[0].action, e.actor, d);
        v := v.Max(reaction);
      }
    }
  }

  // Every automaton of one pattern moves on by the one step it is waiting for.
  method AdvanceList(rules: Rules, pid: nat, autos: seq<Automaton>, e: Event, ttps: seq<Ttp>, verdict: Verdict,
      disarmed: map<Key, OpSet>)
    returns (r: seq<Automaton>, v: Verdict, d: map<Key, OpSet>)
    requires pid < |rules|
    ensures Offered(UNBOUNDED, Advanced(rules, e, ttps), Reaction(rules, e.op, ttps), e.actor,
                    multiset(Labelled(pid, autos)), multiset(Labelled(pid, r)), verdict, disarmed, v, d)
  {
    hide Offered;
    ghost var f, g := Advanced(rules, e, ttps), Reaction(rules, e.op, ttps);
    ReactionHonest(rules, e.op, ttps);
    r, v, d := [], verdict, disarmed;
    OfferedNone(UNBOUNDED, f, g, e.actor, v, d);
    for i := 0 to |autos|
      invariant Offered(UNBOUNDED, f, g, e.actor, multiset(Labelled(pid, autos[..i])), multiset(Labelled(pid, r)),
          verdict, disarmed, v, d)
    {
      var a, v', d' := autos[i], v, d;
      OfferedOne(UNBOUNDED, f, g, e.actor, Auto(pid, a), v, d);
      var steps := rules[pid].steps;
      if a.stage < |steps| && steps[a.stage].matcher.Matches(e.op, ttps) {
        var reaction;
        reaction, d' := Detector.Apply(steps[a.stage].action, e.actor, d);
        v' := v.Max(reaction);
        a := Automaton(a.stage + 1, e.ts);
      }
      OfferedBoth(UNBOUNDED, f, g, e.actor, multiset(Labelled(pid, autos[..i])), multiset(Labelled(pid, r)),
                  multiset{Auto(pid, autos[i])}, multiset{Auto(pid, a)}, verdict, disarmed, v, d, v', d');
      LabelledNext(pid, autos, i);
      LabelledNext(pid, r + [a], |r|);
      r, v, d := r + [a], v', d';
    }
    assert autos[..|autos|] == autos;
  }

  method AdvanceAll(rules: Rules, automata: map<nat, seq<Automaton>>, e: Event, ttps: seq<Ttp>, verdict: Verdict,
      disarmed: map<Key, OpSet>)
    returns (r: map<nat, seq<Automaton>>, v: Verdict, d: map<Key, OpSet>)
    requires forall p | p in automata :: p < |rules|
    ensures forall p | p in r :: p < |rules|
    ensures Offered(UNBOUNDED, Advanced(rules, e, ttps), Reaction(rules, e.op, ttps), e.actor,
                    Flat(automata, |rules|), Flat(r, |rules|), verdict, disarmed, v, d)
  {
    hide Offered;
    ghost var f, g := Advanced(rules, e, ttps), Reaction(rules, e.op, ttps);
    ReactionHonest(rules, e.op, ttps);
    r, v, d := automata, verdict, disarmed;
    OfferedNone(UNBOUNDED, f, g, e.actor, v, d);
    for pid := 0 to |rules|
      invariant r.Keys == automata.Keys
      invariant forall p | p in automata && p >= pid :: r[p] == automata[p]
      invariant Offered(UNBOUNDED, f, g, e.actor, Flat(automata, pid), Flat(r, pid), verdict, disarmed, v, d)
    {
      if pid in automata {
        var list, v', d' := AdvanceList(rules, pid, automata[pid], e, ttps, v, d);
        OfferedBoth(UNBOUNDED, f, g, e.actor, Flat(automata, pid), Flat(r, pid), multiset(Labelled(pid, automata[pid])),
                    multiset(Labelled(pid, list)), verdict, disarmed, v, d, v', d');
        FlatNext(automata, pid);
        FlatSame(r, r[pid := list], pid);
        r, v, d := r[pid := list], v', d';
        FlatNext(r, pid);
      } else {
        FlatNext(automata, pid);
        FlatNext(r, pid);
      }
    }
  }

  // Seeds, then advances: the storyline record after the event, the verdict and the disarm map.
  method AdvanceRecord(rules: Rules, line: Storyline<Automaton>, e: Event, ttps: seq<Ttp>, disarmed: map<Key, OpSet>)
    returns (r: Storyline<Automaton>, v: Verdict, d: map<Key, OpSet>)
    requires NonEmpty(rules) && forall p | p in line.automata :: p < |rules|
    ensures r.members == line.members && forall p | p in r.automata :: p < |rules|
    ensures StoryOf(r, |rules|) == AdvanceStory(rules, StoryOf(line, |rules|), e, ttps)
    ensures v == StoryEffect(rules, StoryOf(line, |rules|), e, ttps).verdict
    ensures d == DisarmActor(UNBOUNDED, disarmed, e.actor, StoryEffect(rules, StoryOf(line, |rules|), e, ttps))
  {
    hide Flat, Image, Total, DisarmActor, Seeds, SeedEffect;
    var automata;
    automata, v, d := SeedAll(rules, line.automata, e, ttps, disarmed);
    ghost var seeded := Flat(automata, |rules|);
    automata, v, d := AdvanceAll(rules, automata, e, ttps, v, d);
    r := Storyline(line.members, automata, e.ts);
    SeedEffectHonest(rules, |rules|, e.op, ttps);
    ReactionHonest(rules, e.op, ttps);
    TotalHonest(Reaction(rules, e.op, ttps), seeded);
    DisarmTwice(UNBOUNDED, disarmed, e.actor, SeedEffect(rules, |rules|, e.op, ttps),
                Total(Reaction(rules, e.op, ttps), seeded));
  }
}

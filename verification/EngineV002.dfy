/** Engine v0.0.2: storylines without a graph, patterns as partial orders with bit-mask progress. */
module EngineV002 {
  import opened Events
  import opened Multisets
  import opened Storylines
  import opened Offers
  import opened LineTable
  import opened LineStore
  import opened DagSpec
  import DagMeaning
  import Detector

  // One fresh automaton for every root step of pattern `pid` the event matches.
  method SeedPattern(rules: Rules, pid: nat, automata: map<nat, seq<Mask>>, op: Op,
      ttps: seq<Ttp>) returns (r: map<nat, seq<Mask>>)
    requires pid < |rules| && forall p | p in automata :: p < |rules|
    ensures forall p | p in r :: p < |rules|
    ensures Flat(r, |rules|) == Flat(automata, |rules|)
                              + multiset(StepSeeds(rules[pid].steps, |rules[pid].steps|, pid, op, ttps))
  {
    hide Flat, ListOf, StepSeeds;
    r := automata;
    var steps := rules[pid].steps;
    StepSeedsNone(steps, pid, op, ttps);
    for i := 0 to |steps|
      invariant forall p | p in r :: p < |rules|
      invariant Flat(r, |rules|) == Flat(automata, |rules|) + multiset(StepSeeds(steps, i, pid, op, ttps))
    {
      StepSeedsNext(steps, i, pid, op, ttps);
      if IsRootMatch(steps[i], op, ttps) {
        FlatPush(r, pid, {}, |rules|);
        r := r[pid := ListOf(r, pid) + [{}]];
      }
    }
  }

  method SeedAll(rules: Rules, automata: map<nat, seq<Mask>>, op: Op, ttps: seq<Ttp>) returns (r: map<nat, seq<Mask>>)
    requires forall p | p in automata :: p < |rules|
    ensures forall p | p in r :: p < |rules|
    ensures Flat(r, |rules|) == Flat(automata, |rules|) + multiset(Seeds(rules, |rules|, op, ttps))
  {
    hide Flat, StepSeeds;
    r := automata;
    for pid := 0 to |rules|
      invariant forall p | p in r :: p < |rules|
      invariant Flat(r, |rules|) == Flat(automata, |rules|) + multiset(Seeds(rules, pid, op, ttps))
    {
      r := SeedPattern(rules, pid, r, op, ttps);
    }
  }

  lemma PassStart(steps: seq<DagStep>, start: Mask, e: Event, ttps: seq<Ttp>, verdict: Verdict,
      disarmed: map<Key, OpSet>)
    ensures Pass(steps, 0, start, e.op, ttps) == Progress(start, NOTHING)
    ensures verdict == verdict.Max(NOTHING.verdict) && disarmed == DisarmActor(UNBOUNDED, disarmed, e.actor, NOTHING)
  {
  }

  // What the pass adds at step `i`.
  lemma PassNext(steps: seq<DagStep>, i: nat, start: Mask, e: Event, ttps: seq<Ttp>, verdict: Verdict,
      disarmed: map<Key, OpSet>)
    requires i < |steps|
    ensures var p, q, eff := Pass(steps, i, start, e.op, ttps), Pass(steps, i + 1, start, e.op, ttps),
        ApplyEffect(steps[i].action);
      if Commits(steps[i], p.done, e.op, ttps) then
        && q.done == p.done + {steps[i].bit}
        && verdict.Max(q.effect.verdict) == verdict.Max(p.effect.verdict).Max(eff.verdict)
        && DisarmActor(UNBOUNDED, disarmed, e.actor, q.effect)
           == DisarmActor(UNBOUNDED, DisarmActor(UNBOUNDED, disarmed, e.actor, p.effect), e.actor, eff)
      else q == p
  {
    PassHonest(steps, i, start, e.op, ttps);
    DisarmTwice(UNBOUNDED, disarmed, e.actor, Pass(steps, i, start, e.op, ttps).effect, ApplyEffect(steps[i].action));
  }

  // Offers the event to every step of one automaton, in declaration order.
  method OfferSteps(steps: seq<DagStep>, start: Mask, e: Event, ttps: seq<Ttp>, verdict: Verdict,
      disarmed: map<Key, OpSet>)
    returns (done: Mask, v: Verdict, d: map<Key, OpSet>)
    ensures var p := Pass(steps, |steps|, start, e.op, ttps);
      && done == p.done && v == verdict.Max(p.effect.verdict)
      && d == DisarmActor(UNBOUNDED, disarmed, e.actor, p.effect)
  {
    hide Pass, Commits, DisarmActor, ApplyEffect, Verdict.Max;
    PassStart(steps, start, e, ttps, verdict, disarmed);
    done, v, d := start, verdict, disarmed;
    for i := 0 to |steps|
      invariant var p := Pass(steps, i, start, e.op, ttps);
        && done == p.done && v == verdict.Max(p.effect.verdict)
        && d == DisarmActor(UNBOUNDED, disarmed, e.actor, p.effect)
    {
      PassNext(steps, i, start, e, ttps, verdict, disarmed);
      if Commits(steps[i], done, e.op, ttps) {
        var reaction;
        done := done + {steps[i].bit};
        reaction, d := Detector.Apply(steps[i].action, e.actor, d);
        v := v.Max(reaction);
      }
    }
  }

  method AdvanceList(rules: Rules, pid: nat, autos: seq<Mask>, e: Event, ttps: seq<Ttp>, verdict: Verdict,
      disarmed: map<Key, OpSet>)
    returns (r: seq<Mask>, v: Verdict, d: map<Key, OpSet>)
    requires pid < |rules|
    ensures Offered(UNBOUNDED, Advanced(rules, e.op, ttps), Reaction(rules, e.op, ttps), e.actor,
        multiset(Labelled(pid, autos)), multiset(Labelled(pid, r)), verdict, disarmed, v, d)
  {
    hide Offered;
    ghost var f, g := Advanced(rules, e.op, ttps), Reaction(rules, e.op, ttps);
    ReactionHonest(rules, e.op, ttps);
    r, v, d := [], verdict, disarmed;
    OfferedNone(UNBOUNDED, f, g, e.actor, v, d);
    for i := 0 to |autos|
      invariant Offered(UNBOUNDED, f, g, e.actor, multiset(Labelled(pid, autos[..i])), multiset(Labelled(pid, r)),
          verdict, disarmed, v, d)
    {
      var done, v', d' := OfferSteps(rules[pid].steps, autos[i], e, ttps, v, d);
      OfferedOne(UNBOUNDED, f, g, e.actor, Auto(pid, autos[i]), v, d);
      OfferedBoth(UNBOUNDED, f, g, e.actor, multiset(Labelled(pid, autos[..i])), multiset(Labelled(pid, r)),
                  multiset{Auto(pid, autos[i])}, multiset{Auto(pid, done)}, verdict, disarmed, v, d, v', d');
      LabelledNext(pid, autos, i);
      LabelledNext(pid, r + [done], |r|);
      r, v, d := r + [done], v', d';
    }
    assert autos[..|autos|] == autos;
  }

  // Every automaton of the storyline, patterns in ascending order.
  method AdvanceAll(rules: Rules, automata: map<nat, seq<Mask>>, e: Event, ttps: seq<Ttp>, disarmed: map<Key, OpSet>)
    returns (r: map<nat, seq<Mask>>, v: Verdict, d: map<Key, OpSet>)
    requires forall p | p in automata :: p < |rules|
    ensures forall p | p in r :: p < |rules|
    ensures Offered(UNBOUNDED, Advanced(rules, e.op, ttps), Reaction(rules, e.op, ttps), e.actor,
                    Flat(automata, |rules|), Flat(r, |rules|), Ignore, disarmed, v, d)
  {
    hide Offered;
    ghost var f, g := Advanced(rules, e.op, ttps), Reaction(rules, e.op, ttps);
    ReactionHonest(rules, e.op, ttps);
    r, v, d := automata, Ignore, disarmed;
    OfferedNone(UNBOUNDED, f, g, e.actor, v, d);
    for pid := 0 to |rules|
      invariant r.Keys == automata.Keys
      invariant forall p | p in automata && p >= pid :: r[p] == automata[p]
      invariant Offered(UNBOUNDED, f, g, e.actor, Flat(automata, pid), Flat(r, pid), Ignore, disarmed, v, d)
    {
      if pid in automata {
        var list, v', d' := AdvanceList(rules, pid, automata[pid], e, ttps, v, d);
        OfferedBoth(UNBOUNDED, f, g, e.actor, Flat(automata, pid), Flat(r, pid), multiset(Labelled(pid, automata[pid])),
                    multiset(Labelled(pid, list)), Ignore, disarmed, v, d, v', d');
        FlatNext(automata, pid);
        FlatSame(r, r[pid := list], pid);
        r, v, d := r[pid := list], v', d';
        FlatNext(r, pid);
      } else {
        FlatNext(automata, pid);
        FlatNext(r, pid);
      }
    }
  }

  // Seeds, then advances: the storyline record after the event, the verdict and the disarm map.
  method AdvanceRecord(rules: Rules, line: Storyline<Mask>, e: Event, ttps: seq<Ttp>, disarmed: map<Key, OpSet>)
    returns (r: Storyline<Mask>, v: Verdict, d: map<Key, OpSet>)
    requires forall p | p in line.automata :: p < |rules|
    ensures r.members == line.members && forall p | p in r.automata :: p < |rules|
    ensures StoryOf(r, |rules|) == AdvanceStory(UNBOUNDED, rules, StoryOf(line, |rules|), e, ttps)
    ensures v == StoryEffect(UNBOUNDED, rules, StoryOf(line, |rules|), e, ttps).verdict
    ensures d == DisarmActor(UNBOUNDED, disarmed, e.actor,
                             StoryEffect(UNBOUNDED, rules, StoryOf(line, |rules|), e, ttps))
  {
    hide Flat, Image, Total, DisarmActor, Seeds, Advanced, Reaction;
    var automata := SeedAll(rules, line.automata, e.op, ttps);
    automata, v, d := AdvanceAll(rules, automata, e, ttps, disarmed);
    r := Storyline(line.members, automata, e.ts);
  }

  class Engine {
    const rules: Rules
    const store: Store<Mask>
    var disarmed: map<Key, OpSet>

    ghost predicate Valid()
      reads this, store
    {
      store.Valid() && store.patterns == |rules| && BitsFit(rules)
    }

    // The whole observable state: the partition, the automata and the disarm map.
    ghost function Observed(): State<Mask>
      reads this, store
      requires Valid()
    {
      State(store.Lines(), disarmed)
    }

    constructor (rules: Rules)
      requires BitsFit(rules)
      ensures Valid() && fresh(store) && this.rules == rules
      ensures Observed() == State(map[], map[])
    {
      this.rules := rules;
      this.disarmed := map[];
      this.store := new Store(|rules|);
    }

    method OnEvent(e: Event, ttps: seq<Ttp>) returns (v: Verdict)
      requires Valid()
      modifies this, store
      ensures Valid()
      ensures Outcome(Observed(), v) == DagSpec.OnEvent(UNBOUNDED, rules, old(Observed()), e, ttps)
      ensures DagMeaning.RightAnswer(UNBOUNDED, rules, old(Observed()), e, ttps, Observed(), v)
    {
      hide Image, Total, Merge, Resolve, DagMeaning.RightAnswer;
      ViewPartition(store.line, Table(store.storylines, |rules|));
      DagMeaning.AnswersRightly(UNBOUNDED, rules, Observed(), e, ttps);
      if e.actor in disarmed && Contains(disarmed[e.actor], e.op) {
        return Blocked;
      }
      var s := store.Unify(e.actor, e.target);
      v := AdvanceLine(s, e, ttps);
    }

    method AdvanceLine(s: nat, e: Event, ttps: seq<Ttp>) returns (v: Verdict)
      requires Valid() && e.actor in store.line && store.line[e.actor] == s
      modifies this, store
      ensures Valid() && e.actor in old(Observed()).lines
      ensures Outcome(Observed(), v) == Advance(UNBOUNDED, rules, old(Observed()), e, ttps)
    {
      hide Consistent, View, Table, PidsFit, StoryOf, AdvanceStory, StoryEffect;
      SameSlot(store.line, Table(store.storylines, |rules|), e.actor, e.actor);
      ViewKeys(store.line, Table(store.storylines, |rules|));
      CellFits(store.storylines, |rules|, s);
      var after;
      after, v, disarmed := AdvanceRecord(rules, store.storylines[s].value, e, ttps, disarmed);
      CellRewritten(store.line, store.storylines, |rules|, s, after);
      store.storylines := store.storylines[s := Some(after)];
    }
  }
}

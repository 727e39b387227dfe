/** A fixed step sequence is the partial order that is a chain: rewritten that way, v0.0.2 does what v0.0.1
    does exactly as long as no event takes an automaton two steps at once. */
module Chain {
  import opened Events
  import opened Multisets
  import opened Storylines
  import L = LinearSpec
  import D = DagSpec

  // Step i sets bit i and needs bit i-1.
  function ChainStep(s: L.Step, i: nat): D.DagStep {
    D.DagStep(s.matcher, i, if i == 0 then {} else {i - 1}, s.action)
  }

  function ChainSteps(steps: seq<L.Step>): (r: seq<D.DagStep>)
    ensures |r| == |steps|
  {
    seq(|steps|, i requires 0 <= i < |steps| => ChainStep(steps[i], i))
  }

  function ChainRules(rules: L.Rules): (r: D.Rules)
    ensures |r| == |rules|
    ensures forall p | 0 <= p < |rules| :: r[p].steps == ChainSteps(rules[p].steps)
  {
    seq(|rules|, p requires 0 <= p < |rules| => D.DagPattern(rules[p].name, ChainSteps(rules[p].steps)))
  }

  // Every pattern has at most as many steps as a mask has bits.
  ghost predicate FitsMask(rules: L.Rules) {
    forall p | p in rules :: |p.steps| <= D.MASK_BITS
  }

  lemma ChainFits(rules: L.Rules)
    requires FitsMask(rules)
    ensures D.BitsFit(ChainRules(rules))
  {
    var r := ChainRules(rules);
    forall p, s | p in r && s in p.steps
      ensures s.bit < D.MASK_BITS
    {
      var i :| 0 <= i < |r| && r[i] == p;
      assert rules[i] in rules;
    }
  }

  // The automaton waits for a step, and the event matches that step and the next.
  predicate Doubles(rules: L.Rules, a: Auto<L.Automaton>, op: Op, ttps: seq<Ttp>) {
    && a.pid < |rules| && a.progress.stage + 1 < |rules[a.pid].steps|
    && rules[a.pid].steps[a.progress.stage].matcher.Matches(op, ttps)
    && rules[a.pid].steps[a.progress.stage + 1].matcher.Matches(op, ttps)
  }

  ghost predicate Single(rules: L.Rules, m: multiset<Auto<L.Automaton>>, op: Op, ttps: seq<Ttp>) {
    forall a | a in m :: !Doubles(rules, a, op, ttps)
  }

  /** The event passes the gate, and some automaton it is offered to, freshly seeded ones included, waits for
      two matching steps in a row. The test looks only at the state before the event. */
  ghost predicate TakesTwo(rules: L.Rules, st: State<L.Automaton>, e: Event, ttps: seq<Ttp>) {
    && !Gated(st.disarmed, e.actor, e.op)
    && var lines := Link(UNBOUNDED, st.lines, e.actor, e.target).lines;
       e.actor in lines && !Single(rules, L.Seeded(rules, lines[e.actor].autos, e, ttps), e.op, ttps)
  }

  // `stage` steps matched are the first `stage` bits.
  ghost function AsMask(): Auto<L.Automaton> -> Auto<Mask> {
    (a: Auto<L.Automaton>) => Auto(a.pid, Below(a.progress.stage))
  }

  ghost function AsStory(s: Story<L.Automaton>): Story<Mask> {
    Story(s.members, Image(AsMask(), s.autos), s.last)
  }

  ghost function AsLines(lines: Lines<L.Automaton>): Lines<Mask> {
    map k | k in lines :: AsStory(lines[k])
  }

  ghost function AsState(st: State<L.Automaton>): State<Mask> {
    State(AsLines(st.lines), st.disarmed)
  }

  // ----- one automaton -----

  // Where a pass over the first `n` steps takes an automaton with the first `stage` bits set.
  function PassedTo(steps: seq<L.Step>, n: nat, stage: nat, op: Op, ttps: seq<Ttp>): (r: nat)
    requires n <= |steps|
    ensures stage <= r
  {
    if n == 0 then stage else
    var before := PassedTo(steps, n - 1, stage, op, ttps);
    if before == n - 1 && steps[n - 1].matcher.Matches(op, ttps) then n else before
  }

  lemma {:induction false} ChainPass(steps: seq<L.Step>, n: nat, stage: nat, op: Op, ttps: seq<Ttp>)
    requires n <= |steps|
    ensures D.Pass(ChainSteps(steps), n, Below(stage), op, ttps).done == Below(PassedTo(steps, n, stage, op, ttps))
  {
    hide ChainSteps, Below, ApplyEffect, StepMatch.Matches;
    if n > 0 {
      ChainPass(steps, n - 1, stage, op, ttps);
      WaitsFor(steps, n - 1, PassedTo(steps, n - 1, stage, op, ttps));
    }
  }

  // An automaton with `stage` bits set waits for step `stage` of the chain.
  lemma WaitsFor(steps: seq<L.Step>, k: nat, stage: nat)
    requires k < |steps|
    ensures var s := ChainSteps(steps)[k];
      && s.matcher == steps[k].matcher && s.action == steps[k].action && s.bit == k
      && (s.prereq <= Below(stage) <==> k <= stage) && (s.bit in Below(stage) <==> k < stage)
      && (k == stage ==> Below(stage) + {s.bit} == Below(stage + 1))
  {
    var s := ChainSteps(steps)[k];
    assert k > 0 ==> k - 1 in s.prereq;
  }

  // The pass commits the one step the automaton waits for, unless the next one matches too.
  lemma {:induction false} PassOnce(steps: seq<L.Step>, n: nat, stage: nat, op: Op, ttps: seq<Ttp>)
    requires n <= |steps|
    requires stage + 1 < |steps| && steps[stage].matcher.Matches(op, ttps) ==>
      !steps[stage + 1].matcher.Matches(op, ttps)
    ensures D.Pass(ChainSteps(steps), n, Below(stage), op, ttps) ==
      if stage < n && steps[stage].matcher.Matches(op, ttps)
      then D.Progress(Below(stage + 1), ApplyEffect(steps[stage].action))
      else D.Progress(Below(stage), NOTHING)
  {
    hide ChainSteps, Below, ApplyEffect, StepMatch.Matches;
    if n > 0 {
      PassOnce(steps, n - 1, stage, op, ttps);
      JoinUnit(ApplyEffect(steps[n - 1].action));
      WaitsFor(steps, n - 1, stage);
      WaitsFor(steps, n - 1, stage + 1);
    }
  }

  lemma {:induction false} PassTwice(steps: seq<L.Step>, n: nat, stage: nat, op: Op, ttps: seq<Ttp>)
    requires n <= |steps| && stage + 1 < |steps|
    requires steps[stage].matcher.Matches(op, ttps) && steps[stage + 1].matcher.Matches(op, ttps)
    ensures n <= stage + 1 ==> PassedTo(steps, n, stage, op, ttps) == if n <= stage then stage else n
    ensures n > stage + 1 ==> PassedTo(steps, n, stage, op, ttps) > stage + 1
  {
    hide StepMatch.Matches;
    if n > 0 {
      PassTwice(steps, n - 1, stage, op, ttps);
    }
  }

  // v0.0.2 never falls behind, and gets ahead exactly where an automaton doubles.
  lemma OneAutomaton(rules: L.Rules, e: Event, ttps: seq<Ttp>, a: Auto<L.Automaton>)
    ensures var d, l := D.Advanced(ChainRules(rules), e.op, ttps)(AsMask()(a)), AsMask()(L.Advanced(rules, e, ttps)(a));
      && (Doubles(rules, a, e.op, ttps) ==> |d.progress| > |l.progress|)
      && (!Doubles(rules, a, e.op, ttps) ==> d == l)
    ensures !Doubles(rules, a, e.op, ttps) ==>
      D.Reaction(ChainRules(rules), e.op, ttps)(AsMask()(a)) == L.Reaction(rules, e.op, ttps)(a)
  {
    if a.pid < |rules| {
      var steps, stage := rules[a.pid].steps, a.progress.stage;
      if Doubles(rules, a, e.op, ttps) {
        PassTwice(steps, |steps|, stage, e.op, ttps);
        ChainPass(steps, |steps|, stage, e.op, ttps);
      } else {
        PassOnce(steps, |steps|, stage, e.op, ttps);
      }
    }
  }

  // ----- all automata -----

  lemma {:induction false} AllSingle(rules: L.Rules, e: Event, ttps: seq<Ttp>, m: multiset<Auto<L.Automaton>>)
    requires Single(rules, m, e.op, ttps)
    ensures Image(D.Advanced(ChainRules(rules), e.op, ttps), Image(AsMask(), m))
         == Image(AsMask(), Image(L.Advanced(rules, e, ttps), m))
    ensures Total(D.Reaction(ChainRules(rules), e.op, ttps), Image(AsMask(), m))
         == Total(L.Reaction(rules, e.op, ttps), m)
    decreases |m|
  {
    if m != multiset{} {
      var x :| x in m;
      var rest := m - multiset{x};
      var df, dg := D.Advanced(ChainRules(rules), e.op, ttps), D.Reaction(ChainRules(rules), e.op, ttps);
      var lf, lg := L.Advanced(rules, e, ttps), L.Reaction(rules, e.op, ttps);
      AllSingle(rules, e, ttps, rest);
      OneAutomaton(rules, e, ttps, x);
      ImageTake(AsMask(), m, x);
      ImageTake(lf, m, x);
      TotalTake(lg, m, x);
      ImageAdd(df, Image(AsMask(), rest), AsMask()(x));
      TotalAdd(dg, Image(AsMask(), rest), AsMask()(x));
      ImageAdd(AsMask(), Image(lf, rest), lf(x));
    }
  }

  // The bits set in all automata together.
  ghost function Weight(m: multiset<Auto<Mask>>): nat
    decreases |m|
  {
    if m == multiset{} then 0 else
    var x :| x in m;
    Weight(m - multiset{x}) + |x.progress|
  }

  lemma {:induction false} WeightTake(m: multiset<Auto<Mask>>, x: Auto<Mask>)
    requires x in m
    ensures Weight(m) == Weight(m - multiset{x}) + |x.progress|
    decreases |m|
  {
    var y :| y in m && Weight(m) == Weight(m - multiset{y}) + |y.progress|;
    if x != y {
      assert m - multiset{y} - multiset{x} == m - multiset{x} - multiset{y};
      WeightTake(m - multiset{y}, x);
      WeightTake(m - multiset{x}, y);
    }
  }

  lemma WeightAdd(m: multiset<Auto<Mask>>, x: Auto<Mask>)
    ensures Weight(m + multiset{x}) == Weight(m) + |x.progress|
  {
    WeightTake(m + multiset{x}, x);
    assert m + multiset{x} - multiset{x} == m;
  }

  lemma WeightImage<A, B>(f: B -> Auto<Mask>, g: A -> B, m: multiset<A>, x: A)
    requires x in m
    ensures Weight(Image(f, Image(g, m))) == Weight(Image(f, Image(g, m - multiset{x}))) + |f(g(x)).progress|
  {
    hide Image, Weight;
    ImageTake(g, m, x);
    ImageAdd(f, Image(g, m - multiset{x}), g(x));
    WeightAdd(Image(f, Image(g, m - multiset{x})), f(g(x)));
  }

  // One automaton ahead cannot be made up for by the others.
  lemma {:induction false} WeightsDiffer(rules: L.Rules, e: Event, ttps: seq<Ttp>, m: multiset<Auto<L.Automaton>>)
    ensures var d := Weight(Image(D.Advanced(ChainRules(rules), e.op, ttps), Image(AsMask(), m)));
      var l := Weight(Image(AsMask(), Image(L.Advanced(rules, e, ttps), m)));
      d >= l && (!Single(rules, m, e.op, ttps) ==> d > l)
    decreases |m|
  {
    hide Image, Weight, D.Advanced, L.Advanced, AsMask, Doubles, ChainRules;
    if m != multiset{} {
      var x :| x in m;
      WeightsDiffer(rules, e, ttps, m - multiset{x});
      OneAutomaton(rules, e, ttps, x);
      WeightImage(D.Advanced(ChainRules(rules), e.op, ttps), AsMask(), m, x);
      WeightImage(AsMask(), L.Advanced(rules, e, ttps), m, x);
      assert forall a | a in m :: a == x || a in m - multiset{x};
    } else {
      NoWeight(rules, e, ttps);
    }
  }

  lemma NoWeight(rules: L.Rules, e: Event, ttps: seq<Ttp>)
    ensures Weight(Image(D.Advanced(ChainRules(rules), e.op, ttps), Image(AsMask(), multiset{}))) == 0
    ensures Weight(Image(AsMask(), Image(L.Advanced(rules, e, ttps), multiset{}))) == 0
  {
    ImageNone(AsMask());
    ImageNone(L.Advanced(rules, e, ttps));
  }

  // ----- seeding -----

  lemma {:induction false} ChainStepSeeds(steps: seq<L.Step>, n: nat, pid: nat, op: Op, ttps: seq<Ttp>)
    requires 0 < n <= |steps|
    ensures D.StepSeeds(ChainSteps(steps), n, pid, op, ttps)
         == if steps[0].matcher.Matches(op, ttps) then [Auto(pid, {})] else []
  {
    if n > 1 {
      ChainStepSeeds(steps, n - 1, pid, op, ttps);
    } else {
      assert D.StepSeeds(ChainSteps(steps), 0, pid, op, ttps) == [];
    }
  }

  lemma ChainSeedsNone(rules: L.Rules, op: Op, ttps: seq<Ttp>)
    ensures D.Seeds(ChainRules(rules), 0, op, ttps) == []
  {
  }

  lemma ChainSeedsNext(rules: L.Rules, n: nat, op: Op, ttps: seq<Ttp>)
    requires n < |rules| && rules[n].steps != []
    ensures multiset(D.Seeds(ChainRules(rules), n + 1, op, ttps)) ==
      if L.Starts(rules[n], op, ttps) then multiset(D.Seeds(ChainRules(rules), n, op, ttps)) + multiset{Auto(n, {})}
      else multiset(D.Seeds(ChainRules(rules), n, op, ttps))
  {
    var steps, before := rules[n].steps, D.Seeds(ChainRules(rules), n, op, ttps);
    ChainStepSeeds(steps, |steps|, n, op, ttps);
    assert D.Seeds(ChainRules(rules), n + 1, op, ttps)
        == before + if L.Starts(rules[n], op, ttps) then [Auto(n, {})] else [];
    assert before + [] == before;
  }

  // A pass that starts on an empty mask and commits step 0 goes on as if it had started with bit 0.
  lemma {:induction false} SeedPass(steps: seq<L.Step>, n: nat, op: Op, ttps: seq<Ttp>)
    requires 0 < n <= |steps| && steps[0].matcher.Matches(op, ttps)
    ensures var fresh', started := D.Pass(ChainSteps(steps), n, {}, op, ttps),
        D.Pass(ChainSteps(steps), n, Below(1), op, ttps);
      fresh'.done == started.done && fresh'.effect == ApplyEffect(steps[0].action).Join(started.effect)
  {
    if n == 1 {
      FirstCommits(steps, op, ttps);
    } else {
      SeedPass(steps, n - 1, op, ttps);
      PassNext(ChainSteps(steps), n, {}, op, ttps);
      PassNext(ChainSteps(steps), n, Below(1), op, ttps);
      hide ChainSteps, ApplyEffect, D.Commits, D.Pass, Below;
      JoinAssociates(ApplyEffect(steps[0].action), D.Pass(ChainSteps(steps), n - 1, Below(1), op, ttps).effect,
                     ApplyEffect(ChainSteps(steps)[n - 1].action));
    }
  }

  lemma PassNext(steps: seq<D.DagStep>, n: nat, done: Mask, op: Op, ttps: seq<Ttp>)
    requires 0 < n <= |steps|
    ensures var p, s := D.Pass(steps, n - 1, done, op, ttps), steps[n - 1];
      D.Pass(steps, n, done, op, ttps) ==
      if D.Commits(s, p.done, op, ttps) then D.Progress(p.done + {s.bit}, p.effect.Join(ApplyEffect(s.action))) else p
  {
  }

  lemma FirstCommits(steps: seq<L.Step>, op: Op, ttps: seq<Ttp>)
    requires steps != [] && steps[0].matcher.Matches(op, ttps)
    ensures D.Pass(ChainSteps(steps), 1, {}, op, ttps) == D.Progress(Below(1), ApplyEffect(steps[0].action))
    ensures D.Pass(ChainSteps(steps), 1, Below(1), op, ttps) == D.Progress(Below(1), NOTHING)
    ensures ApplyEffect(steps[0].action).Join(NOTHING) == ApplyEffect(steps[0].action)
  {
    assert Below(1) == {0} && ChainSteps(steps)[0] == ChainStep(steps[0], 0);
    assert D.Pass(ChainSteps(steps), 0, {}, op, ttps) == D.Progress({}, NOTHING);
    assert D.Pass(ChainSteps(steps), 0, Below(1), op, ttps) == D.Progress(Below(1), NOTHING);
    JoinUnit(ApplyEffect(steps[0].action));
  }

  // The seeds `ds` of v0.0.2 end where the seeds `ls` of v0.0.1, read as masks, end; what `ds` add is `eff`.
  ghost predicate SeedsAgree(rules: L.Rules, e: Event, ttps: seq<Ttp>, ds: multiset<Auto<Mask>>,
                             ls: multiset<Auto<L.Automaton>>, eff: Effect) {
    var df, dg := D.Advanced(ChainRules(rules), e.op, ttps), D.Reaction(ChainRules(rules), e.op, ttps);
    && Image(df, ds) == Image(df, Image(AsMask(), ls))
    && Total(dg, ds) == eff.Join(Total(dg, Image(AsMask(), ls)))
  }

  // A seed of v0.0.1 starts with its first step matched; v0.0.2 seeds an empty mask and commits bit 0.
  lemma {:induction false} AllSeeds(rules: L.Rules, n: nat, e: Event, ttps: seq<Ttp>)
    requires n <= |rules| && L.NonEmpty(rules)
    ensures SeedsAgree(rules, e, ttps, multiset(D.Seeds(ChainRules(rules), n, e.op, ttps)),
                       multiset(L.Seeds(rules, n, e, ttps)), L.SeedEffect(rules, n, e.op, ttps))
  {
    hide SeedsAgree, D.Seeds, L.Seeds, L.SeedEffect, ChainRules, L.Starts;
    if n == 0 {
      NoSeedsAgree(rules, e, ttps);
      L.SeedsNone(rules, e, ttps);
      ChainSeedsNone(rules, e.op, ttps);
    } else {
      AllSeeds(rules, n - 1, e, ttps);
      assert rules[n - 1] in rules;
      ChainSeedsNext(rules, n - 1, e.op, ttps);
      L.SeedsNext(rules, n - 1, e, ttps);
      if L.Starts(rules[n - 1], e.op, ttps) {
        OneSeed(rules, n - 1, e, ttps, multiset(D.Seeds(ChainRules(rules), n - 1, e.op, ttps)),
                multiset(L.Seeds(rules, n - 1, e, ttps)), L.SeedEffect(rules, n - 1, e.op, ttps));
      }
    }
  }

  lemma NoSeedsAgree(rules: L.Rules, e: Event, ttps: seq<Ttp>)
    ensures SeedsAgree(rules, e, ttps, multiset{}, multiset{}, NOTHING)
  {
    ImageNone(AsMask());
  }

  lemma OneSeed(rules: L.Rules, pid: nat, e: Event, ttps: seq<Ttp>, ds: multiset<Auto<Mask>>,
                ls: multiset<Auto<L.Automaton>>, eff: Effect)
    requires pid < |rules| && L.Starts(rules[pid], e.op, ttps) && SeedsAgree(rules, e, ttps, ds, ls, eff)
    ensures SeedsAgree(rules, e, ttps, ds + multiset{Auto(pid, {})}, ls + multiset{Auto(pid, L.Automaton(1, e.ts))},
                       eff.Join(ApplyEffect(rules[pid].steps[0].action)))
  {
    hide Image, Total;
    var d, l, first := Auto(pid, {}), Auto(pid, L.Automaton(1, e.ts)), ApplyEffect(rules[pid].steps[0].action);
    var df, dg := D.Advanced(ChainRules(rules), e.op, ttps), D.Reaction(ChainRules(rules), e.op, ttps);
    SeedPass(rules[pid].steps, |rules[pid].steps|, e.op, ttps);
    assert df(d) == df(AsMask()(l)) && dg(d) == first.Join(dg(AsMask()(l)));
    ImageAdd(AsMask(), ls, l);
    ImageAdd(df, ds, d);
    ImageAdd(df, Image(AsMask(), ls), AsMask()(l));
    TotalAdd(dg, ds, d);
    TotalAdd(dg, Image(AsMask(), ls), AsMask()(l));
    Regroup(eff, Total(dg, Image(AsMask(), ls)), first, dg(AsMask()(l)));
  }

  lemma Regroup(a: Effect, b: Effect, c: Effect, d: Effect)
    ensures a.Join(b).Join(c.Join(d)) == a.Join(c).Join(b.Join(d))
  {
  }

  // ----- one event -----

  // The automata the event is offered to, in both engines, are the same up to how a seed begins.
  lemma SameOffer(rules: L.Rules, x: Story<L.Automaton>, e: Event, ttps: seq<Ttp>)
    requires L.NonEmpty(rules)
    ensures var m := Image(AsMask(), L.Seeded(rules, x.autos, e, ttps));
      && D.AdvanceStory(UNBOUNDED, ChainRules(rules), AsStory(x), e, ttps)
         == Story(x.members, Image(D.Advanced(ChainRules(rules), e.op, ttps), m), e.ts)
      && D.StoryEffect(UNBOUNDED, ChainRules(rules), AsStory(x), e, ttps)
         == L.SeedEffect(rules, |rules|, e.op, ttps).Join(Total(D.Reaction(ChainRules(rules), e.op, ttps), m))
  {
    hide Image, Total, D.Seeds, L.Seeds, L.SeedEffect, D.Advanced, D.Reaction;
    var df, dg := D.Advanced(ChainRules(rules), e.op, ttps), D.Reaction(ChainRules(rules), e.op, ttps);
    var ds := multiset(D.Seeds(ChainRules(rules), |rules|, e.op, ttps));
    var ls := multiset(L.Seeds(rules, |rules|, e, ttps));
    var seed, old', new' := L.SeedEffect(rules, |rules|, e.op, ttps), Total(dg, Image(AsMask(), x.autos)),
      Total(dg, Image(AsMask(), ls));
    AllSeeds(rules, |rules|, e, ttps);
    ImageUnion(AsMask(), x.autos, ls);
    ImageUnion(df, Image(AsMask(), x.autos), ds);
    ImageUnion(df, Image(AsMask(), x.autos), Image(AsMask(), ls));
    TotalUnion(dg, Image(AsMask(), x.autos), ds);
    TotalUnion(dg, Image(AsMask(), x.autos), Image(AsMask(), ls));
    JoinCommutes(old', seed);
    JoinAssociates(old', seed, new');
    JoinAssociates(seed, old', new');
  }

  lemma StoryAdvances(rules: L.Rules, x: Story<L.Automaton>, e: Event, ttps: seq<Ttp>)
    requires L.NonEmpty(rules)
    ensures Single(rules, L.Seeded(rules, x.autos, e, ttps), e.op, ttps) <==>
      D.AdvanceStory(UNBOUNDED, ChainRules(rules), AsStory(x), e, ttps) == AsStory(L.AdvanceStory(rules, x, e, ttps))
    ensures Single(rules, L.Seeded(rules, x.autos, e, ttps), e.op, ttps) ==>
      D.StoryEffect(UNBOUNDED, ChainRules(rules), AsStory(x), e, ttps) == L.StoryEffect(rules, x, e, ttps)
  {
    hide Image, Total, Single, L.SeedEffect, L.Seeded, D.AdvanceStory, D.StoryEffect;
    var m := L.Seeded(rules, x.autos, e, ttps);
    SameOffer(rules, x, e, ttps);
    if Single(rules, m, e.op, ttps) {
      AllSingle(rules, e, ttps, m);
    } else {
      WeightsDiffer(rules, e, ttps, m);
    }
  }

  lemma LinkCommutes(lines: Lines<L.Automaton>, a: Key, o: Key)
    ensures Link(UNBOUNDED, lines, a, o).Linked?
    ensures Link(UNBOUNDED, AsLines(lines), a, o) == Linked(AsLines(Link(UNBOUNDED, lines, a, o).lines))
  {
    hide Merge, Resolve, AsStory;
    ResolveCommutes(lines, a);
    var l1 := Resolve(UNBOUNDED, lines, a).value;
    ResolveCommutes(l1, o);
    var l2 := Resolve(UNBOUNDED, l1, o).value;
    KnownStays(UNBOUNDED, l1, o, a);
    MergeCommutes(l2, a, o);
  }

  lemma ResolveCommutes(lines: Lines<L.Automaton>, k: Key)
    ensures Resolve(UNBOUNDED, lines, k).Some? && k in Resolve(UNBOUNDED, lines, k).value
    ensures Resolve(UNBOUNDED, AsLines(lines), k) == Some(AsLines(Resolve(UNBOUNDED, lines, k).value))
  {
    AlwaysResolves(lines, k);
    AlwaysResolves(AsLines(lines), k);
    ImageNone(AsMask());
    hide Image, Resolve;
    if k !in lines {
      assert AsLines(Resolved(lines, k)) == AsLines(lines)[k := Story({k}, multiset{}, 0)];
    }
  }

  lemma MergeCommutes(lines: Lines<L.Automaton>, a: Key, o: Key)
    requires a in lines && o in lines
    ensures Merge(UNBOUNDED, AsLines(lines), a, o) == AsLines(Merge(UNBOUNDED, lines, a, o))
  {
    hide Image, Install;
    ImageUnion(AsMask(), lines[a].autos, lines[o].autos);
    assert AsStory(Union(lines[a], lines[o])) == Union(AsStory(lines[a]), AsStory(lines[o]));
    hide AsStory, Union;
    InstallCommutes(lines, Union(lines[a], lines[o]));
  }

  lemma InstallCommutes(lines: Lines<L.Automaton>, s: Story<L.Automaton>)
    ensures Install(AsLines(lines), AsStory(s)) == AsLines(Install(lines, s))
  {
  }

  // From corresponding states an event leads to corresponding states exactly when it takes no automaton two
  // steps, and then the verdicts agree.
  lemma ChainEvent(rules: L.Rules, st: State<L.Automaton>, e: Event, ttps: seq<Ttp>)
    requires L.NonEmpty(rules) && Partition(st.lines)
    ensures var l, d := L.OnEvent(rules, st, e, ttps), D.OnEvent(UNBOUNDED, ChainRules(rules), AsState(st), e, ttps);
      && (d.state == AsState(l.state) <==> !TakesTwo(rules, st, e, ttps))
      && (!TakesTwo(rules, st, e, ttps) ==> d.verdict == l.verdict)
  {
    hide Link, Install, D.AdvanceStory, D.StoryEffect, L.AdvanceStory, L.StoryEffect, L.Seeded, Single, AsStory;
    if !Gated(st.disarmed, e.actor, e.op) {
      LinkCommutes(st.lines, e.actor, e.target);
      LinkKeepsPartition(UNBOUNDED, st.lines, e.actor, e.target);
      var linked := Link(UNBOUNDED, st.lines, e.actor, e.target).lines;
      var ls := L.AdvanceStory(rules, linked[e.actor], e, ttps);
      var ds := D.AdvanceStory(UNBOUNDED, ChainRules(rules), AsStory(linked[e.actor]), e, ttps);
      StoryAdvances(rules, linked[e.actor], e, ttps);
      InstallCommutes(linked, ls);
      InstallShows(AsLines(linked), ds, AsStory(ls), e.actor) by {
        SameMembers(rules, linked[e.actor], e, ttps);
      }
    }
  }

  lemma SameMembers(rules: L.Rules, x: Story<L.Automaton>, e: Event, ttps: seq<Ttp>)
    ensures D.AdvanceStory(UNBOUNDED, ChainRules(rules), AsStory(x), e, ttps).members == x.members
    ensures AsStory(L.AdvanceStory(rules, x, e, ttps)).members == x.members
  {
  }

  lemma InstallShows(lines: Lines<Mask>, s: Story<Mask>, s': Story<Mask>, k: Key)
    requires k in lines && k in s.members && s.members == s'.members
    ensures Install(lines, s) == Install(lines, s') <==> s == s'
  {
    assert Install(lines, s)[k] == s && Install(lines, s')[k] == s';
  }

  lemma LinearEventKeepsPartition(rules: L.Rules, st: State<L.Automaton>, e: Event, ttps: seq<Ttp>)
    requires Partition(st.lines)
    ensures Partition(L.OnEvent(rules, st, e, ttps).state.lines)
  {
    hide Link;
    LinkKeepsPartition(UNBOUNDED, st.lines, e.actor, e.target);
    var linked := Link(UNBOUNDED, st.lines, e.actor, e.target);
    if linked.Linked? {
      InstallKeepsPartition(linked.lines, L.AdvanceStory(rules, linked.lines[e.actor], e, ttps));
    }
  }

  ghost predicate Corresponds(rules: L.Rules, stream: seq<Tagged>, i: nat)
    requires i <= |stream|
  {
    D.Run(UNBOUNDED, ChainRules(rules), stream, i) == AsState(L.Run(rules, stream, i))
  }

  ghost predicate NeverTwo(rules: L.Rules, stream: seq<Tagged>, n: nat)
    requires n <= |stream|
  {
    forall i | 0 <= i < n :: !TakesTwo(rules, L.Run(rules, stream, i), stream[i].event, stream[i].ttps)
  }

  lemma ChainNext(rules: L.Rules, stream: seq<Tagged>, n: nat)
    requires n < |stream| && L.NonEmpty(rules) && Partition(L.Run(rules, stream, n).lines)
    requires Corresponds(rules, stream, n)
    ensures var two := TakesTwo(rules, L.Run(rules, stream, n), stream[n].event, stream[n].ttps);
      && (Corresponds(rules, stream, n + 1) <==> !two)
      && (!two ==> D.VerdictAt(UNBOUNDED, ChainRules(rules), stream, n) == L.VerdictAt(rules, stream, n))
  {
    hide L.OnEvent, D.OnEvent, TakesTwo, AsState, ChainRules;
    ChainEvent(rules, L.Run(rules, stream, n), stream[n].event, stream[n].ttps);
    D.RunNext(UNBOUNDED, ChainRules(rules), stream, n);
  }

  lemma {:induction false} LinearRunKeepsPartition(rules: L.Rules, stream: seq<Tagged>, n: nat)
    requires n <= |stream|
    ensures Partition(L.Run(rules, stream, n).lines)
  {
    hide L.OnEvent;
    if n > 0 {
      LinearRunKeepsPartition(rules, stream, n - 1);
      LinearEventKeepsPartition(rules, L.Run(rules, stream, n - 1), stream[n - 1].event, stream[n - 1].ttps);
    }
  }

  ghost predicate AllCorrespond(rules: L.Rules, stream: seq<Tagged>, n: nat)
    requires n <= |stream|
  {
    forall i | 0 <= i <= n :: Corresponds(rules, stream, i)
  }

  ghost predicate SameVerdicts(rules: L.Rules, stream: seq<Tagged>, n: nat)
    requires n <= |stream|
  {
    forall i | 0 <= i < n :: D.VerdictAt(UNBOUNDED, ChainRules(rules), stream, i) == L.VerdictAt(rules, stream, i)
  }

  lemma Sofar(rules: L.Rules, stream: seq<Tagged>, n: nat)
    requires n < |stream|
    ensures AllCorrespond(rules, stream, n + 1)
       <==> AllCorrespond(rules, stream, n) && Corresponds(rules, stream, n + 1)
    ensures AllCorrespond(rules, stream, n) ==> Corresponds(rules, stream, n)
    ensures NeverTwo(rules, stream, n + 1) <==>
      && NeverTwo(rules, stream, n)
      && !TakesTwo(rules, L.Run(rules, stream, n), stream[n].event, stream[n].ttps)
    ensures SameVerdicts(rules, stream, n + 1) <==>
      && SameVerdicts(rules, stream, n)
      && D.VerdictAt(UNBOUNDED, ChainRules(rules), stream, n) == L.VerdictAt(rules, stream, n)
  {
    hide Corresponds, TakesTwo, D.VerdictAt, L.VerdictAt, L.Run, ChainRules;
  }

  // In every run the states correspond for as long as no event takes an automaton two steps, and no longer;
  // up to there the verdicts agree.
  lemma {:induction false} ChainIsLinear(rules: L.Rules, stream: seq<Tagged>, n: nat)
    requires n <= |stream| && L.NonEmpty(rules) && FitsMask(rules)
    ensures AllCorrespond(rules, stream, n) <==> NeverTwo(rules, stream, n)
    ensures NeverTwo(rules, stream, n) ==> SameVerdicts(rules, stream, n)
  {
    hide Corresponds, TakesTwo, AllCorrespond, NeverTwo, SameVerdicts, D.VerdictAt, L.VerdictAt, L.Run, ChainRules;
    if n == 0 {
      BothStartEmpty(rules, stream);
    } else {
      ChainIsLinear(rules, stream, n - 1);
      LinearRunKeepsPartition(rules, stream, n - 1);
      Sofar(rules, stream, n - 1);
      if AllCorrespond(rules, stream, n - 1) {
        ChainNext(rules, stream, n - 1);
      }
    }
  }

  lemma BothStartEmpty(rules: L.Rules, stream: seq<Tagged>)
    ensures AllCorrespond(rules, stream, 0) && NeverTwo(rules, stream, 0) && SameVerdicts(rules, stream, 0)
  {
    assert AsLines(map[]) == map[];
    assert Corresponds(rules, stream, 0);
  }

  // In particular on every stream whose events match no two consecutive steps of a pattern.
  // The event matches no two consecutive steps of a pattern.
  ghost predicate StepsApart(steps: seq<L.Step>, op: Op, ttps: seq<Ttp>) {
    forall i | 0 < i < |steps| :: !(steps[i - 1].matcher.Matches(op, ttps) && steps[i].matcher.Matches(op, ttps))
  }

  ghost predicate RulesApart(rules: L.Rules, op: Op, ttps: seq<Ttp>) {
    forall p | p in rules :: StepsApart(p.steps, op, ttps)
  }

  lemma ApartIsLinear(rules: L.Rules, stream: seq<Tagged>, n: nat)
    requires n <= |stream| && L.NonEmpty(rules) && FitsMask(rules)
    requires forall i | 0 <= i < n :: RulesApart(rules, stream[i].event.op, stream[i].ttps)
    ensures D.Run(UNBOUNDED, ChainRules(rules), stream, n) == AsState(L.Run(rules, stream, n))
    ensures forall i | 0 <= i < n ::
      D.VerdictAt(UNBOUNDED, ChainRules(rules), stream, i) == L.VerdictAt(rules, stream, i)
  {
    forall i | 0 <= i < n
      ensures !TakesTwo(rules, L.Run(rules, stream, i), stream[i].event, stream[i].ttps)
    {
      ApartNeverTwo(rules, L.Run(rules, stream, i), stream[i].event, stream[i].ttps);
    }
    hide TakesTwo, RulesApart, L.Run, D.VerdictAt, L.VerdictAt;
    ChainIsLinear(rules, stream, n);
    assert Corresponds(rules, stream, n);
  }

  lemma ApartNeverTwo(rules: L.Rules, st: State<L.Automaton>, e: Event, ttps: seq<Ttp>)
    requires RulesApart(rules, e.op, ttps)
    ensures !TakesTwo(rules, st, e, ttps)
  {
    hide Link, L.Seeded;
    forall a: Auto<L.Automaton>
      ensures !Doubles(rules, a, e.op, ttps)
    {
      if a.pid < |rules| {
        assert rules[a.pid] in rules;
      }
    }
  }
}

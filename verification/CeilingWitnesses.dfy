/** Why "only seeds dropped, no step disarms" is asked for: each kind of ceiling beyond it lets the bounded
    engine answer a later event more strongly than v0.0.2. */
module CeilingWitnesses {
  import opened Events
  import opened Multisets
  import opened Storylines
  import opened DagSpec
  import opened Ceilings
  import opened OverEnforcement

  // Some event is answered more strongly under the ceilings than without them.
  ghost predicate Stronger(caps: Caps, rules: Rules, stream: seq<Tagged>, i: nat)
    requires i < |stream|
  {
    VerdictAt(caps, rules, stream, i).Rank() > VerdictAt(UNBOUNDED, rules, stream, i).Rank()
  }

  // ----- a key that is alone in its storyline acts on itself -----

  ghost predicate Solo(caps: Caps, lines: Lines<Mask>, k: Key, autos: multiset<Auto<Mask>>) {
    if k in lines then lines[k].members == {k} && lines[k].autos == autos
    else autos == multiset{} && caps.entities.Admits(|lines| + 1) && caps.lines.Admits(|lines.Values| + 1)
  }

  ghost function SoloAfter(st: State<Mask>, caps: Caps, k: Key, autos: multiset<Auto<Mask>>, eff: Effect): Outcome {
    Outcome(State(st.lines[k := Story({k}, autos, 0)], DisarmActor(caps, st.disarmed, k, eff)), eff.verdict)
  }

  // Offered the event, `m` becomes `image` with the effect `eff`.
  ghost predicate Answers(rules: Rules, op: Op, m: multiset<Auto<Mask>>, image: multiset<Auto<Mask>>, eff: Effect) {
    Image(Advanced(rules, op, []), m) == image && Total(Reaction(rules, op, []), m) == eff
  }

  lemma SoloEvent(caps: Caps, rules: Rules, st: State<Mask>, k: Key, op: Op, autos: multiset<Auto<Mask>>,
                  m: multiset<Auto<Mask>>, image: multiset<Auto<Mask>>, eff: Effect)
    requires !Gated(st.disarmed, k, op) && Solo(caps, st.lines, k, autos)
    requires Seeded(caps, rules, autos, op, []) == m && Answers(rules, op, m, image, eff)
    ensures OnEvent(caps, rules, st, At(op, k, k).event, []) == SoloAfter(st, caps, k, image, eff)
    ensures !LinkHits(caps, st.lines, k, k)
  {
    hide Image, Total, Seeded, Advanced, Reaction, DisarmActor;
    var lines := if k in st.lines then st.lines else st.lines[k := Story({k}, multiset{}, 0)];
    assert Link(caps, st.lines, k, k) == Linked(lines);
    assert Install(lines, Story({k}, image, 0)) == st.lines[k := Story({k}, image, 0)];
  }

  lemma SoloStep(caps: Caps, rules: Rules, stream: seq<Tagged>, n: nat, k: Key, op: Op, autos: multiset<Auto<Mask>>,
                 m: multiset<Auto<Mask>>, image: multiset<Auto<Mask>>, eff: Effect)
    requires n < |stream| && stream[n] == At(op, k, k)
    requires var st := Run(caps, rules, stream, n); !Gated(st.disarmed, k, op) && Solo(caps, st.lines, k, autos)
    requires Seeded(caps, rules, autos, op, []) == m && Answers(rules, op, m, image, eff)
    ensures var st := Run(caps, rules, stream, n);
      && Run(caps, rules, stream, n + 1) == SoloAfter(st, caps, k, image, eff).state
      && VerdictAt(caps, rules, stream, n) == eff.verdict && !LinkHits(caps, st.lines, k, k)
  {
    RunNext(caps, rules, stream, n);
    SoloEvent(caps, rules, Run(caps, rules, stream, n), k, op, autos, m, image, eff);
  }

  ghost function Alone(autos: multiset<Auto<Mask>>, disarmed: map<Key, OpSet>): State<Mask> {
    State(map[0 := Story({0}, autos, 0)], disarmed)
  }

  // The first event of a run.
  lemma FirstStep(caps: Caps, rules: Rules, stream: seq<Tagged>, op: Op, m: multiset<Auto<Mask>>,
                  image: multiset<Auto<Mask>>, eff: Effect)
    requires stream != [] && stream[0] == At(op, 0, 0) && caps.entities.Admits(1) && caps.lines.Admits(1)
    requires Seeded(caps, rules, multiset{}, op, []) == m && Answers(rules, op, m, image, eff)
    ensures Run(caps, rules, stream, 1) == Alone(image, DisarmActor(caps, map[], 0, eff))
    ensures !LinkHits(caps, Run(caps, rules, stream, 0).lines, 0, 0)
  {
    var none: State<Mask> := State(map[], map[]);
    assert Run(caps, rules, stream, 0) == none;
    assert |none.lines.Values| == 0;
    hide Run, Answers, Seeded, LinkHits;
    SoloStep(caps, rules, stream, 0, 0, op, multiset{}, m, image, eff);
  }

  lemma GatedStep(caps: Caps, rules: Rules, stream: seq<Tagged>, n: nat, k: Key, op: Op)
    requires n < |stream| && stream[n] == At(op, k, k) && Gated(Run(caps, rules, stream, n).disarmed, k, op)
    ensures Run(caps, rules, stream, n + 1) == Run(caps, rules, stream, n)
    ensures VerdictAt(caps, rules, stream, n) == Blocked
  {
    RunNext(caps, rules, stream, n);
  }

  // A full automaton list takes no seed.
  lemma NoRoomForSeeds(caps: Caps, rules: Rules, autos: multiset<Auto<Mask>>, op: Op)
    requires caps.automata == AtMost(|autos|)
    ensures Seeded(caps, rules, autos, op, []) == autos
  {
    hide Seeds;
    assert Kept(caps.automata, |autos|, Seeds(rules, |rules|, op, [])) == [];
  }

  lemma FirstSeed(caps: Caps, rules: Rules, a: Auto<Mask>, op: Op)
    requires caps.automata.Admits(1) && Seeds(rules, |rules|, op, []) == [a]
    ensures Seeded(caps, rules, multiset{}, op, []) == multiset{a}
  {
    hide Seeds;
    assert multiset{} + multiset([a]) == multiset{a};
  }

  // What one automaton does.
  ghost predicate Does(rules: Rules, op: Op, a: Auto<Mask>, done: Mask, eff: Effect) {
    RunAuto(rules, op, [], a) == Progress(done, eff)
  }

  lemma AnswersNone(rules: Rules, op: Op)
    ensures Answers(rules, op, multiset{}, multiset{}, NOTHING)
  {
  }

  lemma AnswersMore(rules: Rules, op: Op, m: multiset<Auto<Mask>>, image: multiset<Auto<Mask>>, eff: Effect,
                    a: Auto<Mask>, done: Mask, more: Effect)
    requires Answers(rules, op, m, image, eff) && Does(rules, op, a, done, more)
    ensures Answers(rules, op, m + multiset{a}, image + multiset{Auto(a.pid, done)}, eff.Join(more))
  {
    ImageAdd(Advanced(rules, op, []), m, a);
    TotalAdd(Reaction(rules, op, []), m, a);
    hide Image, Total, RunAuto;
  }

  lemma AnswersOne(rules: Rules, op: Op, a: Auto<Mask>, done: Mask, eff: Effect)
    requires Does(rules, op, a, done, eff)
    ensures Answers(rules, op, multiset{a}, multiset{Auto(a.pid, done)}, eff)
  {
    hide Answers, Does;
    AnswersNone(rules, op);
    AnswersMore(rules, op, multiset{}, multiset{}, NOTHING, a, done, eff);
    JoinUnit(eff);
    assert multiset{} + multiset{a} == multiset{a};
    assert multiset{} + multiset{Auto(a.pid, done)} == multiset{Auto(a.pid, done)};
  }

  // ----- a dropped seed, where a step disarms -----

  // exec, then write, then open is blocked; a read strips the actor of write
  const STRIPPING: Rules := [
    DagPattern("f", [DagStep(StepMatch({0}, []), 0, {}, None), DagStep(StepMatch({2}, []), 1, {0}, None),
                     DagStep(StepMatch({4}, []), 2, {1}, Some(Block))]),
    DagPattern("a", [DagStep(StepMatch({3}, []), 0, {}, Some(Disarm({2})))])]

  const STRIPPED: seq<Tagged> := [At(Exec, 0, 0), At(Read, 0, 0), At(Write, 0, 0), At(Open, 0, 0)]

  lemma StrippingSeeds(op: Op)
    ensures Seeds(STRIPPING, 2, op, [])
         == if op == Exec then [Auto(0, {})] else if op == Read then [Auto(1, {})] else []
  {
    var f, a := STRIPPING[0].steps, STRIPPING[1].steps;
    assert StepSeeds(f, 0, 0, op, []) == [];
    assert StepSeeds(f, 1, 0, op, []) == if op == Exec then [Auto(0, {})] else [];
    assert StepSeeds(f, 2, 0, op, []) == StepSeeds(f, 1, 0, op, []);
    assert StepSeeds(f, 3, 0, op, []) == StepSeeds(f, 2, 0, op, []);
    assert StepSeeds(a, 0, 1, op, []) == [];
    assert StepSeeds(a, 1, 1, op, []) == if op == Read then [Auto(1, {})] else [];
    assert Seeds(STRIPPING, 0, op, []) == [];
    assert Seeds(STRIPPING, 1, op, []) == StepSeeds(f, 3, 0, op, []);
  }

  lemma StrippingReacts()
    ensures Does(STRIPPING, Exec, Auto(0, {}), {0}, Effect(Inspect, {}))
    ensures Does(STRIPPING, Read, Auto(0, {0}), {0}, NOTHING)
    ensures Does(STRIPPING, Write, Auto(0, {0}), {0, 1}, Effect(Inspect, {}))
    ensures Does(STRIPPING, Open, Auto(0, {0, 1}), {0, 1, 2}, Effect(Blocked, {}))
    ensures Does(STRIPPING, Open, Auto(0, {0}), {0}, NOTHING)
    ensures Does(STRIPPING, Read, Auto(1, {}), {0}, Effect(Disarmed, {2}))
    ensures Does(STRIPPING, Open, Auto(1, {0}), {0}, NOTHING)
  {
    ChainOfThree({}, Exec);
    ChainOfThree({0}, Read);
    ChainOfThree({0}, Write);
    ChainOfThree({0, 1}, Open);
    ChainOfThree({0}, Open);
    Stripper({}, Read);
    Stripper({0}, Open);
    hide Pass;
    assert {} + {0} == {0} && {0} + {1} == {0, 1} && {0, 1} + {2} == {0, 1, 2};
  }

  lemma ChainOfThree(done: Mask, op: Op)
    requires (op == Exec && done == {}) || (op in {Read, Write, Open} && done == {0}) || (op == Open && done == {0, 1})
    ensures Pass(STRIPPING[0].steps, 3, done, op, []) ==
      if op == Exec then Progress(done + {0}, Effect(Inspect, {}))
      else if op == Write then Progress(done + {1}, Effect(Inspect, {}))
      else if op == Open && 1 in done then Progress(done + {2}, Effect(Blocked, {}))
      else Progress(done, NOTHING)
  {
    var f := STRIPPING[0].steps;
    assert Pass(f, 0, done, op, []) == Progress(done, NOTHING);
    JoinUnit(Effect(Inspect, {}));
    JoinUnit(Effect(Blocked, {}));
    assert Pass(f, 1, done, op, []) ==
      if op == Exec then Progress(done + {0}, Effect(Inspect, {})) else Progress(done, NOTHING);
    assert {0} <= done <==> 0 in done;
    assert {1} <= done <==> 1 in done;
    assert Pass(f, 2, done, op, []) ==
      if op == Write then Progress(done + {1}, Effect(Inspect, {})) else Pass(f, 1, done, op, []);
  }

  lemma Stripper(done: Mask, op: Op)
    requires (op == Read && done == {}) || (op == Open && done == {0})
    ensures Pass(STRIPPING[1].steps, 1, done, op, []) ==
      if op == Read then Progress(done + {0}, Effect(Disarmed, {2})) else Progress(done, NOTHING)
  {
    assert Pass(STRIPPING[1].steps, 0, done, op, []) == Progress(done, NOTHING);
    JoinUnit(Effect(Disarmed, {2}));
  }

  ghost predicate Room(caps: Caps) {
    caps.entities.Admits(1) && caps.lines.Admits(1) && caps.automata.Admits(1)
  }

  // The exec seeds the first pattern.
  lemma ExecSeeds(caps: Caps)
    requires Room(caps)
    ensures Run(caps, STRIPPING, STRIPPED, 1) == Alone(multiset{Auto(0, {0})}, map[])
    ensures !LinkHits(caps, Run(caps, STRIPPING, STRIPPED, 0).lines, 0, 0)
  {
    hide Run, Answers, Does, Seeds, Seeded, LinkHits;
    StrippingSeeds(Exec);
    FirstSeed(caps, STRIPPING, Auto(0, {}), Exec);
    StrippingReacts();
    AnswersOne(STRIPPING, Exec, Auto(0, {}), {0}, Effect(Inspect, {}));
    FirstStep(caps, STRIPPING, STRIPPED, Exec, multiset{Auto(0, {})}, multiset{Auto(0, {0})}, Effect(Inspect, {}));
  }

  // v0.0.2 strips the actor at the read, so the write is refused and the open finds step 1 uncommitted.
  lemma StrippedUnbounded()
    ensures VerdictAt(UNBOUNDED, STRIPPING, STRIPPED, 3) == Ignore
  {
    hide Run, OnEvent, VerdictAt, LinkHits, Answers, Does, Seeds;
    var one, two := multiset{Auto(0, {0})}, multiset{Auto(0, {0}), Auto(1, {0})};
    ExecSeeds(UNBOUNDED);
    StrippingSeeds(Read);
    StrippingReacts();
    AnswersOne(STRIPPING, Read, Auto(0, {0}), {0}, NOTHING);
    AnswersMore(STRIPPING, Read, one, one, NOTHING, Auto(1, {}), {0}, Effect(Disarmed, {2}));
    JoinUnit(Effect(Disarmed, {2}));
    assert one + multiset{Auto(1, {0})} == two;
    SoloStep(UNBOUNDED, STRIPPING, STRIPPED, 1, 0, Read, one, one + multiset{Auto(1, {})}, two, Effect(Disarmed, {2}));
    assert Run(UNBOUNDED, STRIPPING, STRIPPED, 2) == Alone(two, map[0 := {2}]);
    GatedStep(UNBOUNDED, STRIPPING, STRIPPED, 2, 0, Write);
    StrippingSeeds(Open);
    AnswersOne(STRIPPING, Open, Auto(0, {0}), {0}, NOTHING);
    AnswersMore(STRIPPING, Open, one, one, NOTHING, Auto(1, {0}), {0}, NOTHING);
    JoinUnit(NOTHING);
    SoloStep(UNBOUNDED, STRIPPING, STRIPPED, 3, 0, Open, two, two, two, NOTHING);
  }

  // With room for one automaton the stripping pattern is never seeded, and the other runs to its end.
  lemma StrippedBounded(caps: Caps)
    requires Room(caps) && caps.automata == AtMost(1)
    ensures VerdictAt(caps, STRIPPING, STRIPPED, 3) == Blocked
    ensures forall i | 0 <= i < 4 :: !LinkHits(caps, Run(caps, STRIPPING, STRIPPED, i).lines, 0, 0)
  {
    hide Run, OnEvent, VerdictAt, LinkHits, Answers, Does, Seeded, Seeds, RunAuto;
    var one, more, all := multiset{Auto(0, {0})}, multiset{Auto(0, {0, 1})}, multiset{Auto(0, {0, 1, 2})};
    ExecSeeds(caps);
    StrippingReacts();
    NoRoomForSeeds(caps, STRIPPING, one, Read);
    AnswersOne(STRIPPING, Read, Auto(0, {0}), {0}, NOTHING);
    SoloStep(caps, STRIPPING, STRIPPED, 1, 0, Read, one, one, one, NOTHING);
    assert Run(caps, STRIPPING, STRIPPED, 2) == Alone(one, map[]);
    NoRoomForSeeds(caps, STRIPPING, one, Write);
    AnswersOne(STRIPPING, Write, Auto(0, {0}), {0, 1}, Effect(Inspect, {}));
    assert DisarmActor(caps, map[], 0, NOTHING) == map[];
    SoloStep(caps, STRIPPING, STRIPPED, 2, 0, Write, one, one, more, Effect(Inspect, {}));
    assert Run(caps, STRIPPING, STRIPPED, 3) == Alone(more, map[]);
    NoRoomForSeeds(caps, STRIPPING, more, Open);
    AnswersOne(STRIPPING, Open, Auto(0, {0, 1}), {0, 1, 2}, Effect(Blocked, {}));
    SoloStep(caps, STRIPPING, STRIPPED, 3, 0, Open, more, more, all, Effect(Blocked, {}));
  }

  // Nothing but one seed is ever dropped, and the fourth event is blocked that v0.0.2 ignores.
  lemma DroppedSeedStrengthens(caps: Caps)
    requires Room(caps) && caps.automata == AtMost(1)
    ensures OnlySeedsDropped(caps, STRIPPING, STRIPPED, 4) && Stronger(caps, STRIPPING, STRIPPED, 3)
  {
    hide Run, VerdictAt, LinkHits, Gated;
    StrippedBounded(caps);
    StrippedUnbounded();
  }

  // ----- a failed lookup -----

  const LOOKED_UP: seq<Tagged> := [At(Exec, 0, 0), At(Write, 0, 1), At(Write, 0, 0)]

  // Room for one entity: the first write fails its lookup, so the second finds the step still open.
  lemma FailedLookupStrengthens(caps: Caps)
    requires caps.entities == AtMost(1) && caps.lines.Admits(1) && caps.automata.Admits(1)
    ensures NeverDisarms(RULES) && Stronger(caps, RULES, LOOKED_UP, 2)
  {
    hide VerdictAt;
    LookupFails(caps);
    LookupSucceeds();
  }

  lemma LookedUpSeeds(caps: Caps)
    requires caps.entities.Admits(1) && caps.lines.Admits(1) && caps.automata.Admits(1)
    ensures Run(caps, RULES, LOOKED_UP, 1) == State(OneLine(1, multiset{Auto(0, {0})}), map[])
  {
    hide Install, Link, Advance, OneLine, Pass;
    var none: multiset<Auto<Mask>> := multiset{};
    NobodyYet(caps, LOOKED_UP);
    FirstLink(caps);
    OneLineHas(1, none, 0);
    PassSteps({}, Exec);
    AdvanceAtMostOne(caps, State(OneLine(1, none), map[]), LOOKED_UP[0], false, {});
    InstallWhole(1, none, multiset{Auto(0, {0})});
    RunNext(caps, RULES, LOOKED_UP, 0);
  }

  lemma LookupFails(caps: Caps)
    requires caps.entities == AtMost(1) && caps.lines.Admits(1) && caps.automata.Admits(1)
    ensures VerdictAt(caps, RULES, LOOKED_UP, 2) == Blocked
  {
    hide Install, Advance, OneLine, Pass, Run;
    var one := multiset{Auto(0, {0})};
    LookedUpSeeds(caps);
    OneLineHas(1, one, 0);
    OneLineFacts(1, one);
    assert Link(caps, OneLine(1, one), 0, 1) == Full(OneLine(1, one));
    RunNext(caps, RULES, LOOKED_UP, 1);
    PassSteps({0}, Write);
    LinkSelf(caps, OneLine(1, one), 0);
    AdvanceAtMostOne(caps, State(OneLine(1, one), map[]), LOOKED_UP[2], true, {0});
  }

  lemma LookupSucceeds()
    ensures VerdictAt(UNBOUNDED, RULES, LOOKED_UP, 2) == Ignore
  {
    hide Install, Link, Advance, OneLine, Pass, Run;
    var one, two := multiset{Auto(0, {0})}, multiset{Auto(0, {0, 1})};
    LookedUpSeeds(UNBOUNDED);
    LinkFresh(UNBOUNDED, 1, one);
    OneLineHas(2, one, 0);
    PassSteps({0}, Write);
    assert {0} + {1} == {0, 1};
    AdvanceAtMostOne(UNBOUNDED, State(OneLine(2, one), map[]), LOOKED_UP[1], true, {0});
    InstallWhole(2, one, two);
    RunNext(UNBOUNDED, RULES, LOOKED_UP, 1);
    OneLineHas(2, two, 0);
    PassSteps({0, 1}, Write);
    LinkSelf(UNBOUNDED, OneLine(2, two), 0);
    AdvanceAtMostOne(UNBOUNDED, State(OneLine(2, two), map[]), LOOKED_UP[2], true, {0, 1});
  }

  // ----- a lost disarm -----

  // an exec strips write, a write strips read
  const DISARMING: Rules := [
    DagPattern("p", [DagStep(StepMatch({0}, []), 0, {}, Some(Disarm({2})))]),
    DagPattern("q", [DagStep(StepMatch({2}, []), 0, {}, Some(Disarm({3})))])]

  const DISARMED: seq<Tagged> := [At(Exec, 0, 0), At(Exec, 1, 1), At(Write, 1, 1)]

  lemma DisarmingSeeds(op: Op)
    requires op == Exec || op == Write
    ensures Seeds(DISARMING, 2, op, []) == if op == Exec then [Auto(0, {})] else [Auto(1, {})]
  {
    var p, q := DISARMING[0].steps, DISARMING[1].steps;
    assert StepSeeds(p, 0, 0, op, []) == [] && StepSeeds(q, 0, 1, op, []) == [];
    assert StepSeeds(p, 1, 0, op, []) == if op == Exec then [Auto(0, {})] else [];
    assert StepSeeds(q, 1, 1, op, []) == if op == Write then [Auto(1, {})] else [];
    assert Seeds(DISARMING, 0, op, []) == [];
    assert Seeds(DISARMING, 1, op, []) == StepSeeds(p, 1, 0, op, []);
  }

  lemma DisarmingReacts()
    ensures Does(DISARMING, Exec, Auto(0, {}), {0}, Effect(Disarmed, {2}))
    ensures Does(DISARMING, Write, Auto(0, {0}), {0}, NOTHING)
    ensures Does(DISARMING, Write, Auto(1, {}), {0}, Effect(Disarmed, {3}))
  {
    assert Pass(DISARMING[0].steps, 0, {}, Exec, []) == Progress({}, NOTHING);
    assert Pass(DISARMING[0].steps, 0, {0}, Write, []) == Progress({0}, NOTHING);
    assert Pass(DISARMING[1].steps, 0, {}, Write, []) == Progress({}, NOTHING);
    JoinUnit(Effect(Disarmed, {2}));
    JoinUnit(Effect(Disarmed, {3}));
    assert {} + {0} == {0};
  }

  lemma BothExec(caps: Caps)
    requires caps.entities.Admits(2) && caps.lines.Admits(2) && caps.automata.Admits(1) && caps.disarmed.Admits(1)
    ensures Run(caps, DISARMING, DISARMED, 2)
         == State(map[0 := Story({0}, multiset{Auto(0, {0})}, 0), 1 := Story({1}, multiset{Auto(0, {0})}, 0)],
                  if caps.disarmed.Admits(2) then map[0 := {2}, 1 := {2}] else map[0 := {2}])
  {
    hide Run, OnEvent, LinkHits, Answers, Does, Seeds, Seeded;
    DisarmingSeeds(Exec);
    FirstSeed(caps, DISARMING, Auto(0, {}), Exec);
    DisarmingReacts();
    var seed, one, eff := multiset{Auto(0, {})}, multiset{Auto(0, {0})}, Effect(Disarmed, {2});
    AnswersOne(DISARMING, Exec, Auto(0, {}), {0}, eff);
    FirstStep(caps, DISARMING, DISARMED, Exec, seed, one, eff);
    SecondStep(caps, DISARMING, DISARMED, Exec, one, {2}, seed, one, eff);
  }

  // After the solo event of key 0, the fresh key 1 acts on itself.
  lemma SecondStep(caps: Caps, rules: Rules, stream: seq<Tagged>, op: Op, others: multiset<Auto<Mask>>, ops: OpSet,
                   m: multiset<Auto<Mask>>, image: multiset<Auto<Mask>>, eff: Effect)
    requires |stream| > 1 && stream[1] == At(op, 1, 1) && caps.entities.Admits(2) && caps.lines.Admits(2)
    requires Run(caps, rules, stream, 1) == Alone(others, map[0 := ops])
    requires Seeded(caps, rules, multiset{}, op, []) == m && Answers(rules, op, m, image, eff)
    ensures Run(caps, rules, stream, 2)
         == State(map[0 := Story({0}, others, 0), 1 := Story({1}, image, 0)],
                  DisarmActor(caps, map[0 := ops], 1, eff))
  {
    hide Run, Answers, Seeded, LinkHits, DisarmActor;
    var lines := Alone(others, map[0 := ops]).lines;
    assert lines[0] == Story({0}, others, 0) && lines.Keys == {0};
    assert lines.Values == {Story({0}, others, 0)};
    SoloStep(caps, rules, stream, 1, 1, op, multiset{}, m, image, eff);
  }

  // Room for one disarmed actor: the second keeps its write, which disarms where v0.0.2 blocks.
  lemma LostDisarmStrengthens(caps: Caps)
    requires caps.entities.Admits(2) && caps.lines.Admits(2) && caps.automata.Admits(2) && caps.disarmed == AtMost(1)
    ensures Stronger(caps, DISARMING, DISARMED, 2)
  {
    hide Run, OnEvent, VerdictAt, LinkHits, Answers, Does, Seeds;
    BothExec(UNBOUNDED);
    GatedStep(UNBOUNDED, DISARMING, DISARMED, 2, 1, Write);
    BothExec(caps);
    DisarmingSeeds(Write);
    DisarmingReacts();
    var one, two := multiset{Auto(0, {0})}, multiset{Auto(0, {0}), Auto(1, {0})};
    AnswersOne(DISARMING, Write, Auto(0, {0}), {0}, NOTHING);
    AnswersMore(DISARMING, Write, one, one, NOTHING, Auto(1, {}), {0}, Effect(Disarmed, {3}));
    JoinUnit(Effect(Disarmed, {3}));
    assert one + multiset{Auto(1, {0})} == two;
    SoloStep(caps, DISARMING, DISARMED, 2, 1, Write, one, one + multiset{Auto(1, {})}, two, Effect(Disarmed, {3}));
  }
}

/** "The bounded engine never enforces more strongly than v0.0.2" does not hold of every stream: after a
    refused merge, the two halves of one storyline each keep a step to commit that v0.0.2 commits once. */
module OverEnforcement {
  import opened Events
  import opened Multisets
  import opened Storylines
  import opened DagSpec

  // exec seeds; a later write is blocked
  const RULES: Rules := [DagPattern("p", [
    DagStep(StepMatch({0}, []), 0, {}, None),
    DagStep(StepMatch({2}, []), 1, {0}, Some(Block))])]

  function At(op: Op, actor: Key, target: Key): Tagged {
    Tagged(Event(0, op, actor, Process, target, File), [])
  }

  // Key 0 reads keys 0 .. n-1: one storyline of n members.
  function Fill(n: nat): (s: seq<Tagged>)
    ensures |s| == n
  {
    seq(n, i requires 0 <= i < n => At(Read, 0, i))
  }

  // A storyline of `m` members is seeded, key `m` is linked to it, then `m` and 0 each write once.
  function Stream(m: nat): (s: seq<Tagged>)
    ensures |s| == m + 4
  {
    Fill(m) + [At(Exec, 0, 0), At(Read, 0, m), At(Write, m, m), At(Write, 0, 0)]
  }

  ghost function OneLine(n: nat, autos: multiset<Auto<Mask>>): Lines<Mask> {
    map k | k in Below(n) :: Story(Below(n), autos, 0)
  }

  // ----- how one automaton of the pattern reacts -----

  lemma PassSteps(done: Mask, op: Op)
    ensures var steps := RULES[0].steps;
      && Pass(steps, 2, done, op, []) ==
         (if op == Exec && 0 !in done then Progress(done + {0}, Effect(Inspect, {}))
          else if op == Write && 0 in done && 1 !in done then Progress(done + {1}, Effect(Blocked, {}))
          else Progress(done, NOTHING))
      && StepSeeds(steps, 2, 0, op, []) == if op == Exec then [Auto(0, {})] else []
  {
    var steps := RULES[0].steps;
    assert Pass(steps, 0, done, op, []) == Progress(done, NOTHING);
    assert StepSeeds(steps, 0, 0, op, []) == [];
    assert {0} <= done <==> 0 in done;
    JoinUnit(Effect(Inspect, {}));
    JoinUnit(Effect(Blocked, {}));
    assert Pass(steps, 1, done, op, []) ==
      if op == Exec && 0 !in done then Progress(done + {0}, Effect(Inspect, {})) else Progress(done, NOTHING);
    assert StepSeeds(steps, 1, 0, op, []) == if op == Exec then [Auto(0, {})] else [];
  }

  lemma SeedsOf(op: Op)
    ensures Seeds(RULES, 1, op, []) == if op == Exec then [Auto(0, {})] else []
  {
    PassSteps({}, op);
    assert Seeds(RULES, 0, op, []) == [];
  }

  lemma NoAutomaton(op: Op)
    ensures Image(Advanced(RULES, op, []), multiset{}) == multiset{}
    ensures Total(Reaction(RULES, op, []), multiset{}) == NOTHING
  {
  }

  lemma OneAutomaton(done: Mask, op: Op)
    ensures var p := Pass(RULES[0].steps, 2, done, op, []);
      && Image(Advanced(RULES, op, []), multiset{Auto(0, done)}) == multiset{Auto(0, p.done)}
      && Total(Reaction(RULES, op, []), multiset{Auto(0, done)}) == p.effect
  {
    var x := Auto(0, done);
    ImageAdd(Advanced(RULES, op, []), multiset{}, x);
    TotalAdd(Reaction(RULES, op, []), multiset{}, x);
    JoinUnit(Pass(RULES[0].steps, 2, done, op, []).effect);
    assert multiset{} + multiset{x} == multiset{x};
  }

  // Advancing a storyline with at most the one automaton `done`.
  lemma AdvanceAtMostOne(caps: Caps, st: State<Mask>, t: Tagged, some: bool, done: Mask)
    requires t.event.actor in st.lines && t.ttps == [] && caps.automata.Admits(1)
    requires st.lines[t.event.actor].autos == if some then multiset{Auto(0, done)} else multiset{}
    requires t.event.op == Exec ==> !some && done == {}
    ensures var p := Pass(RULES[0].steps, 2, done, t.event.op, []); var x := st.lines[t.event.actor];
      var exists' := some || t.event.op == Exec;
      var eff := if exists' then p.effect else NOTHING;
      Advance(caps, RULES, st, t.event, t.ttps) ==
        Outcome(State(Install(st.lines, Story(x.members,
                if exists' then multiset{Auto(0, p.done)} else multiset{}, t.event.ts)),
                      st.disarmed), eff.verdict)
  {
    hide Install, Image, Total, Pass, Seeded;
    SeededAtMostOne(caps, t.event.op, some, done);
    NoAutomaton(t.event.op);
    OneAutomaton(done, t.event.op);
    PassSteps(done, t.event.op);
  }

  lemma SeededAtMostOne(caps: Caps, op: Op, some: bool, done: Mask)
    requires caps.automata.Admits(1) && (op == Exec ==> !some && done == {})
    ensures Seeded(caps, RULES, if some then multiset{Auto(0, done)} else multiset{}, op, []) ==
      if some || op == Exec then multiset{Auto(0, done)} else multiset{}
  {
    SeedsOf(op);
  }

  // ----- linking -----

  lemma OneLineFacts(n: nat, autos: multiset<Auto<Mask>>)
    requires n > 0
    ensures OneLine(n, autos).Keys == Below(n) && |OneLine(n, autos)| == n
    ensures |OneLine(n, autos).Values| == 1
  {
    var lines := OneLine(n, autos);
    assert lines.Keys == Below(n) && |lines| == |lines.Keys|;
    assert lines[0] in lines.Values;
    assert lines.Values == {Story(Below(n), autos, 0)};
  }

  lemma LinkSelf(caps: Caps, lines: Lines<Mask>, k: Key)
    requires k in lines && k in lines[k].members
    ensures Link(caps, lines, k, k) == Linked(lines)
  {
  }

  // Key 0 of a storyline of `n` members meets the fresh key `n`.
  lemma LinkFresh(caps: Caps, n: nat, autos: multiset<Auto<Mask>>)
    requires n > 0 && caps.entities.Admits(n + 1) && caps.lines.Admits(2) && caps.automata.Admits(|autos|)
    ensures Link(caps, OneLine(n, autos), 0, n) == Linked(
      if caps.members.Admits(n + 1) then OneLine(n + 1, autos) else OneLine(n, autos)[n := Story({n}, multiset{}, 0)])
  {
    OneLineFacts(n, autos);
    var l1 := OneLine(n, autos);
    var l2 := l1[n := Story({n}, multiset{}, 0)];
    assert Resolve(caps, l1, 0) == Some(l1) && Resolve(caps, l1, n) == Some(l2);
    assert autos + multiset{} == autos;
    assert Below(n) + {n} == Below(n + 1);
    if caps.members.Admits(n + 1) {
      var s := Union(l2[0], l2[n]);
      assert s == Story(Below(n + 1), autos, 0);
      assert Install(l2, s) == OneLine(n + 1, autos);
    }
  }

  lemma InstallWhole(n: nat, autos: multiset<Auto<Mask>>, autos': multiset<Auto<Mask>>)
    ensures Install(OneLine(n, autos), Story(Below(n), autos', 0)) == OneLine(n, autos')
  {
  }

  lemma OneLineHas(n: nat, autos: multiset<Auto<Mask>>, k: nat)
    requires k < n
    ensures k in OneLine(n, autos) && OneLine(n, autos)[k] == Story(Below(n), autos, 0) && k in Below(n)
  {
  }

  lemma FillStep(caps: Caps, n: nat)
    requires caps.entities.Admits(n + 1) && caps.lines.Admits(2) && caps.members.Admits(n + 1)
    requires caps.lines.Admits(1) && caps.automata.Admits(0) && caps.automata.Admits(1)
    ensures var t := At(Read, 0, n);
      OnEvent(caps, RULES, State(OneLine(n, multiset{}), map[]), t.event, t.ttps)
      == Outcome(State(OneLine(n + 1, multiset{}), map[]), Ignore)
  {
    hide Install, Link, Advance, OneLine, Pass, Roomy;
    OneLineHas(n + 1, multiset{}, 0);
    var t, none: multiset<Auto<Mask>> := At(Read, 0, n), multiset{};
    if n == 0 {
      FirstLink(caps);
    } else {
      LinkFresh(caps, n, none);
    }
    AdvanceAtMostOne(caps, State(OneLine(n + 1, none), map[]), t, false, {});
    PassSteps({}, Read);
    InstallWhole(n + 1, none, none);
  }

  lemma FirstLink(caps: Caps)
    requires caps.entities.Admits(1) && caps.lines.Admits(1)
    ensures Link(caps, OneLine(0, multiset{}), 0, 0) == Linked(OneLine(1, multiset{}))
  {
    var none: Lines<Mask> := OneLine(0, multiset{});
    assert none == map[];
    assert |none.Values| == 0;
    assert Below(1) == {0};
    assert OneLine(1, multiset{}) == none[0 := Story({0}, multiset{}, 0)];
    assert Resolve(caps, none, 0) == Some(OneLine(1, multiset{}));
  }

  ghost predicate Roomy(caps: Caps, m: nat) {
    && caps.entities.Admits(m + 1) && caps.lines.Admits(2) && caps.automata.Admits(1) && caps.members.Admits(m)
    && caps.disarmed.Admits(0)
  }

  lemma FillsAt(m: nat, n: nat)
    requires n < m
    ensures Stream(m)[n] == At(Read, 0, n)
  {
  }

  lemma RoomToFill(caps: Caps, m: nat, n: nat)
    requires Roomy(caps, m) && n < m
    ensures caps.entities.Admits(n + 1) && caps.lines.Admits(2) && caps.members.Admits(n + 1)
    ensures caps.lines.Admits(1) && caps.automata.Admits(0) && caps.automata.Admits(1)
  {
  }

  lemma {:induction false} FillRun(caps: Caps, m: nat, n: nat)
    requires Roomy(caps, m) && n <= m
    ensures Run(caps, RULES, Stream(m), n) == State(OneLine(n, multiset{}), map[])
  {
    hide *;
    if n == 0 {
      NobodyYet(caps, Stream(m));
    } else {
      FillRun(caps, m, n - 1);
      RoomToFill(caps, m, n - 1);
      FillStep(caps, n - 1);
      FillsAt(m, n - 1);
      RunNext(caps, RULES, Stream(m), n - 1);
    }
  }

  lemma NobodyYet(caps: Caps, stream: seq<Tagged>)
    ensures Run(caps, RULES, stream, 0) == State(OneLine(0, multiset{}), map[])
  {
    assert Below(0) == {};
    assert OneLine(0, multiset{}) == map[];
  }

  // ----- the last four events -----

  lemma SeedEvent(caps: Caps, m: nat)
    requires Roomy(caps, m) && m > 0
    ensures Run(caps, RULES, Stream(m), m + 1) == State(OneLine(m, multiset{Auto(0, {0})}), map[])
  {
    hide Install, Link, Advance;
    var none: multiset<Auto<Mask>> := multiset{};
    var s, st := Stream(m), State(OneLine(m, none), map[]);
    FillRun(caps, m, m);
    assert s[m] == At(Exec, 0, 0);
    PassSteps({}, Exec);
    LinkSelf(caps, st.lines, 0);
    AdvanceAtMostOne(caps, st, s[m], false, {});
    InstallWhole(m, none, multiset{Auto(0, {0})});
  }

  // The read of the fresh key merges its storyline, or leaves it apart.
  lemma SeedThenRead(caps: Caps, m: nat)
    requires Roomy(caps, m) && m > 0
    ensures var one := multiset{Auto(0, {0})};
      Run(caps, RULES, Stream(m), m + 2) == State(
        if caps.members.Admits(m + 1) then OneLine(m + 1, one)
        else OneLine(m, one)[m := Story({m}, multiset{}, 0)], map[])
  {
    hide Install, Link, Advance, Run;
    var s, one := Stream(m), multiset{Auto(0, {0})};
    SeedEvent(caps, m);
    assert s[m + 1] == At(Read, 0, m);
    RunNext(caps, RULES, s, m + 1);
    PassSteps({0}, Read);
    LinkFresh(caps, m, one);
    AdvanceAtMostOne(caps, State(Link(caps, OneLine(m, one), 0, m).lines, map[]), s[m + 1], true, {0});
    if caps.members.Admits(m + 1) {
      InstallWhole(m + 1, one, one);
    } else {
      InstallBeside(m, one, one, Story({m}, multiset{}, 0));
    }
  }

  lemma InstallBeside(m: nat, autos: multiset<Auto<Mask>>, autos': multiset<Auto<Mask>>, other: Story<Mask>)
    requires other.members == {m}
    ensures Install(OneLine(m, autos)[m := other], Story(Below(m), autos', 0)) == OneLine(m, autos')[m := other]
    ensures Install(OneLine(m, autos)[m := other], other) == OneLine(m, autos)[m := other]
  {
  }

  // v0.0.2: the write of `m` commits the only automaton, the write of 0 finds nothing left.
  lemma MergedRun(m: nat)
    requires m > 0
    ensures VerdictAt(UNBOUNDED, RULES, Stream(m), m + 2) == Blocked
    ensures VerdictAt(UNBOUNDED, RULES, Stream(m), m + 3) == Ignore
  {
    hide Install, Link, Advance, Run, OneLine, Pass;
    var s, two := Stream(m), multiset{Auto(0, {0, 1})};
    MergedWrite(m);
    var st := State(OneLine(m + 1, two), map[]);
    assert s[m + 3] == At(Write, 0, 0);
    OneLineHas(m + 1, two, 0);
    PassSteps({0, 1}, Write);
    LinkSelf(UNBOUNDED, st.lines, 0);
    AdvanceAtMostOne(UNBOUNDED, st, s[m + 3], true, {0, 1});
  }

  lemma MergedWrite(m: nat)
    requires m > 0
    ensures VerdictAt(UNBOUNDED, RULES, Stream(m), m + 2) == Blocked
    ensures Run(UNBOUNDED, RULES, Stream(m), m + 3) == State(OneLine(m + 1, multiset{Auto(0, {0, 1})}), map[])
  {
    hide Install, Link, Advance, Run, OneLine, Pass;
    var s, one, two := Stream(m), multiset{Auto(0, {0})}, multiset{Auto(0, {0, 1})};
    OneLineHas(m + 1, one, m);
    SeedThenRead(UNBOUNDED, m);
    var st := State(OneLine(m + 1, one), map[]);
    assert s[m + 2] == At(Write, m, m);
    PassSteps({0}, Write);
    assert {0} + {1} == {0, 1};
    LinkSelf(UNBOUNDED, st.lines, m);
    AdvanceAtMostOne(UNBOUNDED, st, s[m + 2], true, {0});
    InstallWhole(m + 1, one, two);
    RunNext(UNBOUNDED, RULES, s, m + 2);
  }

  // Bounded: `m` is outside the full storyline, so its write is ignored and the write of 0 is blocked.
  lemma RefusedRun(caps: Caps, m: nat)
    requires Roomy(caps, m) && m > 0 && !caps.members.Admits(m + 1)
    ensures VerdictAt(caps, RULES, Stream(m), m + 2) == Ignore
    ensures VerdictAt(caps, RULES, Stream(m), m + 3) == Blocked
  {
    hide Install, Link, Advance;
    var s, one := Stream(m), multiset{Auto(0, {0})};
    var alone: Story<Mask> := Story({m}, multiset{}, 0);
    SeedThenRead(caps, m);
    var st := State(OneLine(m, one)[m := alone], map[]);
    assert s[m + 2] == At(Write, m, m) && s[m + 3] == At(Write, 0, 0);
    PassSteps({}, Write);
    PassSteps({0}, Write);
    LinkSelf(caps, st.lines, m);
    AdvanceAtMostOne(caps, st, s[m + 2], false, {});
    InstallBeside(m, one, one, alone);
    assert Run(caps, RULES, s, m + 3) == st;
    LinkSelf(caps, st.lines, 0);
    AdvanceAtMostOne(caps, st, s[m + 3], true, {0});
  }

  // The ceilings of the shipped kernel engine.
  const KERNEL := Caps(AtMost(4096), AtMost(256), AtMost(24), AtMost(24), AtMost(1024))

  // At the shipped ceilings, the last of 28 events is blocked by the bounded engine and ignored by v0.0.2.
  lemma BoundedCanBeStronger()
    ensures KERNEL == Caps(AtMost(4096), AtMost(256), AtMost(24), AtMost(24), AtMost(1024))
    ensures VerdictAt(KERNEL, RULES, Stream(24), 27) == Blocked && VerdictAt(UNBOUNDED, RULES, Stream(24), 27) == Ignore
  {
    hide VerdictAt;
    RefusedRun(KERNEL, 24);
    MergedRun(24);
  }
}

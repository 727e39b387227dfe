/** Patterns whose steps are only partially ordered, and the reference semantics of the engines that
    match them: the unbounded v0.0.2 and, under finite ceilings, the fixed-capacity kernel engine. */
module DagSpec {
  import opened Events
  import opened Multisets
  import opened Storylines
  import opened Offers

  const MASK_BITS := 64

  datatype DagStep = DagStep(matcher: StepMatch, bit: nat, prereq: Mask, action: Option<Action>)

  datatype DagPattern = DagPattern(name: string, steps: seq<DagStep>)

  type Rules = seq<DagPattern>

  predicate StepsFit(steps: seq<DagStep>) {
    forall s | s in steps :: s.bit < MASK_BITS
  }

  // What the rule compiler guarantees of every mask it builds.
  predicate BitsFit(rules: Rules) {
    forall p | p in rules :: StepsFit(p.steps)
  }

  predicate Commits(s: DagStep, done: Mask, op: Op, ttps: seq<Ttp>) {
    s.bit !in done && s.prereq <= done && s.matcher.Matches(op, ttps)
  }

  datatype Progress = Progress(done: Mask, effect: Effect)

  // One automaton after the first `n` declared steps were offered the event.
  function Pass(steps: seq<DagStep>, n: nat, done: Mask, op: Op, ttps: seq<Ttp>): Progress
    requires n <= |steps|
  {
    if n == 0 then Progress(done, NOTHING) else
    var before := Pass(steps, n - 1, done, op, ttps);
    if Commits(steps[n - 1], before.done, op, ttps) then
      Progress(before.done + {steps[n - 1].bit}, before.effect.Join(ApplyEffect(steps[n - 1].action)))
    else before
  }

  function RunAuto(rules: Rules, op: Op, ttps: seq<Ttp>, a: Auto<Mask>): Progress {
    if a.pid < |rules| then Pass(rules[a.pid].steps, |rules[a.pid].steps|, a.progress, op, ttps)
    else Progress(a.progress, NOTHING)
  }

  ghost function Advanced(rules: Rules, op: Op, ttps: seq<Ttp>): Auto<Mask> -> Auto<Mask> {
    (a: Auto<Mask>) => Auto(a.pid, RunAuto(rules, op, ttps, a).done)
  }

  ghost function Reaction(rules: Rules, op: Op, ttps: seq<Ttp>): Auto<Mask> -> Effect {
    (a: Auto<Mask>) => RunAuto(rules, op, ttps, a).effect
  }

  predicate IsRootMatch(s: DagStep, op: Op, ttps: seq<Ttp>) {
    s.prereq == {} && s.matcher.Matches(op, ttps)
  }

  // The automata seeded by the first `n` steps of pattern `pid`.
  function StepSeeds(steps: seq<DagStep>, n: nat, pid: nat, op: Op, ttps: seq<Ttp>): seq<Auto<Mask>>
    requires n <= |steps|
  {
    if n == 0 then [] else
    StepSeeds(steps, n - 1, pid, op, ttps)
    + if IsRootMatch(steps[n - 1], op, ttps) then [Auto(pid, {})] else []
  }

  lemma StepSeedsNone(steps: seq<DagStep>, pid: nat, op: Op, ttps: seq<Ttp>)
    ensures StepSeeds(steps, 0, pid, op, ttps) == []
  {
  }

  lemma StepSeedsNext(steps: seq<DagStep>, i: nat, pid: nat, op: Op, ttps: seq<Ttp>)
    requires i < |steps|
    ensures multiset(StepSeeds(steps, i + 1, pid, op, ttps))
         == multiset(StepSeeds(steps, i, pid, op, ttps))
            + if IsRootMatch(steps[i], op, ttps) then multiset{Auto(pid, {})} else multiset{}
  {
  }

  // The automata seeded by the first `n` patterns, in declaration order.
  function Seeds(rules: Rules, n: nat, op: Op, ttps: seq<Ttp>): seq<Auto<Mask>>
    requires n <= |rules|
  {
    if n == 0 then [] else
    Seeds(rules, n - 1, op, ttps) + StepSeeds(rules[n - 1].steps, |rules[n - 1].steps|, n - 1, op, ttps)
  }

  // The seeds an automaton table holding `have` entries has room for: the first ones.
  function Kept<A>(limit: Limit, have: nat, seeds: seq<A>): seq<A> {
    if limit.Admits(have + |seeds|) then seeds
    else if have >= limit.n then []
    else seeds[..limit.n - have]
  }

  lemma KeptNone<A>(cap: nat, have: nat)
    requires have <= cap
    ensures Kept<A>(AtMost(cap), have, []) == []
  {
  }

  lemma KeptPush<A>(cap: nat, have: nat, seeds: seq<A>, x: A)
    requires have <= cap
    ensures Kept(AtMost(cap), have, seeds + [x])
         == if have + |Kept(AtMost(cap), have, seeds)| < cap then Kept(AtMost(cap), have, seeds) + [x]
            else Kept(AtMost(cap), have, seeds)
  {
  }

  lemma KeptSplit<A>(cap: nat, have: nat, a: seq<A>, b: seq<A>)
    requires have <= cap
    ensures var first := Kept(AtMost(cap), have, a);
      Kept(AtMost(cap), have, a + b) == first + Kept(AtMost(cap), have + |first|, b)
  {
  }

  ghost function Seeded(caps: Caps, rules: Rules, autos: multiset<Auto<Mask>>, op: Op,
      ttps: seq<Ttp>): multiset<Auto<Mask>> {
    autos + multiset(Kept(caps.automata, |autos|, Seeds(rules, |rules|, op, ttps)))
  }

  datatype Outcome = Outcome(state: State<Mask>, verdict: Verdict)

  ghost function AdvanceStory(caps: Caps, rules: Rules, x: Story<Mask>, e: Event, ttps: seq<Ttp>): Story<Mask> {
    Story(x.members, Image(Advanced(rules, e.op, ttps), Seeded(caps, rules, x.autos, e.op, ttps)), e.ts)
  }

  ghost function StoryEffect(caps: Caps, rules: Rules, x: Story<Mask>, e: Event, ttps: seq<Ttp>): Effect {
    Total(Reaction(rules, e.op, ttps), Seeded(caps, rules, x.autos, e.op, ttps))
  }

  ghost function Advance(caps: Caps, rules: Rules, st: State<Mask>, e: Event, ttps: seq<Ttp>): Outcome
    requires e.actor in st.lines
  {
    var x := st.lines[e.actor];
    var eff := StoryEffect(caps, rules, x, e, ttps);
    Outcome(State(Install(st.lines, AdvanceStory(caps, rules, x, e, ttps)),
                  DisarmActor(caps, st.disarmed, e.actor, eff)),
            eff.verdict)
  }

  ghost function OnEvent(caps: Caps, rules: Rules, st: State<Mask>, e: Event, ttps: seq<Ttp>): Outcome {
    if Gated(st.disarmed, e.actor, e.op) then Outcome(st, Blocked)
    else match Link(caps, st.lines, e.actor, e.target)
      case Full(lines) => Outcome(State(lines, st.disarmed), Ignore)
      case Linked(lines) => Advance(caps, rules, State(lines, st.disarmed), e, ttps)
  }

  ghost function Run(caps: Caps, rules: Rules, stream: seq<Tagged>, n: nat): State<Mask>
    requires n <= |stream|
  {
    if n == 0 then State(map[], map[])
    else OnEvent(caps, rules, Run(caps, rules, stream, n - 1), stream[n - 1].event, stream[n - 1].ttps).state
  }

  ghost function VerdictAt(caps: Caps, rules: Rules, stream: seq<Tagged>, i: nat): Verdict
    requires i < |stream|
  {
    OnEvent(caps, rules, Run(caps, rules, stream, i), stream[i].event, stream[i].ttps).verdict
  }

  lemma RunNext(caps: Caps, rules: Rules, stream: seq<Tagged>, n: nat)
    requires n < |stream|
    ensures var r := OnEvent(caps, rules, Run(caps, rules, stream, n), stream[n].event, stream[n].ttps);
      Run(caps, rules, stream, n + 1) == r.state && VerdictAt(caps, rules, stream, n) == r.verdict
  {
    hide OnEvent;
  }

  // ----- every run keeps the partition -----

  lemma OnEventKeepsPartition(caps: Caps, rules: Rules, st: State<Mask>, e: Event, ttps: seq<Ttp>)
    requires Partition(st.lines)
    ensures Partition(OnEvent(caps, rules, st, e, ttps).state.lines)
  {
    hide Link, Image, Total;
    LinkKeepsPartition(caps, st.lines, e.actor, e.target);
    var linked := Link(caps, st.lines, e.actor, e.target);
    if linked.Linked? {
      InstallKeepsPartition(linked.lines, AdvanceStory(caps, rules, linked.lines[e.actor], e, ttps));
    }
  }

  lemma {:induction false} RunKeepsPartition(caps: Caps, rules: Rules, stream: seq<Tagged>, n: nat)
    requires n <= |stream|
    ensures Partition(Run(caps, rules, stream, n).lines)
  {
    hide OnEvent;
    if n > 0 {
      RunKeepsPartition(caps, rules, stream, n - 1);
      var st, t := Run(caps, rules, stream, n - 1), stream[n - 1];
      OnEventKeepsPartition(caps, rules, st, t.event, t.ttps);
      assert Run(caps, rules, stream, n) == OnEvent(caps, rules, st, t.event, t.ttps).state;
    }
  }

  // ----- a disarm is for good -----

  lemma OnEventKeepsGate(caps: Caps, rules: Rules, st: State<Mask>, e: Event, ttps: seq<Ttp>, actor: Key, op: Op)
    requires Gated(st.disarmed, actor, op)
    ensures Gated(OnEvent(caps, rules, st, e, ttps).state.disarmed, actor, op)
  {
    hide Link, AdvanceStory, StoryEffect, Install;
  }

  // Once an actor has lost an operation, every later attempt is blocked, whatever ceilings are hit.
  lemma DisarmIsForever(caps: Caps, rules: Rules, stream: seq<Tagged>, i: nat, j: nat)
    requires i <= j < |stream| && Gated(Run(caps, rules, stream, i).disarmed, stream[j].event.actor, stream[j].event.op)
    ensures VerdictAt(caps, rules, stream, j) == Blocked
    ensures Run(caps, rules, stream, j + 1) == Run(caps, rules, stream, j)
  {
    GateStays(caps, rules, stream, i, j, stream[j].event.actor, stream[j].event.op);
  }

  lemma {:induction false} GateStays(caps: Caps, rules: Rules, stream: seq<Tagged>, i: nat, j: nat, actor: Key, op: Op)
    requires i <= j <= |stream| && Gated(Run(caps, rules, stream, i).disarmed, actor, op)
    ensures Gated(Run(caps, rules, stream, j).disarmed, actor, op)
    decreases j
  {
    hide Run, OnEvent, Gated;
    if i < j {
      GateStays(caps, rules, stream, i, j - 1, actor, op);
      RunNext(caps, rules, stream, j - 1);
      OnEventKeepsGate(caps, rules, Run(caps, rules, stream, j - 1), stream[j - 1].event, stream[j - 1].ttps,
          actor, op);
    }
  }

  // ----- effects are honest: only a disarm strips operations -----

  lemma {:induction false} PassHonest(steps: seq<DagStep>, n: nat, done: Mask, op: Op, ttps: seq<Ttp>)
    requires n <= |steps|
    ensures Honest(Pass(steps, n, done, op, ttps).effect)
  {
    if n > 0 {
      PassHonest(steps, n - 1, done, op, ttps);
    }
  }

  lemma RunAutoHonest(rules: Rules, op: Op, ttps: seq<Ttp>, a: Auto<Mask>)
    ensures Honest(RunAuto(rules, op, ttps, a).effect)
  {
    if a.pid < |rules| {
      PassHonest(rules[a.pid].steps, |rules[a.pid].steps|, a.progress, op, ttps);
    }
  }

  lemma ReactionHonest(rules: Rules, op: Op, ttps: seq<Ttp>)
    ensures AllHonest(Reaction(rules, op, ttps))
  {
    forall a: Auto<Mask>
      ensures Honest(Reaction(rules, op, ttps)(a))
    {
      RunAutoHonest(rules, op, ttps, a);
    }
  }
}

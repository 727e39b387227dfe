/** Patterns as fixed step sequences, and the reference semantics of the base and v0.0.1 engines. */
module LinearSpec {
  import opened Events
  import opened Multisets
  import opened Storylines
  import opened Offers

  datatype Step = Step(matcher: StepMatch, action: Option<Action>)

  datatype Pattern = Pattern(name: string, steps: seq<Step>)

  type Rules = seq<Pattern>

  // What the rule compiler guarantees: the engines index the first step of every pattern.
  predicate NonEmpty(rules: Rules) {
    forall p | p in rules :: p.steps != []
  }

  // `stage` steps matched so far, the last of them at `stageTs`.
  datatype Automaton = Automaton(stage: nat, stageTs: nat)

  predicate Steps(rules: Rules, a: Auto<Automaton>, op: Op, ttps: seq<Ttp>) {
    && a.pid < |rules| && a.progress.stage < |rules[a.pid].steps|
    && rules[a.pid].steps[a.progress.stage].matcher.Matches(op, ttps)
  }

  ghost function Advanced(rules: Rules, e: Event, ttps: seq<Ttp>): Auto<Automaton> -> Auto<Automaton> {
    (a: Auto<Automaton>) =>
      if Steps(rules, a, e.op, ttps) then Auto(a.pid, Automaton(a.progress.stage + 1, e.ts)) else a
  }

  ghost function Reaction(rules: Rules, op: Op, ttps: seq<Ttp>): Auto<Automaton> -> Effect {
    (a: Auto<Automaton>) =>
      if Steps(rules, a, op, ttps) then ApplyEffect(rules[a.pid].steps[a.progress.stage].action) else NOTHING
  }

  predicate Starts(p: Pattern, op: Op, ttps: seq<Ttp>) {
    p.steps != [] && p.steps[0].matcher.Matches(op, ttps)
  }

  // One automaton, its first step already matched, per pattern among the first `n` that starts.
  function Seeds(rules: Rules, n: nat, e: Event, ttps: seq<Ttp>): seq<Auto<Automaton>>
    requires n <= |rules|
  {
    if n == 0 then []
    else
      Seeds(rules, n - 1, e, ttps)
      + if Starts(rules[n - 1], e.op, ttps) then [Auto(n - 1, Automaton(1, e.ts))] else []
  }

  function SeedEffect(rules: Rules, n: nat, op: Op, ttps: seq<Ttp>): Effect
    requires n <= |rules|
  {
    if n == 0 then NOTHING
    else if Starts(rules[n - 1], op, ttps) then
      SeedEffect(rules, n - 1, op, ttps).Join(ApplyEffect(rules[n - 1].steps[0].action))
    else SeedEffect(rules, n - 1, op, ttps)
  }

  lemma SeedsNone(rules: Rules, e: Event, ttps: seq<Ttp>)
    ensures Seeds(rules, 0, e, ttps) == [] && SeedEffect(rules, 0, e.op, ttps) == NOTHING
  {
  }

  lemma SeedsNext(rules: Rules, n: nat, e: Event, ttps: seq<Ttp>)
    requires n < |rules|
    ensures Starts(rules[n], e.op, ttps) ==>
      multiset(Seeds(rules, n + 1, e, ttps))
      == multiset(Seeds(rules, n, e, ttps)) + multiset{Auto(n, Automaton(1, e.ts))}
    ensures Starts(rules[n], e.op, ttps) ==>
      SeedEffect(rules, n + 1, e.op, ttps)
      == SeedEffect(rules, n, e.op, ttps).Join(ApplyEffect(rules[n].steps[0].action))
    ensures !Starts(rules[n], e.op, ttps) ==>
      && Seeds(rules, n + 1, e, ttps) == Seeds(rules, n, e, ttps)
      && SeedEffect(rules, n + 1, e.op, ttps) == SeedEffect(rules, n, e.op, ttps)
  {
  }

  ghost function Seeded(rules: Rules, autos: multiset<Auto<Automaton>>, e: Event,
      ttps: seq<Ttp>): multiset<Auto<Automaton>> {
    autos + multiset(Seeds(rules, |rules|, e, ttps))
  }

  ghost function AdvanceStory(rules: Rules, x: Story<Automaton>, e: Event, ttps: seq<Ttp>): Story<Automaton> {
    Story(x.members, Image(Advanced(rules, e, ttps), Seeded(rules, x.autos, e, ttps)), e.ts)
  }

  ghost function StoryEffect(rules: Rules, x: Story<Automaton>, e: Event, ttps: seq<Ttp>): Effect {
    SeedEffect(rules, |rules|, e.op, ttps).Join(Total(Reaction(rules, e.op, ttps), Seeded(rules, x.autos, e, ttps)))
  }

  datatype Outcome = Outcome(state: State<Automaton>, verdict: Verdict)

  ghost function Advance(rules: Rules, st: State<Automaton>, e: Event, ttps: seq<Ttp>): Outcome
    requires e.actor in st.lines
  {
    var x := st.lines[e.actor];
    var eff := StoryEffect(rules, x, e, ttps);
    Outcome(State(Install(st.lines, AdvanceStory(rules, x, e, ttps)),
                  DisarmActor(UNBOUNDED, st.disarmed, e.actor, eff)),
            eff.verdict)
  }

  ghost function OnEvent(rules: Rules, st: State<Automaton>, e: Event, ttps: seq<Ttp>): Outcome {
    if Gated(st.disarmed, e.actor, e.op) then Outcome(st, Blocked)
    else match Link(UNBOUNDED, st.lines, e.actor, e.target)
      case Full(lines) => Outcome(State(lines, st.disarmed), Ignore)
      case Linked(lines) => Advance(rules, State(lines, st.disarmed), e, ttps)
  }

  ghost function Run(rules: Rules, stream: seq<Tagged>, n: nat): State<Automaton>
    requires n <= |stream|
  {
    if n == 0 then State(map[], map[])
    else OnEvent(rules, Run(rules, stream, n - 1), stream[n - 1].event, stream[n - 1].ttps).state
  }

  ghost function VerdictAt(rules: Rules, stream: seq<Tagged>, i: nat): Verdict
    requires i < |stream|
  {
    OnEvent(rules, Run(rules, stream, i), stream[i].event, stream[i].ttps).verdict
  }

  lemma ReactionHonest(rules: Rules, op: Op, ttps: seq<Ttp>)
    ensures AllHonest(Reaction(rules, op, ttps))
  {
  }

  lemma {:induction false} SeedEffectHonest(rules: Rules, n: nat, op: Op, ttps: seq<Ttp>)
    requires n <= |rules|
    ensures Honest(SeedEffect(rules, n, op, ttps))
  {
    if n > 0 {
      SeedEffectHonest(rules, n - 1, op, ttps);
    }
  }
}

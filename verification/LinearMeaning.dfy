/** The answer of the engines with fixed step sequences to one event, spelled out from the rules' own fields. */
module LinearMeaning {
  import opened Events
  import opened Multisets
  import opened Storylines
  import opened LinearSpec
  import opened StepMeaning

  // The automaton waits for a step, and the event fires it.
  ghost predicate Waits(rules: Rules, a: Auto<Automaton>, op: Op, ttps: seq<Ttp>) {
    && a.pid < |rules| && a.progress.stage < |rules[a.pid].steps|
    && Fires(rules[a.pid].steps[a.progress.stage].matcher, op, ttps)
  }

  ghost function After(rules: Rules, a: Auto<Automaton>, e: Event, ttps: seq<Ttp>): Auto<Automaton> {
    if Waits(rules, a, e.op, ttps) then Auto(a.pid, Automaton(a.progress.stage + 1, e.ts)) else a
  }

  ghost function ActionsBy(rules: Rules, a: Auto<Automaton>, op: Op, ttps: seq<Ttp>): Actions {
    if Waits(rules, a, op, ttps) then {rules[a.pid].steps[a.progress.stage].action} else {}
  }

  // The pattern's first step is fired.
  ghost predicate Begins(p: Pattern, op: Op, ttps: seq<Ttp>) {
    p.steps != [] && Fires(p.steps[0].matcher, op, ttps)
  }

  ghost function BeginActions(rules: Rules, n: nat, op: Op, ttps: seq<Ttp>): Actions
    requires n <= |rules|
  {
    set i: nat | i < n && Begins(rules[i], op, ttps) :: rules[i].steps[0].action
  }

  ghost function StepActions(rules: Rules, m: multiset<Auto<Automaton>>, op: Op, ttps: seq<Ttp>): Actions {
    set a, x | a in m && x in ActionsBy(rules, a, op, ttps) :: x
  }

  // One automaton per pattern whose first step is fired, that step done and stamped with the event's time.
  ghost function SeedCount(rules: Rules, a: Auto<Automaton>, e: Event, ttps: seq<Ttp>): nat {
    if a.pid < |rules| && Begins(rules[a.pid], e.op, ttps) && a.progress == Automaton(1, e.ts) then 1 else 0
  }

  ghost predicate Moved(rules: Rules, m: multiset<Auto<Automaton>>, m': multiset<Auto<Automaton>>, e: Event,
                        ttps: seq<Ttp>) {
    && |m'| == |m|
    && (forall a | a in m :: After(rules, a, e, ttps) in m')
    && forall b | b in m' :: exists a | a in m :: b == After(rules, a, e, ttps)
  }

  /** What one event does. A stripped operation is blocked and changes nothing; otherwise, on the storyline the
      actor is in once the event has linked it, the patterns whose first step it fires begin, every automaton
      waiting for a step it fires, new ones included, moves on by that step, and the actions of all those steps
      make the verdict and the actor's losses. Every other storyline stays as the link left it. */
  ghost predicate RightAnswer(rules: Rules, st: State<Automaton>, e: Event, ttps: seq<Ttp>, st': State<Automaton>,
                              v: Verdict) {
    if Stripped(st.disarmed, e.actor, e.op) then v == Blocked && st' == st
    else var linked := Link(UNBOUNDED, st.lines, e.actor, e.target);
      && linked.Linked? && e.actor in linked.lines
      && exists m :: Advances(rules, linked.lines, st.disarmed, e, ttps, m, st', v)
  }

  ghost predicate Advances(rules: Rules, lines: Lines<Automaton>, d: map<Key, OpSet>, e: Event, ttps: seq<Ttp>,
                           m: multiset<Auto<Automaton>>, st': State<Automaton>, v: Verdict)
    requires e.actor in lines
  {
    var x := lines[e.actor];
    var acts := BeginActions(rules, |rules|, e.op, ttps) + StepActions(rules, m, e.op, ttps);
    && (forall a :: m[a] == x.autos[a] + SeedCount(rules, a, e, ttps))
    && RightVerdict(v, acts) && RightDisarm(NoLimit, d, st'.disarmed, e.actor, acts)
    && st'.lines.Keys == lines.Keys
    && forall k | k in lines ::
         if k in x.members then && st'.lines[k].members == x.members && st'.lines[k].last == e.ts
                                && Moved(rules, m, st'.lines[k].autos, e, ttps)
         else st'.lines[k] == lines[k]
  }

  // ----- the reference step does that -----

  lemma WaitsIs(rules: Rules, a: Auto<Automaton>, op: Op, ttps: seq<Ttp>)
    ensures Steps(rules, a, op, ttps) <==> Waits(rules, a, op, ttps)
  {
    if a.pid < |rules| && a.progress.stage < |rules[a.pid].steps| {
      FiresIs(rules[a.pid].steps[a.progress.stage].matcher, op, ttps);
    }
  }

  lemma AutoDoes(rules: Rules, a: Auto<Automaton>, e: Event, ttps: seq<Ttp>)
    ensures Advanced(rules, e, ttps)(a) == After(rules, a, e, ttps)
    ensures Sums(Reaction(rules, e.op, ttps)(a), ActionsBy(rules, a, e.op, ttps))
  {
    WaitsIs(rules, a, e.op, ttps);
    hide Sums, Steps, Fires;
    if Waits(rules, a, e.op, ttps) {
      SumsOne(rules[a.pid].steps[a.progress.stage].action);
    } else {
      SumsNone();
    }
  }

  lemma StepActionsNext(rules: Rules, m: multiset<Auto<Automaton>>, x: Auto<Automaton>, op: Op, ttps: seq<Ttp>)
    requires x in m
    ensures StepActions(rules, m, op, ttps)
         == StepActions(rules, m - multiset{x}, op, ttps) + ActionsBy(rules, x, op, ttps)
  {
    hide ActionsBy;
    assert forall a | a in m :: a == x || a in m - multiset{x};
  }

  lemma {:induction false} TotalDoes(rules: Rules, m: multiset<Auto<Automaton>>, e: Event, ttps: seq<Ttp>)
    ensures Sums(Total(Reaction(rules, e.op, ttps), m), StepActions(rules, m, e.op, ttps))
    decreases |m|
  {
    hide Sums, ActionsBy, Reaction, StepActions, Total;
    if m == multiset{} {
      NothingOffered(rules, e.op, ttps);
    } else {
      var x :| x in m;
      var g, rest := Reaction(rules, e.op, ttps), m - multiset{x};
      TotalDoes(rules, rest, e, ttps);
      TotalTake(g, m, x);
      AutoDoes(rules, x, e, ttps);
      SumsBoth(Total(g, rest), g(x), StepActions(rules, rest, e.op, ttps), ActionsBy(rules, x, e.op, ttps));
      StepActionsNext(rules, m, x, e.op, ttps);
    }
  }

  lemma NothingOffered(rules: Rules, op: Op, ttps: seq<Ttp>)
    ensures Sums(Total(Reaction(rules, op, ttps), multiset{}), StepActions(rules, multiset{}, op, ttps))
  {
    SumsNone();
    hide Sums, ActionsBy;
    assert StepActions(rules, multiset{}, op, ttps) == {};
  }

  lemma ImageMoves(rules: Rules, m: multiset<Auto<Automaton>>, e: Event, ttps: seq<Ttp>)
    ensures Moved(rules, m, Image(Advanced(rules, e, ttps), m), e, ttps)
  {
    hide After, Advanced, Image;
    var f := Advanced(rules, e, ttps);
    forall a | a in m
      ensures After(rules, a, e, ttps) in Image(f, m)
    {
      AutoDoes(rules, a, e, ttps);
      ImageMember(f, m, a);
    }
    forall b | b in Image(f, m)
      ensures exists a | a in m :: b == After(rules, a, e, ttps)
    {
      var a := ImageComesFrom(f, m, b);
      AutoDoes(rules, a, e, ttps);
    }
  }

  lemma BeginsIs(p: Pattern, op: Op, ttps: seq<Ttp>)
    ensures Starts(p, op, ttps) <==> Begins(p, op, ttps)
  {
    if p.steps != [] {
      FiresIs(p.steps[0].matcher, op, ttps);
    }
  }

  lemma {:induction false} SeedsDo(rules: Rules, n: nat, op: Op, ttps: seq<Ttp>)
    requires n <= |rules|
    ensures Sums(SeedEffect(rules, n, op, ttps), BeginActions(rules, n, op, ttps))
  {
    hide Sums, Begins, StepMatch.Matches, ApplyEffect;
    if n == 0 {
      SumsNone();
      assert BeginActions(rules, 0, op, ttps) == {};
    } else {
      SeedsDo(rules, n - 1, op, ttps);
      BeginsIs(rules[n - 1], op, ttps);
      BeginActionsNext(rules, n, op, ttps);
      if Starts(rules[n - 1], op, ttps) {
        var action := rules[n - 1].steps[0].action;
        SumsOne(action);
        SumsBoth(SeedEffect(rules, n - 1, op, ttps), ApplyEffect(action), BeginActions(rules, n - 1, op, ttps),
                 {action});
      } else {
        assert BeginActions(rules, n - 1, op, ttps) + {} == BeginActions(rules, n - 1, op, ttps);
      }
    }
  }

  lemma BeginActionsNext(rules: Rules, n: nat, op: Op, ttps: seq<Ttp>)
    requires 0 < n <= |rules|
    ensures BeginActions(rules, n, op, ttps) == BeginActions(rules, n - 1, op, ttps)
      + if Begins(rules[n - 1], op, ttps) then {rules[n - 1].steps[0].action} else {}
  {
    hide Fires;
  }

  ghost function SeedOf(rules: Rules, pid: nat, e: Event, ttps: seq<Ttp>): seq<Auto<Automaton>>
    requires pid < |rules|
  {
    if Starts(rules[pid], e.op, ttps) then [Auto(pid, Automaton(1, e.ts))] else []
  }

  lemma SeedOne(rules: Rules, pid: nat, e: Event, ttps: seq<Ttp>, a: Auto<Automaton>)
    requires pid < |rules|
    ensures Count(SeedOf(rules, pid, e, ttps), a) == if a.pid == pid then SeedCount(rules, a, e, ttps) else 0
  {
    BeginsIs(rules[pid], e.op, ttps);
    hide Begins, Starts;
  }

  lemma {:induction false} SeedsCount(rules: Rules, n: nat, e: Event, ttps: seq<Ttp>, a: Auto<Automaton>)
    requires n <= |rules|
    ensures Count(Seeds(rules, n, e, ttps), a) == if a.pid < n then SeedCount(rules, a, e, ttps) else 0
  {
    hide Begins, Starts, Count, SeedCount;
    if n == 0 {
      NoCount(a);
    } else {
      SeedsCount(rules, n - 1, e, ttps, a);
      SeedOne(rules, n - 1, e, ttps, a);
      SplitCount(Seeds(rules, n - 1, e, ttps), SeedOf(rules, n - 1, e, ttps), a);
    }
  }

  lemma AnswersRightly(rules: Rules, st: State<Automaton>, e: Event, ttps: seq<Ttp>)
    requires Partition(st.lines)
    ensures var r := OnEvent(rules, st, e, ttps); RightAnswer(rules, st, e, ttps, r.state, r.verdict)
  {
    hide Link, Advance, Advances, Names;
    StrippedIs(st.disarmed, e.actor, e.op);
    var linked := Link(UNBOUNDED, st.lines, e.actor, e.target);
    if !Stripped(st.disarmed, e.actor, e.op) {
      LinkNeverFull(st.lines, e.actor, e.target);
      LinkKeepsPartition(UNBOUNDED, st.lines, e.actor, e.target);
      AdvanceIsRight(rules, State(linked.lines, st.disarmed), e, ttps);
    }
  }

  lemma LinkNeverFull(lines: Lines<Automaton>, a: Key, o: Key)
    ensures Link(UNBOUNDED, lines, a, o).Linked?
  {
  }

  lemma AdvanceIsRight(rules: Rules, st: State<Automaton>, e: Event, ttps: seq<Ttp>)
    requires e.actor in st.lines
    ensures var r, m := Advance(rules, st, e, ttps), Seeded(rules, st.lines[e.actor].autos, e, ttps);
      Advances(rules, st.lines, st.disarmed, e, ttps, m, r.state, r.verdict)
  {
    hide Image, Total, Seeds, StepActions, BeginActions, SeedEffect, Moved, DisarmActor, RightVerdict, RightDisarm,
         Reaction, Advanced, SeedCount;
    var m := Seeded(rules, st.lines[e.actor].autos, e, ttps);
    forall a
      ensures m[a] == st.lines[e.actor].autos[a] + SeedCount(rules, a, e, ttps)
    {
      SeedsCount(rules, |rules|, e, ttps, a);
      assert Count(Seeds(rules, |rules|, e, ttps), a) == multiset(Seeds(rules, |rules|, e, ttps))[a];
      NoPattern(rules, a, e, ttps);
    }
    var first, then' := SeedEffect(rules, |rules|, e.op, ttps), Total(Reaction(rules, e.op, ttps), m);
    var acts, acts' := BeginActions(rules, |rules|, e.op, ttps), StepActions(rules, m, e.op, ttps);
    TotalDoes(rules, m, e, ttps);
    SeedsDo(rules, |rules|, e.op, ttps);
    SumsBoth(first, then', acts, acts');
    ImageMoves(rules, m, e, ttps);
    SumsDisarm(UNBOUNDED, st.disarmed, e.actor, first.Join(then'), acts + acts');
  }

  lemma NoPattern(rules: Rules, a: Auto<Automaton>, e: Event, ttps: seq<Ttp>)
    ensures a.pid >= |rules| ==> SeedCount(rules, a, e, ttps) == 0
  {
  }
}

/** The answer of the partial-order engines to one event, spelled out from the rules' own fields. */
module DagMeaning {
  import opened Events
  import opened Multisets
  import opened Storylines
  import opened DagSpec
  import opened StepMeaning

  // ----- one automaton -----

  // The event fires the step, it is not done, and all it needs is.
  ghost predicate Due(s: DagStep, now: Mask, op: Op, ttps: seq<Ttp>) {
    Fires(s.matcher, op, ttps) && s.bit !in now && forall b | b in s.prereq :: b in now
  }

  // The steps that commit, in declaration order, counting what earlier steps of the same pass did.
  ghost function Committed(steps: seq<DagStep>, n: nat, done: Mask, op: Op, ttps: seq<Ttp>): set<nat>
    requires n <= |steps|
  {
    if n == 0 then {} else
    var before := Committed(steps, n - 1, done, op, ttps);
    before + if Due(steps[n - 1], done + BitsOf(steps, before), op, ttps) then {n - 1} else {}
  }

  ghost function BitsOf(steps: seq<DagStep>, which: set<nat>): Mask {
    set i | i in which && i < |steps| :: steps[i].bit
  }

  ghost function Earlier(which: set<nat>, k: nat): set<nat> {
    set i | i in which && i < k
  }

  ghost predicate CommitsAt(steps: seq<DagStep>, which: set<nat>, done: Mask, k: nat, op: Op, ttps: seq<Ttp>)
    requires k < |steps|
  {
    Due(steps[k], done + BitsOf(steps, Earlier(which, k)), op, ttps)
  }

  // That is exactly the set it is, and no other set fits the description.
  lemma {:induction false} CommittedExactly(steps: seq<DagStep>, n: nat, done: Mask, op: Op, ttps: seq<Ttp>)
    requires n <= |steps|
    ensures Exactly(steps, n, done, op, ttps, Committed(steps, n, done, op, ttps))
  {
    hide Exactly, Due, Committed, BitsOf;
    if n == 0 {
      NoneExactly(steps, done, op, ttps);
    } else {
      CommittedExactly(steps, n - 1, done, op, ttps);
      CommittedNext(steps, n, done, op, ttps);
      ExactlyNext(steps, n, done, op, ttps, Committed(steps, n - 1, done, op, ttps));
    }
  }

  lemma NoneExactly(steps: seq<DagStep>, done: Mask, op: Op, ttps: seq<Ttp>)
    ensures Exactly(steps, 0, done, op, ttps, Committed(steps, 0, done, op, ttps))
  {
  }

  lemma CommittedNext(steps: seq<DagStep>, n: nat, done: Mask, op: Op, ttps: seq<Ttp>)
    requires 0 < n <= |steps|
    ensures var before := Committed(steps, n - 1, done, op, ttps);
      Committed(steps, n, done, op, ttps)
      == before + if Due(steps[n - 1], done + BitsOf(steps, before), op, ttps) then {n - 1} else {}
  {
    hide Due;
  }

  ghost predicate Exactly(steps: seq<DagStep>, n: nat, done: Mask, op: Op, ttps: seq<Ttp>, which: set<nat>)
    requires n <= |steps|
  {
    && (forall k | k in which :: k < n)
    && forall k: nat | k < n :: k in which <==> CommitsAt(steps, which, done, k, op, ttps)
  }

  lemma ExactlyNext(steps: seq<DagStep>, n: nat, done: Mask, op: Op, ttps: seq<Ttp>, before: set<nat>)
    requires 0 < n <= |steps| && Exactly(steps, n - 1, done, op, ttps, before)
    ensures Exactly(steps, n, done, op, ttps,
                    before + if Due(steps[n - 1], done + BitsOf(steps, before), op, ttps) then {n - 1} else {})
  {
    hide Due, BitsOf, CommitsAt, Earlier;
    var due := Due(steps[n - 1], done + BitsOf(steps, before), op, ttps);
    var which := before + if due then {n - 1} else {};
    forall k: nat | k < n - 1
      ensures k in which <==> CommitsAt(steps, which, done, k, op, ttps)
    {
      SameBelow(steps, which, before, done, k, op, ttps);
      assert k in before <==> CommitsAt(steps, before, done, k, op, ttps);
    }
    SameBelow(steps, which, before, done, n - 1, op, ttps);
    LastCommits(steps, before, done, n - 1, op, ttps);
  }

  // What is committed from step `k` on does not matter to step `k`.
  lemma SameBelow(steps: seq<DagStep>, a: set<nat>, b: set<nat>, done: Mask, k: nat, op: Op, ttps: seq<Ttp>)
    requires k < |steps| && forall i: nat | i < k :: i in a <==> i in b
    ensures CommitsAt(steps, a, done, k, op, ttps) <==> CommitsAt(steps, b, done, k, op, ttps)
  {
    hide Due, BitsOf;
    EarlierSame(a, b, k);
  }

  lemma LastCommits(steps: seq<DagStep>, before: set<nat>, done: Mask, k: nat, op: Op, ttps: seq<Ttp>)
    requires k < |steps| && forall i | i in before :: i < k
    ensures CommitsAt(steps, before, done, k, op, ttps) <==> Due(steps[k], done + BitsOf(steps, before), op, ttps)
  {
    hide Due, BitsOf;
    EarlierAll(before, k);
  }

  lemma EarlierSame(a: set<nat>, b: set<nat>, k: nat)
    requires forall i: nat | i < k :: i in a <==> i in b
    ensures Earlier(a, k) == Earlier(b, k)
  {
  }

  lemma EarlierAll(a: set<nat>, k: nat)
    requires forall i | i in a :: i < k
    ensures Earlier(a, k) == a
  {
  }

  lemma CommitsIs(s: DagStep, now: Mask, op: Op, ttps: seq<Ttp>)
    ensures Commits(s, now, op, ttps) <==> Due(s, now, op, ttps)
  {
    FiresIs(s.matcher, op, ttps);
  }

  ghost function ActionsOf(steps: seq<DagStep>, which: set<nat>): Actions {
    set i | i in which && i < |steps| :: steps[i].action
  }

  lemma {:induction false} PassDoes(steps: seq<DagStep>, n: nat, done: Mask, op: Op, ttps: seq<Ttp>)
    requires n <= |steps|
    ensures var which, p := Committed(steps, n, done, op, ttps), Pass(steps, n, done, op, ttps);
      p.done == done + BitsOf(steps, which) && Sums(p.effect, ActionsOf(steps, which))
  {
    hide Sums, Commits, Due, ApplyEffect;
    if n == 0 {
      SumsNone();
      assert ActionsOf(steps, {}) == {} && BitsOf(steps, {}) == {};
    } else {
      PassDoes(steps, n - 1, done, op, ttps);
      var before, s := Committed(steps, n - 1, done, op, ttps), steps[n - 1];
      CommitsIs(s, done + BitsOf(steps, before), op, ttps);
      if Due(s, done + BitsOf(steps, before), op, ttps) {
        SumsOne(s.action);
        SumsBoth(Pass(steps, n - 1, done, op, ttps).effect, ApplyEffect(s.action), ActionsOf(steps, before),
                 {s.action});
        assert ActionsOf(steps, before + {n - 1}) == ActionsOf(steps, before) + {s.action};
        assert BitsOf(steps, before + {n - 1}) == BitsOf(steps, before) + {s.bit};
      } else {
        assert before + {} == before;
      }
    }
  }

  // ----- all the automata the event is offered to -----

  ghost function StepsOf(rules: Rules, pid: nat): seq<DagStep> {
    if pid < |rules| then rules[pid].steps else []
  }

  ghost function CommittedBy(rules: Rules, a: Auto<Mask>, op: Op, ttps: seq<Ttp>): set<nat> {
    Committed(StepsOf(rules, a.pid), |StepsOf(rules, a.pid)|, a.progress, op, ttps)
  }

  ghost function After(rules: Rules, a: Auto<Mask>, op: Op, ttps: seq<Ttp>): Auto<Mask> {
    Auto(a.pid, a.progress + BitsOf(StepsOf(rules, a.pid), CommittedBy(rules, a, op, ttps)))
  }

  ghost function ActionsBy(rules: Rules, a: Auto<Mask>, op: Op, ttps: seq<Ttp>): Actions {
    ActionsOf(StepsOf(rules, a.pid), CommittedBy(rules, a, op, ttps))
  }

  // The actions of every step committed by one of them.
  ghost function AllActions(rules: Rules, m: multiset<Auto<Mask>>, op: Op, ttps: seq<Ttp>): Actions {
    set a, x | a in m && x in ActionsBy(rules, a, op, ttps) :: x
  }

  lemma AutoDoes(rules: Rules, a: Auto<Mask>, op: Op, ttps: seq<Ttp>)
    ensures Advanced(rules, op, ttps)(a) == After(rules, a, op, ttps)
    ensures Sums(Reaction(rules, op, ttps)(a), ActionsBy(rules, a, op, ttps))
  {
    if a.pid < |rules| {
      PassDoes(rules[a.pid].steps, |rules[a.pid].steps|, a.progress, op, ttps);
      hide Sums;
    } else {
      SumsNone();
      assert BitsOf([], {}) == {} && ActionsOf([], {}) == {} && a.progress + {} == a.progress;
    }
  }

  lemma AllActionsNext(rules: Rules, m: multiset<Auto<Mask>>, x: Auto<Mask>, op: Op, ttps: seq<Ttp>)
    requires x in m
    ensures AllActions(rules, m, op, ttps)
         == AllActions(rules, m - multiset{x}, op, ttps) + ActionsBy(rules, x, op, ttps)
  {
    hide ActionsBy;
    assert forall a | a in m :: a == x || a in m - multiset{x};
  }

  lemma {:induction false} TotalDoes(rules: Rules, m: multiset<Auto<Mask>>, op: Op, ttps: seq<Ttp>)
    ensures Sums(Total(Reaction(rules, op, ttps), m), AllActions(rules, m, op, ttps))
    decreases |m|
  {
    hide Sums, ActionsBy, Reaction, AllActions, Total;
    if m == multiset{} {
      NothingOffered(rules, op, ttps);
    } else {
      var x :| x in m;
      var g, rest := Reaction(rules, op, ttps), m - multiset{x};
      TotalDoes(rules, rest, op, ttps);
      TotalTake(g, m, x);
      AutoDoes(rules, x, op, ttps);
      SumsBoth(Total(g, rest), g(x), AllActions(rules, rest, op, ttps), ActionsBy(rules, x, op, ttps));
      AllActionsNext(rules, m, x, op, ttps);
    }
  }

  lemma NothingOffered(rules: Rules, op: Op, ttps: seq<Ttp>)
    ensures Sums(Total(Reaction(rules, op, ttps), multiset{}), AllActions(rules, multiset{}, op, ttps))
  {
    SumsNone();
    hide Sums, ActionsBy;
    assert AllActions(rules, multiset{}, op, ttps) == {};
  }

  // As many automata as before, each moved by the steps it committed.
  ghost predicate Moved(rules: Rules, m: multiset<Auto<Mask>>, m': multiset<Auto<Mask>>, op: Op, ttps: seq<Ttp>) {
    && |m'| == |m|
    && (forall a | a in m :: After(rules, a, op, ttps) in m')
    && forall b | b in m' :: exists a | a in m :: b == After(rules, a, op, ttps)
  }

  lemma ImageMoves(rules: Rules, m: multiset<Auto<Mask>>, op: Op, ttps: seq<Ttp>)
    ensures Moved(rules, m, Image(Advanced(rules, op, ttps), m), op, ttps)
  {
    hide After, Advanced, Image;
    var f := Advanced(rules, op, ttps);
    forall a | a in m
      ensures After(rules, a, op, ttps) in Image(f, m)
    {
      AutoDoes(rules, a, op, ttps);
      ImageMember(f, m, a);
    }
    forall b | b in Image(f, m)
      ensures exists a | a in m :: b == After(rules, a, op, ttps)
    {
      var a := ImageComesFrom(f, m, b);
      AutoDoes(rules, a, op, ttps);
    }
  }

  // ----- seeding -----

  // How many steps of a pattern start an automaton: no prerequisite, and the event fires them.
  ghost function Roots(steps: seq<DagStep>, n: nat, op: Op, ttps: seq<Ttp>): nat
    requires n <= |steps|
  {
    if n == 0 then 0 else
    Roots(steps, n - 1, op, ttps)
    + if steps[n - 1].prereq == {} && Fires(steps[n - 1].matcher, op, ttps) then 1 else 0
  }

  // One fresh automaton per root step fired, and no other.
  ghost function SeedCount(rules: Rules, a: Auto<Mask>, op: Op, ttps: seq<Ttp>): nat {
    if a.progress == {} then Roots(StepsOf(rules, a.pid), |StepsOf(rules, a.pid)|, op, ttps) else 0
  }

  ghost function SeedOf(s: DagStep, pid: nat, op: Op, ttps: seq<Ttp>): seq<Auto<Mask>> {
    if IsRootMatch(s, op, ttps) then [Auto(pid, {})] else []
  }

  lemma SeedOne(s: DagStep, pid: nat, op: Op, ttps: seq<Ttp>, a: Auto<Mask>)
    ensures Count(SeedOf(s, pid, op, ttps), a) == if IsRootMatch(s, op, ttps) && a == Auto(pid, {}) then 1 else 0
  {
    hide IsRootMatch;
  }

  lemma {:induction false} StepSeedsCount(steps: seq<DagStep>, n: nat, pid: nat, op: Op, ttps: seq<Ttp>, a: Auto<Mask>)
    requires n <= |steps|
    ensures Count(StepSeeds(steps, n, pid, op, ttps), a) == if a == Auto(pid, {}) then Roots(steps, n, op, ttps) else 0
  {
    hide Fires, StepMatch.Matches, Count;
    if n > 0 {
      StepSeedsCount(steps, n - 1, pid, op, ttps, a);
      FiresIs(steps[n - 1].matcher, op, ttps);
      SeedOne(steps[n - 1], pid, op, ttps, a);
      SplitCount(StepSeeds(steps, n - 1, pid, op, ttps), SeedOf(steps[n - 1], pid, op, ttps), a);
    } else {
      NoCount(a);
    }
  }

  lemma {:induction false} SeedsCount(rules: Rules, n: nat, op: Op, ttps: seq<Ttp>, a: Auto<Mask>)
    requires n <= |rules|
    ensures Count(Seeds(rules, n, op, ttps), a) == if a.pid < n then SeedCount(rules, a, op, ttps) else 0
  {
    hide Count, Roots, StepSeeds;
    if n > 0 {
      var steps := rules[n - 1].steps;
      SeedsCount(rules, n - 1, op, ttps, a);
      StepSeedsCount(steps, |steps|, n - 1, op, ttps, a);
      SplitCount(Seeds(rules, n - 1, op, ttps), StepSeeds(steps, |steps|, n - 1, op, ttps), a);
      assert a.pid == n - 1 && a.progress == {} ==> a == Auto(n - 1, {});
    } else {
      NoCount(a);
    }
  }

  /** The automata the event is offered to: those of the storyline and the seeds, all of them while they fit
      and otherwise only as many as there is room for. */
  ghost predicate OfferedTo(room: Limit, rules: Rules, have: multiset<Auto<Mask>>, m: multiset<Auto<Mask>>, op: Op,
                            ttps: seq<Ttp>) {
    && (forall a :: have[a] <= m[a] <= have[a] + SeedCount(rules, a, op, ttps))
    && ((forall a :: m[a] == have[a] + SeedCount(rules, a, op, ttps)) || (room != NoLimit && |m| >= room.n))
    && (Fits(room, |have|) ==> Fits(room, |m|))
  }

  lemma SeededIsOffered(caps: Caps, rules: Rules, have: multiset<Auto<Mask>>, op: Op, ttps: seq<Ttp>)
    ensures OfferedTo(caps.automata, rules, have, Seeded(caps, rules, have, op, ttps), op, ttps)
  {
    hide Seeds, SeedCount;
    var seeds := Seeds(rules, |rules|, op, ttps);
    var kept := Kept(caps.automata, |have|, seeds);
    forall a
      ensures multiset(kept)[a] <= SeedCount(rules, a, op, ttps)
      ensures kept == seeds ==> multiset(kept)[a] == SeedCount(rules, a, op, ttps)
    {
      KeptCount(caps.automata, |have|, seeds, a);
      assert Count(seeds, a) == multiset(seeds)[a];
      SeedsCount(rules, |rules|, op, ttps, a);
      NoPattern(rules, a, op, ttps);
      hide Kept;
    }
  }

  lemma KeptCount<A>(limit: Limit, have: nat, seeds: seq<A>, a: A)
    ensures multiset(Kept(limit, have, seeds))[a] <= multiset(seeds)[a]
  {
    var kept := Kept(limit, have, seeds);
    assert seeds == kept + seeds[|kept|..];
    SplitCount(kept, seeds[|kept|..], a);
    assert Count(seeds, a) == multiset(seeds)[a] && Count(kept, a) == multiset(kept)[a];
  }

  lemma NoPattern(rules: Rules, a: Auto<Mask>, op: Op, ttps: seq<Ttp>)
    ensures a.pid >= |rules| ==> SeedCount(rules, a, op, ttps) == 0
  {
  }

  // ----- the whole event -----

  /** What one event does, for any ceilings. A stripped operation is blocked and changes nothing; a failed
      lookup is ignored; otherwise, on the storyline the actor is in once the event has linked it, the seeded
      automata are added, each automaton moves by the steps it commits, and the actions of all those steps
      make the verdict and the actor's losses. Every other storyline stays as the link left it. */
  ghost predicate RightAnswer(caps: Caps, rules: Rules, st: State<Mask>, e: Event, ttps: seq<Ttp>, st': State<Mask>,
                              v: Verdict) {
    if Stripped(st.disarmed, e.actor, e.op) then v == Blocked && st' == st
    else match Link(caps, st.lines, e.actor, e.target)
      case Full(lines) => v == Ignore && st' == State(lines, st.disarmed)
      case Linked(lines) =>
        e.actor in lines && exists m :: Advances(caps, rules, lines, st.disarmed, e, ttps, m, st', v)
  }

  ghost predicate Advances(caps: Caps, rules: Rules, lines: Lines<Mask>, d: map<Key, OpSet>, e: Event, ttps: seq<Ttp>,
                           m: multiset<Auto<Mask>>, st': State<Mask>, v: Verdict)
    requires e.actor in lines
  {
    var x, acts := lines[e.actor], AllActions(rules, m, e.op, ttps);
    && OfferedTo(caps.automata, rules, x.autos, m, e.op, ttps)
    && RightVerdict(v, acts) && RightDisarm(caps.disarmed, d, st'.disarmed, e.actor, acts)
    && st'.lines.Keys == lines.Keys
    && forall k | k in lines ::
         if k in x.members then && st'.lines[k].members == x.members && st'.lines[k].last == e.ts
                                && Moved(rules, m, st'.lines[k].autos, e.op, ttps)
         else st'.lines[k] == lines[k]
  }

  lemma AnswersRightly(caps: Caps, rules: Rules, st: State<Mask>, e: Event, ttps: seq<Ttp>)
    requires Partition(st.lines)
    ensures var r := OnEvent(caps, rules, st, e, ttps); RightAnswer(caps, rules, st, e, ttps, r.state, r.verdict)
  {
    hide Link, Advance, Advances, Names;
    StrippedIs(st.disarmed, e.actor, e.op);
    var linked := Link(caps, st.lines, e.actor, e.target);
    if !Stripped(st.disarmed, e.actor, e.op) && linked.Linked? {
      LinkKeepsPartition(caps, st.lines, e.actor, e.target);
      AdvanceIsRight(caps, rules, State(linked.lines, st.disarmed), e, ttps);
    }
  }

  lemma AdvanceIsRight(caps: Caps, rules: Rules, st: State<Mask>, e: Event, ttps: seq<Ttp>)
    requires e.actor in st.lines
    ensures var r := Advance(caps, rules, st, e, ttps);
      var m := Seeded(caps, rules, st.lines[e.actor].autos, e.op, ttps);
      Advances(caps, rules, st.lines, st.disarmed, e, ttps, m, r.state, r.verdict)
  {
    hide Seeded, Image, Total, AllActions, OfferedTo, Moved, DisarmActor, RightVerdict, RightDisarm, Reaction, Advanced;
    var x := st.lines[e.actor];
    var m := Seeded(caps, rules, x.autos, e.op, ttps);
    SeededIsOffered(caps, rules, x.autos, e.op, ttps);
    TotalDoes(rules, m, e.op, ttps);
    ImageMoves(rules, m, e.op, ttps);
    SumsDisarm(caps, st.disarmed, e.actor, Total(Reaction(rules, e.op, ttps), m), AllActions(rules, m, e.op, ttps));
  }

  // An event that fires no step of any rule is ignored, and moves, adds and strips nothing.
  lemma NothingFires(caps: Caps, rules: Rules, st: State<Mask>, e: Event, ttps: seq<Ttp>)
    requires Partition(st.lines) && !Stripped(st.disarmed, e.actor, e.op)
    requires Link(caps, st.lines, e.actor, e.target).Linked?
    requires forall p, s | p in rules && s in p.steps :: !Fires(s.matcher, e.op, ttps)
    ensures var r, lines := OnEvent(caps, rules, st, e, ttps), Link(caps, st.lines, e.actor, e.target).lines;
      && r.verdict == Ignore && r.state.disarmed == st.disarmed && r.state.lines.Keys == lines.Keys
      && forall k | k in lines :: r.state.lines[k].autos == lines[k].autos
  {
    hide Link, Names, Fires;
    StrippedIs(st.disarmed, e.actor, e.op);
    LinkKeepsPartition(caps, st.lines, e.actor, e.target);
    NothingAdvances(caps, rules, State(Link(caps, st.lines, e.actor, e.target).lines, st.disarmed), e, ttps);
  }

  lemma NothingAdvances(caps: Caps, rules: Rules, st: State<Mask>, e: Event, ttps: seq<Ttp>)
    requires Partition(st.lines) && e.actor in st.lines
    requires forall p, s | p in rules && s in p.steps :: !Fires(s.matcher, e.op, ttps)
    ensures var r := Advance(caps, rules, st, e, ttps);
      && r.verdict == Ignore && r.state.disarmed == st.disarmed && r.state.lines.Keys == st.lines.Keys
      && forall k | k in st.lines :: r.state.lines[k].autos == st.lines[k].autos
  {
    hide Fires, StepMatch.Matches, Image, Total, Seeds, Advanced, Reaction;
    var have := st.lines[e.actor].autos;
    SeedsNone(rules, |rules|, e.op, ttps);
    assert Seeded(caps, rules, have, e.op, ttps) == have + multiset{} == have;
    StaysPut(rules, have, e.op, ttps);
  }

  lemma {:induction false} SeedsNone(rules: Rules, n: nat, op: Op, ttps: seq<Ttp>)
    requires n <= |rules| && forall p, s | p in rules && s in p.steps :: !Fires(s.matcher, op, ttps)
    ensures Seeds(rules, n, op, ttps) == []
  {
    hide Fires, StepMatch.Matches;
    if n > 0 {
      SeedsNone(rules, n - 1, op, ttps);
      StepSeedsNone(rules[n - 1].steps, |rules[n - 1].steps|, n - 1, op, ttps);
    }
  }

  lemma {:induction false} StepSeedsNone(steps: seq<DagStep>, n: nat, pid: nat, op: Op, ttps: seq<Ttp>)
    requires n <= |steps| && forall s | s in steps :: !Fires(s.matcher, op, ttps)
    ensures StepSeeds(steps, n, pid, op, ttps) == []
  {
    hide Fires, StepMatch.Matches;
    if n > 0 {
      StepSeedsNone(steps, n - 1, pid, op, ttps);
      FiresIs(steps[n - 1].matcher, op, ttps);
    }
  }

  lemma {:induction false} CommittedNone(steps: seq<DagStep>, n: nat, done: Mask, op: Op, ttps: seq<Ttp>)
    requires n <= |steps| && forall s | s in steps :: !Fires(s.matcher, op, ttps)
    ensures Committed(steps, n, done, op, ttps) == {}
  {
    hide Fires, StepMatch.Matches;
    if n > 0 {
      CommittedNone(steps, n - 1, done, op, ttps);
    }
  }

  lemma {:induction false} StaysPut(rules: Rules, m: multiset<Auto<Mask>>, op: Op, ttps: seq<Ttp>)
    requires forall p, s | p in rules && s in p.steps :: !Fires(s.matcher, op, ttps)
    ensures Image(Advanced(rules, op, ttps), m) == m && Total(Reaction(rules, op, ttps), m) == NOTHING
    decreases |m|
  {
    hide Fires, Committed, Advanced, Reaction, Sums;
    if m != multiset{} {
      var x :| x in m;
      StaysPut(rules, m - multiset{x}, op, ttps);
      ImageTake(Advanced(rules, op, ttps), m, x);
      TotalTake(Reaction(rules, op, ttps), m, x);
      AutoStays(rules, x, op, ttps);
      JoinUnit(NOTHING);
    }
  }

  lemma AutoStays(rules: Rules, a: Auto<Mask>, op: Op, ttps: seq<Ttp>)
    requires forall p, s | p in rules && s in p.steps :: !Fires(s.matcher, op, ttps)
    ensures Advanced(rules, op, ttps)(a) == a && Reaction(rules, op, ttps)(a) == NOTHING
  {
    hide Fires, Committed, Advanced, Reaction;
    var steps := StepsOf(rules, a.pid);
    assert forall s | s in steps :: a.pid < |rules| && rules[a.pid] in rules && s in rules[a.pid].steps;
    CommittedNone(steps, |steps|, a.progress, op, ttps);
    AutoDoes(rules, a, op, ttps);
    assert BitsOf(steps, {}) == {} && a.progress + {} == a.progress;
    assert ActionsOf(steps, {}) == {};
  }
}

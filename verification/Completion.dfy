/** An accepted pattern can be completed: its steps, fed one by one in any order that respects the
    prerequisites, take one automaton of the storyline through every bit. */
module Completion {
  import opened Events
  import opened Multisets
  import opened Storylines
  import opened DagSpec
  import opened PartialOrder

  ghost function RunFrom(rules: Rules, st: State<Mask>, stream: seq<Tagged>, n: nat): State<Mask>
    requires n <= |stream|
  {
    if n == 0 then st
    else OnEvent(UNBOUNDED, rules, RunFrom(rules, st, stream, n - 1), stream[n - 1].event, stream[n - 1].ttps).state
  }

  // Event `i` matches step `order[i]`, is not gated, and its actor is in the storyline of the first actor.
  ghost predicate Feeds(rules: Rules, pid: nat, order: seq<nat>, st: State<Mask>, stream: seq<Tagged>, n: nat)
    requires pid < |rules| && Listed(rules[pid].steps, order) && n <= |order| == |stream|
  {
    forall i | 0 <= i < n ::
      var e, now := stream[i].event, RunFrom(rules, st, stream, i);
      && rules[pid].steps[order[i]].matcher.Matches(e.op, stream[i].ttps)
      && !Gated(now.disarmed, e.actor, e.op)
      && (i > 0 ==> stream[0].event.actor in now.lines && e.actor in now.lines[stream[0].event.actor].members)
  }

  // What the automaton seeded by the first event has done after `n` of them.
  ghost function Followed(steps: seq<DagStep>, stream: seq<Tagged>, n: nat): Mask
    requires n <= |stream|
  {
    if n == 0 then {}
    else Pass(steps, |steps|, Followed(steps, stream, n - 1), stream[n - 1].event.op, stream[n - 1].ttps).done
  }

  // The storyline of `k` holds that automaton of pattern `pid`.
  ghost predicate Holds(lines: Lines<Mask>, k: Key, pid: nat, done: Mask) {
    k in lines && Auto(pid, done) in lines[k].autos
  }

  ghost predicate Matches(steps: seq<DagStep>, order: seq<nat>, stream: seq<Tagged>)
    requires |order| == |stream| && forall i | 0 <= i < |order| :: order[i] < |steps|
  {
    forall i | 0 <= i < |order| :: steps[order[i]].matcher.Matches(stream[i].event.op, stream[i].ttps)
  }

  lemma PassCommits(steps: seq<DagStep>, s: nat, start: Mask, op: Op, ttps: seq<Ttp>)
    requires s < |steps| && steps[s].matcher.Matches(op, ttps) && steps[s].prereq <= start
    ensures start + {steps[s].bit} <= Pass(steps, |steps|, start, op, ttps).done
  {
    PassAdds(steps, 0, s, start, op, ttps);
    PassAdds(steps, s + 1, |steps|, start, op, ttps);
    PassAdds(steps, s, s + 1, start, op, ttps);
  }

  lemma {:induction false} StepSeedsContain(steps: seq<DagStep>, s: nat, n: nat, pid: nat, op: Op, ttps: seq<Ttp>)
    requires s < n <= |steps| && IsRootMatch(steps[s], op, ttps)
    ensures Auto(pid, {}) in StepSeeds(steps, n, pid, op, ttps)
  {
    if s < n - 1 {
      StepSeedsContain(steps, s, n - 1, pid, op, ttps);
    } else {
      assert steps[n - 1] == steps[s];
    }
  }

  lemma {:induction false} SeedsContain(rules: Rules, pid: nat, s: nat, n: nat, op: Op, ttps: seq<Ttp>)
    requires pid < n <= |rules| && s < |rules[pid].steps| && IsRootMatch(rules[pid].steps[s], op, ttps)
    ensures Auto(pid, {}) in Seeds(rules, n, op, ttps)
  {
    if pid < n - 1 {
      SeedsContain(rules, pid, s, n - 1, op, ttps);
    } else {
      StepSeedsContain(rules[pid].steps, s, |rules[pid].steps|, pid, op, ttps);
    }
  }

  lemma {:induction false} PassStaysInside(steps: seq<DagStep>, n: nat, start: Mask, op: Op, ttps: seq<Ttp>)
    requires n <= |steps| && start <= BitsOf(steps)
    ensures Pass(steps, n, start, op, ttps).done <= BitsOf(steps)
  {
    if n > 0 {
      PassStaysInside(steps, n - 1, start, op, ttps);
      assert steps[n - 1] in steps;
    }
  }

  // Step by step, the automaton takes in every bit fed to it, and no bit the pattern does not have.
  lemma {:induction false} FollowedCommits(steps: seq<DagStep>, order: seq<nat>, stream: seq<Tagged>, n: nat)
    requires Listed(steps, order) && n <= |order| == |stream| && Matches(steps, order, stream)
    ensures BitsBefore(steps, order, n) <= Followed(steps, stream, n) <= BitsOf(steps)
  {
    hide Pass, BitsOf, StepMatch.Matches;
    if n == 0 {
      NoBits(steps);
    } else {
      FollowedCommits(steps, order, stream, n - 1);
      var before, t := Followed(steps, stream, n - 1), stream[n - 1];
      PassStaysInside(steps, |steps|, before, t.event.op, t.ttps);
      PassCommits(steps, order[n - 1], before, t.event.op, t.ttps);
      assert BitsBefore(steps, order, n) == BitsBefore(steps, order, n - 1) + {steps[order[n - 1]].bit};
    }
  }

  lemma NoBits(steps: seq<DagStep>)
    ensures {} <= BitsOf(steps)
  {
  }

  // Advancing a storyline takes each of its automata, and each it seeds, through one pass.
  lemma AdvanceMoves(rules: Rules, st: State<Mask>, e: Event, ttps: seq<Ttp>, pid: nat, done: Mask, k: Key)
    requires Partition(st.lines) && e.actor in st.lines && k in st.lines && e.actor in st.lines[k].members
    requires pid < |rules|
    requires Holds(st.lines, k, pid, done) || Auto(pid, done) in Seeds(rules, |rules|, e.op, ttps)
    ensures Holds(Advance(UNBOUNDED, rules, st, e, ttps).state.lines, k, pid,
                  Pass(rules[pid].steps, |rules[pid].steps|, done, e.op, ttps).done)
  {
    hide Pass, Seeds, Image;
    var x, auto := st.lines[e.actor], Auto(pid, done);
    assert x == st.lines[k];
    var seeded := Seeded(UNBOUNDED, rules, x.autos, e.op, ttps);
    assert auto in seeded;
    ImageMember(Advanced(rules, e.op, ttps), seeded, auto);
    AdvancedTo(rules, e.op, ttps, pid, done);
    hide StoryEffect, DisarmActor, Seeded, Advanced;
  }

  lemma AdvancedTo(rules: Rules, op: Op, ttps: seq<Ttp>, pid: nat, done: Mask)
    requires pid < |rules|
    ensures Advanced(rules, op, ttps)(Auto(pid, done))
         == Auto(pid, Pass(rules[pid].steps, |rules[pid].steps|, done, op, ttps).done)
  {
    hide Pass;
  }

  // Linking keeps every storyline's automata, and keeps together what was together.
  lemma LinkKeepsHeld(lines: Lines<Mask>, a: Key, o: Key, k: Key, pid: nat, done: Mask)
    requires Partition(lines) && k in lines && a in lines[k].members
    ensures var r := Link(UNBOUNDED, lines, a, o);
      r.Linked? && Partition(r.lines) && a in r.lines && k in r.lines && a in r.lines[k].members
      && (Holds(lines, k, pid, done) ==> Holds(r.lines, k, pid, done))
  {
    LinkKeepsPartition(UNBOUNDED, lines, a, o);
    var l2 := Resolve(UNBOUNDED, lines, o).value;
    assert Resolve(UNBOUNDED, lines, a) == Some(lines);
    assert Link(UNBOUNDED, lines, a, o).lines == Merge(UNBOUNDED, l2, a, o);
  }

  lemma {:induction false} RunFromKeepsPartition(rules: Rules, st: State<Mask>, stream: seq<Tagged>, n: nat)
    requires Partition(st.lines) && n <= |stream|
    ensures Partition(RunFrom(rules, st, stream, n).lines)
  {
    hide OnEvent;
    if n > 0 {
      RunFromKeepsPartition(rules, st, stream, n - 1);
      OnEventKeepsPartition(UNBOUNDED, rules, RunFrom(rules, st, stream, n - 1), stream[n - 1].event,
          stream[n - 1].ttps);
    }
  }

  // The automaton stays in the storyline of the first actor.
  lemma {:induction false} FedInOrder(rules: Rules, pid: nat, order: seq<nat>, st: State<Mask>, stream: seq<Tagged>,
                                      n: nat)
    requires pid < |rules| && Listed(rules[pid].steps, order) && 0 < n <= |order| == |stream|
    requires Partition(st.lines) && Feeds(rules, pid, order, st, stream, n)
    ensures Holds(RunFrom(rules, st, stream, n).lines, stream[0].event.actor, pid,
                  Followed(rules[pid].steps, stream, n))
  {
    hide Advance, Link, Holds, Pass, Seeds, StepMatch.Matches;
    var steps, k, t := rules[pid].steps, stream[0].event.actor, stream[n - 1];
    var now, done := RunFrom(rules, st, stream, n - 1), Followed(steps, stream, n - 1);
    RunFromKeepsPartition(rules, st, stream, n - 1);
    if n > 1 {
      FedInOrder(rules, pid, order, st, stream, n - 1);
      LinkKeepsHeld(now.lines, t.event.actor, t.event.target, k, pid, done);
    } else {
      LinkKeepsPartition(UNBOUNDED, now.lines, t.event.actor, t.event.target);
      UnboundedLinks(now.lines, t.event.actor, t.event.target);
      FirstSeeds(rules, pid, order, stream);
    }
    var linked := Link(UNBOUNDED, now.lines, t.event.actor, t.event.target).lines;
    AdvanceMoves(rules, State(linked, now.disarmed), t.event, t.ttps, pid, done, k);
  }

  // The first step of a schedule is a root, so the first event seeds the pattern.
  lemma FirstSeeds(rules: Rules, pid: nat, order: seq<nat>, stream: seq<Tagged>)
    requires pid < |rules| && Listed(rules[pid].steps, order) && |order| == |stream| > 0
    requires rules[pid].steps[order[0]].matcher.Matches(stream[0].event.op, stream[0].ttps)
    ensures Auto(pid, {}) in Seeds(rules, |rules|, stream[0].event.op, stream[0].ttps)
  {
    hide StepMatch.Matches, Seeds;
    assert BitsBefore(rules[pid].steps, order, 0) == {};
    SeedsContain(rules, pid, order[0], |rules|, stream[0].event.op, stream[0].ttps);
  }

  lemma UnboundedLinks(lines: Lines<Mask>, a: Key, o: Key)
    ensures Link(UNBOUNDED, lines, a, o).Linked?
  {
  }

  // All steps fed: the automaton the first event seeded has exactly the pattern's bits, every one of them.
  lemma PatternCompletes(rules: Rules, pid: nat, order: seq<nat>, st: State<Mask>, stream: seq<Tagged>)
    requires pid < |rules| && Schedule(rules[pid].steps, order) && |order| == |stream| > 0
    requires Partition(st.lines) && Feeds(rules, pid, order, st, stream, |order|)
    ensures Followed(rules[pid].steps, stream, |stream|) == BitsOf(rules[pid].steps)
    ensures Holds(RunFrom(rules, st, stream, |stream|).lines, stream[0].event.actor, pid, BitsOf(rules[pid].steps))
  {
    hide Holds, OnEvent, Gated, StepMatch.Matches;
    assert order[0] < |rules[pid].steps|;
    ScheduleFacts(rules[pid].steps, order);
    FollowedCommits(rules[pid].steps, order, stream, |order|);
    FedInOrder(rules, pid, order, st, stream, |order|);
  }
}

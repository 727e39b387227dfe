/** Precedence graphs: which patterns the rule compiler accepts, and what one pass of the engine over the
    steps of an automaton commits. */
module PartialOrder {
  import opened Events
  import opened Multisets
  import opened DagSpec

  ghost predicate DistinctBits(steps: seq<DagStep>) {
    forall i, j | 0 <= i < j < |steps| :: steps[i].bit != steps[j].bit
  }

  ghost function BitsOf(steps: seq<DagStep>): Mask {
    set s | s in steps :: s.bit
  }

  // The bits of the first `n` steps of an order.
  ghost function BitsBefore(steps: seq<DagStep>, order: seq<nat>, n: nat): Mask
    requires n <= |order| && forall i | 0 <= i < |order| :: order[i] < |steps|
  {
    set i | 0 <= i < n :: steps[order[i]].bit
  }

  // Each listed step comes after its prerequisites; no step is listed twice.
  ghost predicate Listed(steps: seq<DagStep>, order: seq<nat>) {
    && (forall i | 0 <= i < |order| :: order[i] < |steps|)
    && (forall i, j | 0 <= i < j < |order| :: order[i] != order[j])
    && (forall i | 0 <= i < |order| :: steps[order[i]].prereq <= BitsBefore(steps, order, i))
  }

  ghost predicate Schedule(steps: seq<DagStep>, order: seq<nat>) {
    Listed(steps, order) && forall s | 0 <= s < |steps| :: s in order
  }

  ghost predicate Schedulable(steps: seq<DagStep>) {
    exists order :: Schedule(steps, order)
  }

  // ----- the compiler's check -----

  datatype DagError = DuplicateBit(bit: nat) | NoSteps | NoRoot | UndefinedPrereq(bit: nat) | Unreachable

  datatype Checked = Accepted(steps: seq<DagStep>) | Rejected(error: DagError)

  lemma ListedExtends(steps: seq<DagStep>, order: seq<nat>, s: nat)
    requires Listed(steps, order) && s < |steps| && s !in order
    requires steps[s].prereq <= BitsBefore(steps, order, |order|)
    ensures Listed(steps, order + [s])
    ensures BitsBefore(steps, order + [s], |order| + 1) == BitsBefore(steps, order, |order|) + {steps[s].bit}
  {
    var longer := order + [s];
    forall i | 0 <= i <= |order|
      ensures BitsBefore(steps, longer, i) == BitsBefore(steps, order, i)
    {
      assert forall j | 0 <= j < i :: longer[j] == order[j];
    }
    forall b | b in BitsBefore(steps, order, |order|) + {steps[s].bit}
      ensures b in BitsBefore(steps, longer, |order| + 1)
    {
      if b == steps[s].bit {
        assert longer[|order|] == s;
      } else {
        var i :| 0 <= i < |order| && steps[order[i]].bit == b;
        assert longer[i] == order[i];
      }
    }
  }

  // A set of bits no further step can be added to contains every schedule.
  lemma {:induction false} ScheduleReached(steps: seq<DagStep>, order: seq<nat>, reached: Mask, n: nat)
    requires Listed(steps, order) && n <= |order|
    requires forall s | s in steps && s.prereq <= reached :: s.bit in reached
    ensures BitsBefore(steps, order, n) <= reached
  {
    if n > 0 {
      ScheduleReached(steps, order, reached, n - 1);
      var s := steps[order[n - 1]];
      assert s in steps && s.prereq <= reached;
    }
  }

  lemma ScheduleFacts(steps: seq<DagStep>, order: seq<nat>)
    requires steps != [] && Schedule(steps, order)
    ensures BitsBefore(steps, order, |order|) == BitsOf(steps)
    ensures exists s | s in steps :: s.prereq == {}
    ensures forall s | s in steps :: s.prereq <= BitsOf(steps)
  {
    forall s | s in steps
      ensures s.bit in BitsBefore(steps, order, |order|) && s.prereq <= BitsOf(steps)
    {
      var i :| 0 <= i < |steps| && steps[i] == s;
      assert i in order;
      var k :| 0 <= k < |order| && order[k] == i;
      assert s.prereq <= BitsBefore(steps, order, k);
    }
    assert order != [] by {
      assert 0 in order;
    }
    assert steps[order[0]] in steps && BitsBefore(steps, order, 0) == {};
  }

  // With distinct bits, an order that reaches every bit lists every step.
  lemma AllBitsMeansAllSteps(steps: seq<DagStep>, order: seq<nat>)
    requires DistinctBits(steps) && Listed(steps, order) && BitsBefore(steps, order, |order|) == BitsOf(steps)
    ensures Schedule(steps, order)
  {
    forall s | 0 <= s < |steps|
      ensures s in order
    {
      assert steps[s].bit in BitsOf(steps);
      var i :| 0 <= i < |order| && steps[order[i]].bit == steps[s].bit;
      assert order[i] == s;
    }
  }

  // Reachability from the roots, as a fixpoint over the declared steps.
  method Reach(steps: seq<DagStep>) returns (reached: Mask, ghost order: seq<nat>)
    ensures Listed(steps, order) && reached == BitsBefore(steps, order, |order|)
    ensures forall s | s in steps && s.prereq <= reached :: s.bit in reached
  {
    reached, order := {}, [];
    var grew := true;
    while grew
      invariant Listed(steps, order) && reached == BitsBefore(steps, order, |order|)
      invariant !grew ==> forall s | s in steps && s.prereq <= reached :: s.bit in reached
      decreases |steps| - |order|, grew
    {
      grew := false;
      ghost var before := order;
      OrderFits(steps, order);
      for i := 0 to |steps|
        invariant Listed(steps, order) && reached == BitsBefore(steps, order, |order|)
        invariant |before| <= |order| && (grew ==> |before| < |order|)
        invariant !grew ==> order == before
        invariant !grew ==> forall k | 0 <= k < i && steps[k].prereq <= reached :: steps[k].bit in reached
      {
        if steps[i].bit !in reached && steps[i].prereq <= reached {
          ListedExtends(steps, order, i);
          reached := reached + {steps[i].bit};
          order := order + [i];
          grew := true;
        }
      }
      OrderFits(steps, order);
    }
  }

  lemma OrderFits(steps: seq<DagStep>, order: seq<nat>)
    requires Listed(steps, order)
    ensures |order| <= |steps|
  {
    var f := (i: nat) => if i < |order| then order[i] else 0;
    var values := set i | i in order;
    forall v | v in values
      ensures exists i | i in Below(|order|) :: f(i) == v
    {
      var i :| 0 <= i < |order| && order[i] == v;
      assert i in Below(|order|) && f(i) == v;
    }
    InjectiveImageSize(Below(|order|), f, values);
    RangeSize(values, |steps|);
  }

  // A finished pattern block. Accepted exactly when some order lists every step after its prerequisites.
  method ValidateDag(steps: seq<DagStep>) returns (r: Checked)
    requires DistinctBits(steps)
    ensures r.Accepted? ==> r.steps == steps
    ensures r.Accepted? <==> steps != [] && Schedulable(steps)
    ensures steps == [] ==> r == Rejected(NoSteps)
    ensures r == Rejected(NoSteps) ==> steps == []
    ensures r == Rejected(NoRoot) <==> steps != [] && forall s | s in steps :: s.prereq != {}
    ensures r == Rejected(Unreachable) ==> forall s | s in steps :: s.prereq <= BitsOf(steps)
    ensures r.Rejected? && r.error.UndefinedPrereq? ==>
      exists i | 0 <= i < |steps| :: steps[i].bit == r.error.bit && !(steps[i].prereq <= BitsOf(steps))
    ensures r.Rejected? ==> !r.error.DuplicateBit?
  {
    if steps == [] {
      return Rejected(NoSteps);
    }
    ghost var possible := Schedulable(steps);
    ghost var schedule: seq<nat> := [];
    if possible {
      schedule :| Schedule(steps, schedule);
      ScheduleFacts(steps, schedule);
    }
    var defined := set s | s in steps :: s.bit;
    if forall s | s in steps :: s.prereq != {} {
      return Rejected(NoRoot);
    }
    for i := 0 to |steps|
      invariant forall k | 0 <= k < i :: steps[k].prereq <= defined
    {
      if !(steps[i].prereq <= defined) {
        assert steps[i] in steps;
        return Rejected(UndefinedPrereq(steps[i].bit));
      }
    }
    var reached;
    ghost var order;
    reached, order := Reach(steps);
    if possible {
      ScheduleReached(steps, schedule, reached, |schedule|);
    }
    assert reached <= defined;
    if reached != defined {
      return Rejected(Unreachable);
    }
    AllBitsMeansAllSteps(steps, order);
    r := Accepted(steps);
  }

  // The steps of one `pattern .. end` block, in the order they were written.
  method CompilePattern(parsed: seq<DagStep>) returns (r: Checked)
    ensures r.Accepted? ==> r.steps == parsed
    ensures r.Accepted? <==> DistinctBits(parsed) && parsed != [] && Schedulable(parsed)
    ensures !DistinctBits(parsed) <==> r.Rejected? && r.error.DuplicateBit?
    ensures r.Rejected? && r.error.DuplicateBit? ==>
      exists i, j | 0 <= i < j < |parsed| :: parsed[i].bit == r.error.bit && parsed[j].bit == r.error.bit
  {
    var steps: seq<DagStep> := [];
    for i := 0 to |parsed|
      invariant steps == parsed[..i] && DistinctBits(steps)
    {
      if exists x | x in steps :: x.bit == parsed[i].bit {
        var k :| 0 <= k < i && parsed[k].bit == parsed[i].bit;
        return Rejected(DuplicateBit(parsed[i].bit));
      }
      steps := steps + [parsed[i]];
    }
    assert steps == parsed;
    r := ValidateDag(steps);
  }

  // ----- one pass over the steps -----

  // No matching step whose prerequisites hold is left uncommitted.
  ghost predicate Closed(steps: seq<DagStep>, op: Op, ttps: seq<Ttp>, m: Mask) {
    forall s | s in steps && s.matcher.Matches(op, ttps) && s.prereq <= m :: s.bit in m
  }

  ghost predicate LeastClosed(steps: seq<DagStep>, op: Op, ttps: seq<Ttp>, start: Mask, m: Mask) {
    && start <= m && Closed(steps, op, ttps, m)
    && forall x: Mask | start <= x && Closed(steps, op, ttps, x) :: m <= x
  }

  // Among the steps the event matches, none needs a bit of one declared after it.
  ghost predicate DeclaredInOrder(steps: seq<DagStep>, op: Op, ttps: seq<Ttp>) {
    forall i, j | 0 <= i < j < |steps| && steps[i].matcher.Matches(op, ttps) && steps[j].matcher.Matches(op, ttps) ::
      steps[j].bit !in steps[i].prereq
  }

  lemma {:induction false} PassWithin(steps: seq<DagStep>, n: nat, start: Mask, op: Op, ttps: seq<Ttp>, x: Mask)
    requires n <= |steps| && start <= x && Closed(steps, op, ttps, x)
    ensures start <= Pass(steps, n, start, op, ttps).done <= x
  {
    if n > 0 {
      PassWithin(steps, n - 1, start, op, ttps, x);
      assert steps[n - 1] in steps;
    }
  }

  // A bit committed between `k` and `n` belongs to a matching step declared there.
  lemma {:induction false} PassAdds(steps: seq<DagStep>, k: nat, n: nat, start: Mask, op: Op, ttps: seq<Ttp>)
    requires k <= n <= |steps|
    ensures Pass(steps, k, start, op, ttps).done <= Pass(steps, n, start, op, ttps).done
    ensures forall b | b in Pass(steps, n, start, op, ttps).done && b !in Pass(steps, k, start, op, ttps).done ::
      exists j | k <= j < n :: steps[j].bit == b && steps[j].matcher.Matches(op, ttps)
    decreases n
  {
    if k < n {
      PassAdds(steps, k, n - 1, start, op, ttps);
    }
  }

  lemma InOrderPassCloses(steps: seq<DagStep>, start: Mask, op: Op, ttps: seq<Ttp>)
    requires DeclaredInOrder(steps, op, ttps)
    ensures Closed(steps, op, ttps, Pass(steps, |steps|, start, op, ttps).done)
  {
    var end := Pass(steps, |steps|, start, op, ttps).done;
    forall s | s in steps && s.matcher.Matches(op, ttps) && s.prereq <= end
      ensures s.bit in end
    {
      var i :| 0 <= i < |steps| && steps[i] == s;
      PassAdds(steps, i, |steps|, start, op, ttps);
      PassAdds(steps, i + 1, |steps|, start, op, ttps);
      if s.bit !in end {
        assert false;
      }
    }
  }

  // ----- when the pass is the least fixpoint -----

  // In an accepted pattern no two steps need each other, and none needs itself.
  lemma NoShortCycle(steps: seq<DagStep>, order: seq<nat>, i: nat, j: nat)
    requires DistinctBits(steps) && Schedule(steps, order) && i < |steps| && j < |steps|
    requires steps[j].bit in steps[i].prereq
    ensures i != j && steps[i].bit !in steps[j].prereq
  {
    assert i in order && j in order;
    var a, b :| 0 <= a < |order| && 0 <= b < |order| && order[a] == i && order[b] == j;
    assert b < a by {
      var k :| 0 <= k < a && steps[order[k]].bit == steps[j].bit;
      assert order[k] == j;
    }
    if steps[i].bit in steps[j].prereq {
      assert false;
    }
  }

  // Every step but `i` and `j` done, and all that these two need of the others.
  ghost function AllBut(steps: seq<DagStep>, i: nat, j: nat): Mask
    requires i < |steps| && j < |steps|
  {
    (BitsOf(steps) + steps[i].prereq + steps[j].prereq) - {steps[i].bit, steps[j].bit}
  }

  // From such a state the earlier of the two is offered too early, and the pass never comes back to it.
  lemma {:induction false} PassMissesEarlier(steps: seq<DagStep>, i: nat, j: nat, n: nat, op: Op, ttps: seq<Ttp>)
    requires DistinctBits(steps) && i < j < |steps| && n <= |steps|
    requires steps[j].bit in steps[i].prereq && steps[j].bit !in steps[j].prereq && steps[i].bit !in steps[j].prereq
    requires steps[j].matcher.Matches(op, ttps)
    ensures Pass(steps, n, AllBut(steps, i, j), op, ttps).done
         == if n <= j then AllBut(steps, i, j) else AllBut(steps, i, j) + {steps[j].bit}
  {
    if n > 0 {
      PassMissesEarlier(steps, i, j, n - 1, op, ttps);
      var s := steps[n - 1];
      assert s.bit in BitsOf(steps);
      if n - 1 != i && n - 1 != j {
        assert s.bit in AllBut(steps, i, j);
      }
    }
  }

  // For an accepted pattern and one kind of event: the pass commits exactly the least closed set from
  // every progress if and only if the steps the event matches are declared in order.
  lemma OnePassIffDeclaredInOrder(steps: seq<DagStep>, op: Op, ttps: seq<Ttp>)
    requires DistinctBits(steps) && Schedulable(steps)
    ensures DeclaredInOrder(steps, op, ttps)
       <==> forall start: Mask :: LeastClosed(steps, op, ttps, start, Pass(steps, |steps|, start, op, ttps).done)
  {
    if DeclaredInOrder(steps, op, ttps) {
      forall start: Mask
        ensures LeastClosed(steps, op, ttps, start, Pass(steps, |steps|, start, op, ttps).done)
      {
        InOrderPassCloses(steps, start, op, ttps);
        PassAdds(steps, 0, |steps|, start, op, ttps);
        forall x: Mask | start <= x && Closed(steps, op, ttps, x)
          ensures Pass(steps, |steps|, start, op, ttps).done <= x
        {
          PassWithin(steps, |steps|, start, op, ttps, x);
        }
      }
    } else {
      var i, j :| 0 <= i < j < |steps| && steps[i].matcher.Matches(op, ttps) && steps[j].matcher.Matches(op, ttps)
        && steps[j].bit in steps[i].prereq;
      var order :| Schedule(steps, order);
      NoShortCycle(steps, order, i, j);
      if steps[j].bit in steps[j].prereq {
        NoShortCycle(steps, order, j, j);
      }
      if steps[i].bit in steps[i].prereq {
        NoShortCycle(steps, order, i, i);
      }
      PassMissesEarlier(steps, i, j, |steps|, op, ttps);
      var start := AllBut(steps, i, j);
      var end := Pass(steps, |steps|, start, op, ttps).done;
      assert steps[i] in steps && steps[i].prereq <= end && steps[i].bit !in end;
      assert !Closed(steps, op, ttps, end);
    }
  }
}

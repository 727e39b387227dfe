/** What a rule's author writes, read field by field: when a step fires, and what committed steps amount to.
    Everything here is in terms of the rule text alone, so that the engines' answers can be stated in it. */
module StepMeaning {
  import opened Events
  import opened Storylines

  // The operations as the bits of a mask.
  ghost predicate Names(ops: set<nat>, op: Op) {
    || (op == Exec && 0 in ops) || (op == Create && 1 in ops) || (op == Write && 2 in ops) || (op == Read && 3 in ops)
    || (op == Open && 4 in ops) || (op == Connect && 5 in ops) || (op == Inject && 6 in ops) || (op == Dup && 7 in ops)
  }

  // The event's operation is among those listed, or none is listed; and every technique listed is present.
  ghost predicate Fires(m: StepMatch, op: Op, present: seq<Ttp>) {
    && (m.ops == {} || Names(m.ops, op))
    && forall t | t in m.ttps :: exists i | 0 <= i < |present| :: present[i] == t
  }

  lemma NamesIs(ops: set<nat>, op: Op)
    ensures Contains(ops, op) <==> Names(ops, op)
  {
  }

  lemma FiresIs(m: StepMatch, op: Op, present: seq<Ttp>)
    ensures m.Matches(op, present) <==> Fires(m, op, present)
  {
    NamesIs(m.ops, op);
  }

  // The actor has lost the operation.
  ghost predicate Stripped(disarmed: map<Key, OpSet>, actor: Key, op: Op) {
    actor in disarmed && Names(disarmed[actor], op)
  }

  lemma StrippedIs(disarmed: map<Key, OpSet>, actor: Key, op: Op)
    ensures Gated(disarmed, actor, op) <==> Stripped(disarmed, actor, op)
  {
    if actor in disarmed {
      NamesIs(disarmed[actor], op);
    }
  }

  // ----- what the actions of the committed steps amount to -----

  type Actions = set<Option<Action>>

  ghost predicate SomeDisarm(acts: Actions) {
    exists a | a in acts :: a.Some? && a.value.Disarm?
  }

  ghost predicate DisarmedOf(acts: Actions, bit: nat) {
    exists a | a in acts :: a.Some? && a.value.Disarm? && bit in a.value.ops
  }

  // Disarmed if any step disarms, else Blocked if any blocks, else Inspect if any committed at all.
  ghost predicate RightVerdict(v: Verdict, acts: Actions) {
    && (v == Disarmed <==> SomeDisarm(acts))
    && (v == Blocked <==> !SomeDisarm(acts) && Some(Block) in acts)
    && (v == Inspect <==> !SomeDisarm(acts) && Some(Block) !in acts && None in acts)
    && (v == Ignore <==> acts == {})
  }

  ghost predicate Fits(limit: Limit, count: nat) {
    limit == NoLimit || count <= limit.n
  }

  // The actor loses what the committed steps strip, on top of what it had lost; nobody else does. An actor
  // for whom the table has no room keeps everything.
  ghost predicate RightDisarm(room: Limit, d: map<Key, OpSet>, d': map<Key, OpSet>, actor: Key, acts: Actions) {
    if !SomeDisarm(acts) || (actor !in d && !Fits(room, |d| + 1)) then d' == d
    else && d'.Keys == d.Keys + {actor} && (forall k | k in d && k != actor :: d'[k] == d[k])
         && forall bit: nat :: bit in d'[actor] <==> (actor in d && bit in d[actor]) || DisarmedOf(acts, bit)
  }

  // ----- the effect the engines carry is that -----

  ghost predicate Sums(eff: Effect, acts: Actions) {
    RightVerdict(eff.verdict, acts) && forall bit: nat :: bit in eff.ops <==> DisarmedOf(acts, bit)
  }

  lemma SumsNone()
    ensures Sums(NOTHING, {})
  {
  }

  lemma SumsOne(a: Option<Action>)
    ensures Sums(ApplyEffect(a), {a})
  {
    assert a in {a};
  }

  lemma SumsBoth(x: Effect, y: Effect, xs: Actions, ys: Actions)
    requires Sums(x, xs) && Sums(y, ys)
    ensures Sums(x.Join(y), xs + ys)
  {
    assert SomeDisarm(xs + ys) <==> SomeDisarm(xs) || SomeDisarm(ys);
    assert forall bit: nat :: DisarmedOf(xs + ys, bit) <==> DisarmedOf(xs, bit) || DisarmedOf(ys, bit);
  }

  lemma SumsDisarm(caps: Caps, d: map<Key, OpSet>, actor: Key, eff: Effect, acts: Actions)
    requires Sums(eff, acts)
    ensures RightDisarm(caps.disarmed, d, DisarmActor(caps, d, actor, eff), actor, acts)
  {
  }
}

/** What every engine version keeps, whatever containers hold it: which known keys share a storyline,
    the automata of each storyline as a multiset, and the operations each actor has been stripped of.
    The ceilings of the fixed-capacity engine are a parameter, so one definition is the reference for
    both the unbounded and the bounded engines. */
module Storylines {
  import opened Events

  datatype Limit = NoLimit | AtMost(n: nat) {
    predicate Admits(count: nat) {
      NoLimit? || count <= n
    }
  }

  datatype Caps = Caps(entities: Limit, lines: Limit, members: Limit, automata: Limit, disarmed: Limit)

  const UNBOUNDED := Caps(NoLimit, NoLimit, NoLimit, NoLimit, NoLimit)

  // An automaton together with the index of the pattern it is matching.
  datatype Auto<+A> = Auto(pid: nat, progress: A)

  datatype Story<A(==)> = Story(members: set<Key>, autos: multiset<Auto<A>>, last: nat)

  // Each known key is mapped to the storyline it belongs to.
  type Lines<A(==)> = map<Key, Story<A>>

  datatype State<A(==)> = State(lines: Lines<A>, disarmed: map<Key, OpSet>)

  ghost predicate Partition<A>(lines: Lines<A>) {
    && (forall k | k in lines :: k in lines[k].members)
    && (forall k, j | k in lines && j in lines[k].members :: j in lines && lines[j] == lines[k])
  }

  predicate Gated(disarmed: map<Key, OpSet>, actor: Key, op: Op) {
    actor in disarmed && Contains(disarmed[actor], op)
  }

  function Max(a: nat, b: nat): nat {
    if a >= b then a else b
  }

  ghost function Resolve<A>(caps: Caps, lines: Lines<A>, k: Key): Option<Lines<A>> {
    if k in lines then Some(lines)
    else if caps.entities.Admits(|lines| + 1) && caps.lines.Admits(|lines.Values| + 1) then
      Some(lines[k := Story({k}, multiset{}, 0)])
    else None
  }

  // With no ceiling every lookup succeeds.
  ghost function Resolved<A>(lines: Lines<A>, k: Key): Lines<A> {
    if k in lines then lines else lines[k := Story({k}, multiset{}, 0)]
  }

  lemma AlwaysResolves<A>(lines: Lines<A>, k: Key)
    ensures Resolve(UNBOUNDED, lines, k) == Some(Resolved(lines, k)) && k in Resolved(lines, k)
  {
  }

  ghost function Union<A>(x: Story<A>, y: Story<A>): Story<A> {
    Story(x.members + y.members, x.autos + y.autos, Max(x.last, y.last))
  }

  lemma UnionCommutes<A>(x: Story<A>, y: Story<A>)
    ensures Union(x, y) == Union(y, x)
  {
  }

  // Every key of `s` now belongs to storyline `s`.
  ghost function Install<A>(lines: Lines<A>, s: Story<A>): Lines<A> {
    map k | k in lines :: if k in s.members then s else lines[k]
  }

  ghost predicate MergeFits<A>(caps: Caps, x: Story<A>, y: Story<A>) {
    caps.members.Admits(|x.members| + |y.members|) && caps.automata.Admits(|x.autos| + |y.autos|)
  }

  ghost function Merge<A>(caps: Caps, lines: Lines<A>, a: Key, o: Key): Lines<A>
    requires a in lines && o in lines
  {
    if o in lines[a].members || !MergeFits(caps, lines[a], lines[o]) then lines
    else Install(lines, Union(lines[a], lines[o]))
  }

  lemma MergeWithin<A>(caps: Caps, lines: Lines<A>, a: Key, o: Key)
    requires a in lines && o in lines && o in lines[a].members
    ensures Merge(caps, lines, a, o) == lines
  {
  }

  lemma MergeApart<A>(caps: Caps, lines: Lines<A>, a: Key, o: Key)
    requires a in lines && o in lines && o !in lines[a].members
    ensures Merge(caps, lines, a, o) ==
      if MergeFits(caps, lines[a], lines[o]) then Install(lines, Union(lines[a], lines[o])) else lines
  {
  }

  ghost function DisarmActor(caps: Caps, disarmed: map<Key, OpSet>, actor: Key, eff: Effect): map<Key, OpSet> {
    if eff.verdict != Disarmed then disarmed
    else if actor in disarmed then disarmed[actor := disarmed[actor] + eff.ops]
    else if caps.disarmed.Admits(|disarmed| + 1) then disarmed[actor := eff.ops]
    else disarmed
  }

  // An effect that strips operations is the effect of a disarm.
  predicate Honest(eff: Effect) {
    eff.verdict != Disarmed ==> eff.ops == {}
  }

  lemma DisarmTwice(caps: Caps, disarmed: map<Key, OpSet>, actor: Key, e1: Effect, e2: Effect)
    requires Honest(e1) && Honest(e2)
    ensures DisarmActor(caps, DisarmActor(caps, disarmed, actor, e1), actor, e2)
         == DisarmActor(caps, disarmed, actor, e1.Join(e2))
    ensures Honest(e1.Join(e2))
  {
    if e1.verdict == Disarmed && e2.verdict == Disarmed {
      if actor in disarmed {
        assert (disarmed[actor] + e1.ops) + e2.ops == disarmed[actor] + (e1.ops + e2.ops);
        assert DisarmActor(caps, disarmed, actor, e1) == disarmed[actor := disarmed[actor] + e1.ops];
      }
    } else if e1.verdict == Disarmed {
      assert e1.Join(e2) == e1;
    } else {
      assert DisarmActor(caps, disarmed, actor, e1) == disarmed;
      if e2.verdict == Disarmed {
        assert e1.Join(e2) == e2;
      }
    }
  }

  lemma DisarmNothing(caps: Caps, disarmed: map<Key, OpSet>, actor: Key)
    ensures DisarmActor(caps, disarmed, actor, NOTHING) == disarmed
  {
  }

  // ----- the partition is kept -----

  lemma KnownStays<A>(caps: Caps, lines: Lines<A>, k: Key, known: Key)
    requires Resolve(caps, lines, k).Some? && known in lines
    ensures known in Resolve(caps, lines, k).value && k in Resolve(caps, lines, k).value
    ensures k in lines ==> Resolve(caps, lines, k).value == lines
    ensures known != k ==> Resolve(caps, lines, k).value[known] == lines[known]
  {
  }

  lemma ResolveKeepsPartition<A>(caps: Caps, lines: Lines<A>, k: Key)
    requires Partition(lines) && Resolve(caps, lines, k).Some?
    ensures Partition(Resolve(caps, lines, k).value) && k in Resolve(caps, lines, k).value
  {
  }

  lemma InstallKeepsPartition<A>(lines: Lines<A>, s: Story<A>)
    requires Partition(lines)
    requires s.members <= lines.Keys
    requires forall k | k in s.members :: lines[k].members <= s.members
    ensures Partition(Install(lines, s))
  {
    var r := Install(lines, s);
    forall k, j | k in r && j in r[k].members
      ensures j in r && r[j] == r[k]
    {
      if k !in s.members && j in s.members {
        assert false;
      }
    }
  }

  lemma MergeKeepsPartition<A>(caps: Caps, lines: Lines<A>, a: Key, o: Key)
    requires Partition(lines) && a in lines && o in lines
    ensures Partition(Merge(caps, lines, a, o))
    ensures Merge(caps, lines, a, o).Keys == lines.Keys
  {
    var s := Union(lines[a], lines[o]);
    forall k | k in s.members
      ensures k in lines && lines[k].members <= s.members
    {
    }
    InstallKeepsPartition(lines, s);
  }

  // ----- linking the two endpoints of an event -----

  // The storylines once both endpoints are known, or the storylines at the first failed lookup.
  datatype Linked<A(==)> = Linked(lines: Lines<A>) | Full(lines: Lines<A>)

  ghost function Link<A>(caps: Caps, lines: Lines<A>, a: Key, o: Key): Linked<A> {
    match Resolve(caps, lines, a)
    case None => Full(lines)
    case Some(l1) =>
      match Resolve(caps, l1, o)
      case None => Full(l1)
      case Some(l2) => Linked(Merge(caps, l2, a, o))
  }

  lemma LinkedBy<A>(caps: Caps, lines: Lines<A>, l1: Lines<A>, l2: Lines<A>, a: Key, o: Key)
    requires Resolve(caps, lines, a) == Some(l1) && Resolve(caps, l1, o) == Some(l2) && a in l2 && o in l2
    ensures Link(caps, lines, a, o) == Linked(Merge(caps, l2, a, o))
  {
    hide Resolve, Merge;
  }

  lemma LinkFull<A>(caps: Caps, lines: Lines<A>, a: Key, o: Key)
    ensures Resolve(caps, lines, a).None? ==> Link(caps, lines, a, o) == Full(lines)
    ensures Resolve(caps, lines, a).Some? && Resolve(caps, Resolve(caps, lines, a).value, o).None? ==>
      Link(caps, lines, a, o) == Full(Resolve(caps, lines, a).value)
  {
    hide Resolve;
  }

  lemma LinkKeepsPartition<A>(caps: Caps, lines: Lines<A>, a: Key, o: Key)
    requires Partition(lines)
    ensures Partition(Link(caps, lines, a, o).lines)
    ensures Link(caps, lines, a, o).Linked? ==> a in Link(caps, lines, a, o).lines && o in Link(caps, lines, a, o).lines
  {
    if Resolve(caps, lines, a).Some? {
      ResolveKeepsPartition(caps, lines, a);
      var l1 := Resolve(caps, lines, a).value;
      if Resolve(caps, l1, o).Some? {
        ResolveKeepsPartition(caps, l1, o);
        MergeKeepsPartition(caps, Resolve(caps, l1, o).value, a, o);
      }
    }
  }
}

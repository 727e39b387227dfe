/** What linking the two ends of an event does to the storylines, spelled out key by key. */
module LinkMeaning {
  import opened Events
  import opened Storylines
  import opened StepMeaning

  // The storyline of `k`; an unknown key is alone in a new one.
  ghost function Of<A>(lines: Lines<A>, k: Key): Story<A> {
    if k in lines then lines[k] else Story({k}, multiset{}, 0)
  }

  // Members and automata of both, the later activity.
  ghost predicate Together<A>(s: Story<A>, x: Story<A>, y: Story<A>) {
    && (forall k :: k in s.members <==> k in x.members || k in y.members)
    && s.autos == x.autos + y.autos
    && s.last >= x.last && s.last >= y.last && (s.last == x.last || s.last == y.last)
  }

  // Room for one more key, which takes an entity slot and a storyline.
  ghost predicate Room<A>(caps: Caps, lines: Lines<A>, k: Key) {
    k in lines || (Fits(caps.entities, |lines| + 1) && Fits(caps.lines, |lines.Values| + 1))
  }

  ghost predicate Joins<A>(caps: Caps, x: Story<A>, y: Story<A>, o: Key) {
    && o !in x.members
    && Fits(caps.members, |x.members| + |y.members|) && Fits(caps.automata, |x.autos| + |y.autos|)
  }

  // Both keys are known afterwards. Their storylines are one if they were, or if the sums fit; every other
  // storyline is as before.
  ghost predicate RightLink<A>(caps: Caps, lines: Lines<A>, a: Key, o: Key, lines': Lines<A>) {
    var both := Of(lines, a).members + Of(lines, o).members;
    && lines'.Keys == lines.Keys + {a, o}
    && if Joins(caps, Of(lines, a), Of(lines, o), o) then
         && (forall k | k in lines' && k in both :: Together(lines'[k], Of(lines, a), Of(lines, o)))
         && (forall k | k in lines' && k !in both :: lines'[k] == Of(lines, k))
       else forall k | k in lines' :: lines'[k] == Of(lines, k)
  }

  lemma ResolveIsRight<A>(caps: Caps, lines: Lines<A>, k: Key)
    ensures Resolve(caps, lines, k) == if Room(caps, lines, k) then Some(Resolved(lines, k)) else None
    ensures forall j :: Of(Resolved(lines, k), j) == Of(lines, j)
    ensures Resolved(lines, k).Keys == lines.Keys + {k}
  {
  }

  // The first lookup that finds no room ends the event there.
  ghost predicate RightLookups<A>(caps: Caps, lines: Lines<A>, a: Key, o: Key, r: Linked<A>) {
    match r
    case Linked(lines') =>
      Room(caps, lines, a) && Room(caps, Resolved(lines, a), o) && RightLink(caps, lines, a, o, lines')
    case Full(lines') =>
      if Room(caps, lines, a) then !Room(caps, Resolved(lines, a), o) && lines' == Resolved(lines, a)
      else lines' == lines
  }

  lemma LinkIsRight<A>(caps: Caps, lines: Lines<A>, a: Key, o: Key)
    ensures RightLookups(caps, lines, a, o, Link(caps, lines, a, o))
  {
    hide Resolve, Resolved, Room, Merge, Link, RightLink, Of;
    var l1 := Resolved(lines, a);
    var l2 := Resolved(l1, o);
    ResolveIsRight(caps, lines, a);
    ResolveIsRight(caps, l1, o);
    LinkFull(caps, lines, a, o);
    if Room(caps, lines, a) && Room(caps, l1, o) {
      assert a in l2 && o in l2;
      LinkedBy(caps, lines, l1, l2, a, o);
      MergeIsRight(caps, l2, a, o);
      SameOf(caps, lines, l2, a, o, Merge(caps, l2, a, o));
    }
  }

  lemma SameOf<A>(caps: Caps, lines: Lines<A>, l2: Lines<A>, a: Key, o: Key, lines': Lines<A>)
    requires (forall j :: Of(l2, j) == Of(lines, j)) && l2.Keys == lines.Keys + {a, o}
    requires RightLink(caps, l2, a, o, lines')
    ensures RightLink(caps, lines, a, o, lines')
  {
    hide Of, Together, Joins;
  }

  lemma MergeIsRight<A>(caps: Caps, lines: Lines<A>, a: Key, o: Key)
    requires a in lines && o in lines
    ensures RightLink(caps, lines, a, o, Merge(caps, lines, a, o))
  {
    hide Partition;
  }
}

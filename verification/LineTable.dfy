/** A storyline table: `line` maps each known key to a slot, a live slot holds the storyline of exactly
    the keys mapped to it, a freed slot holds nothing. Slot numbers do not show in the view. */
module LineTable {
  import opened Events
  import opened Multisets
  import opened Storylines

  type Slots<A(==)> = seq<Option<Story<A>>>

  ghost predicate Live<A>(slots: Slots<A>, i: int) {
    0 <= i < |slots| && slots[i].Some?
  }

  ghost predicate InSlot<A>(slots: Slots<A>, i: int, k: Key) {
    Live(slots, i) && k in slots[i].value.members
  }

  ghost predicate Consistent<A>(line: map<Key, nat>, slots: Slots<A>) {
    && (forall k | k in line :: InSlot(slots, line[k], k))
    && (forall i: nat, k | InSlot(slots, i, k) :: k in line && line[k] == i)
  }

  ghost function View<A>(line: map<Key, nat>, slots: Slots<A>): Lines<A>
    requires Consistent(line, slots)
  {
    map k | k in line :: slots[line[k]].value
  }

  lemma ViewKeys<A>(line: map<Key, nat>, slots: Slots<A>)
    requires Consistent(line, slots)
    ensures View(line, slots).Keys == line.Keys && |View(line, slots)| == |line|
  {
    assert View(line, slots).Keys == line.Keys;
  }

  lemma ViewPartition<A>(line: map<Key, nat>, slots: Slots<A>)
    requires Consistent(line, slots)
    ensures Partition(View(line, slots))
  {
    forall k, j | k in line && j in View(line, slots)[k].members
      ensures j in line && View(line, slots)[j] == View(line, slots)[k]
    {
      assert InSlot(slots, line[k], k);
      assert InSlot(slots, line[k], j);
    }
    forall k | k in line
      ensures k in View(line, slots)[k].members
    {
      assert InSlot(slots, line[k], k);
    }
  }

  lemma EmptyView<A>(slots: Slots<A>)
    requires Consistent(map[], slots)
    ensures View(map[], slots) == map[]
  {
  }

  lemma MembersKnown<A>(line: map<Key, nat>, slots: Slots<A>, i: nat)
    requires Consistent(line, slots) && Live(slots, i)
    ensures slots[i].value.members <= line.Keys
  {
    forall k | k in slots[i].value.members
      ensures k in line
    {
      assert InSlot(slots, i, k);
    }
  }

  // Two keys are in one slot exactly when they are in one storyline.
  lemma SameSlot<A>(line: map<Key, nat>, slots: Slots<A>, a: Key, o: Key)
    requires Consistent(line, slots) && a in line && o in line
    ensures Live(slots, line[a]) && View(line, slots)[a] == slots[line[a]].value
    ensures Live(slots, line[o]) && View(line, slots)[o] == slots[line[o]].value
    ensures o in View(line, slots)[a].members <==> line[a] == line[o]
  {
    assert InSlot(slots, line[a], a) && InSlot(slots, line[o], o);
    if o in View(line, slots)[a].members {
      assert InSlot(slots, line[a], o);
    }
  }

  // A fresh key takes slot `i`, which was not live.
  lemma ViewOfNewLine<A>(line: map<Key, nat>, slots: Slots<A>, slots': Slots<A>, key: Key, i: nat)
    requires Consistent(line, slots) && key !in line && !Live(slots, i)
    requires i < |slots'| && slots'[i] == Some(Story({key}, multiset{}, 0))
    requires forall j: nat | j != i :: Live(slots', j) == Live(slots, j) && (Live(slots, j) ==> slots'[j] == slots[j])
    ensures Consistent(line[key := i], slots')
    ensures View(line[key := i], slots') == View(line, slots)[key := Story({key}, multiset{}, 0)]
  {
    forall k | k in line
      ensures line[k] != i && InSlot(slots', line[k], k) && slots'[line[k]] == slots[line[k]]
    {
      assert InSlot(slots, line[k], k);
    }
    forall j: nat, k | InSlot(slots', j, k)
      ensures k in line[key := i] && line[key := i][k] == j
    {
      if j != i {
        assert InSlot(slots, j, k);
      }
    }
  }

  // Slot `i` is rewritten, its members kept.
  lemma ViewOfUpdate<A>(line: map<Key, nat>, slots: Slots<A>, i: nat, s: Story<A>)
    requires Consistent(line, slots) && Live(slots, i) && s.members == slots[i].value.members
    ensures Consistent(line, slots[i := Some(s)])
    ensures View(line, slots[i := Some(s)]) == Install(View(line, slots), s)
  {
    var slots' := slots[i := Some(s)];
    assert forall j: nat, k :: InSlot(slots', j, k) <==> InSlot(slots, j, k);
    forall k | k in line
      ensures k in s.members <==> line[k] == i
    {
      assert k in s.members <==> InSlot(slots, i, k);
    }
  }

  ghost function Redirected(line: map<Key, nat>, moved: set<Key>, dst: nat): map<Key, nat> {
    map k | k in line :: if k in moved then dst else line[k]
  }

  ghost function MergedSlots<A>(slots: Slots<A>, src: nat, dst: nat): Slots<A>
    requires Live(slots, src) && Live(slots, dst)
  {
    slots[src := None][dst := Some(Union(slots[dst].value, slots[src].value))]
  }

  // Slot `src` is emptied into slot `dst`.
  lemma ViewOfMerge<A>(line: map<Key, nat>, slots: Slots<A>, src: nat, dst: nat)
    requires Consistent(line, slots) && Live(slots, src) && Live(slots, dst) && src != dst
    ensures var s := Union(slots[dst].value, slots[src].value);
      var line', slots' := Redirected(line, slots[src].value.members, dst), slots[src := None][dst := Some(s)];
      && Consistent(line', slots')
      && View(line', slots') == Install(View(line, slots), s)
  {
    MergedConsistent(line, slots, src, dst);
    var s := Union(slots[dst].value, slots[src].value);
    var line', slots' := Redirected(line, slots[src].value.members, dst), MergedSlots(slots, src, dst);
    hide Consistent;
    forall k | k in line
      ensures View(line', slots')[k] == if k in s.members then s else View(line, slots)[k]
    {
      Whose(line, slots, src, dst, k);
    }
  }

  // The keys of the two slots are the members of their union.
  lemma Whose<A>(line: map<Key, nat>, slots: Slots<A>, src: nat, dst: nat, k: Key)
    requires Consistent(line, slots) && Live(slots, src) && Live(slots, dst) && k in line
    ensures Live(slots, line[k])
    ensures k in slots[src].value.members <==> line[k] == src
    ensures k in slots[dst].value.members <==> line[k] == dst
  {
    assert InSlot(slots, line[k], k);
    assert k in slots[src].value.members <==> InSlot(slots, src, k);
    assert k in slots[dst].value.members <==> InSlot(slots, dst, k);
  }

  // A slot of the merged table holds what it held, `dst` also what `src` held.
  lemma MergedHolds<A>(slots: Slots<A>, src: nat, dst: nat, j: nat, k: Key)
    requires Live(slots, src) && Live(slots, dst) && src != dst
    ensures InSlot(MergedSlots(slots, src, dst), j, k)
      <==> j != src && (InSlot(slots, j, k) || (j == dst && InSlot(slots, src, k)))
  {
  }

  lemma MergedConsistent<A>(line: map<Key, nat>, slots: Slots<A>, src: nat, dst: nat)
    requires Consistent(line, slots) && Live(slots, src) && Live(slots, dst) && src != dst
    ensures Consistent(Redirected(line, slots[src].value.members, dst), MergedSlots(slots, src, dst))
  {
    var line', slots' := Redirected(line, slots[src].value.members, dst), MergedSlots(slots, src, dst);
    hide MergedSlots;
    forall k | k in line
      ensures InSlot(slots', line'[k], k)
    {
      Whose(line, slots, src, dst, k);
      MergedHolds(slots, src, dst, line'[k], k);
    }
    forall j: nat, k | InSlot(slots', j, k)
      ensures k in line && line'[k] == j
    {
      MergedHolds(slots, src, dst, j, k);
      assert InSlot(slots, j, k) || InSlot(slots, src, k);
      Whose(line, slots, src, dst, k);
    }
  }

  ghost function LiveSlots<A>(slots: Slots<A>): set<nat> {
    set i: nat | i < |slots| && slots[i].Some?
  }

  // As many storylines as live slots, when no live slot is empty.
  lemma LiveSlotCount<A>(line: map<Key, nat>, slots: Slots<A>)
    requires Consistent(line, slots)
    requires forall i | Live(slots, i) :: slots[i].value.members != {}
    ensures |LiveSlots(slots)| == |View(line, slots).Values|
  {
    var v := View(line, slots);
    var f := (i: nat) => if i < |slots| && slots[i].Some? then slots[i].value else Story({}, multiset{}, 0);
    forall i, j | i in LiveSlots(slots) && j in LiveSlots(slots) && f(i) == f(j)
      ensures i == j
    {
      var k :| k in slots[i].value.members;
      assert InSlot(slots, i, k) && InSlot(slots, j, k);
    }
    forall i | i in LiveSlots(slots)
      ensures f(i) in v.Values
    {
      assert Live(slots, i);
      var k :| k in slots[i].value.members;
      assert InSlot(slots, i, k);
      assert v[k] == f(i);
    }
    forall s | s in v.Values
      ensures exists i | i in LiveSlots(slots) :: f(i) == s
    {
      var k :| k in v && v[k] == s;
      assert InSlot(slots, line[k], k);
      assert line[k] in LiveSlots(slots) && f(line[k]) == s;
    }
    InjectiveImageSize(LiveSlots(slots), f, v.Values);
  }
}

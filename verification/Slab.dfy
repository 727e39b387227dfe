/** The kernel engine's storyline slab as values: fixed-size member and automaton lists with counters,
    read as a storyline table. */
module Slab {
  import opened Events
  import opened Multisets
  import opened Storylines
  import opened LineTable

  // A storyline record; only the first `nMembers` and `nAuto` entries of its lists are meaningful.
  datatype Line = Line(used: bool, nMembers: nat, members: seq<nat>,
                       nAuto: nat, autoPid: seq<nat>, autoDone: seq<Mask>, last: nat)

  datatype Shape = Shape(members: nat, automata: nat, patterns: nat)

  ghost predicate LineFits(l: Line, s: Shape) {
    && |l.members| == s.members && |l.autoPid| == |l.autoDone| == s.automata
    && l.nMembers <= s.members && l.nAuto <= s.automata
    && (l.used <==> l.nMembers > 0)
    && (!l.used ==> l.nAuto == 0)
    && (forall j | 0 <= j < l.nAuto :: l.autoPid[j] < s.patterns)
  }

  // The member list names used entity slots, each at most once.
  ghost predicate MembersUsed(l: Line, keyAt: map<nat, Key>)
    requires l.nMembers <= |l.members|
  {
    && (forall j | 0 <= j < l.nMembers :: l.members[j] in keyAt)
    && (forall i, j | 0 <= i < j < l.nMembers :: l.members[i] != l.members[j])
  }

  ghost predicate LineOk(l: Line, s: Shape, keyAt: map<nat, Key>) {
    LineFits(l, s) && MembersUsed(l, keyAt)
  }

  ghost predicate SlabOk(lines: seq<Line>, s: Shape, keyAt: map<nat, Key>) {
    forall i | 0 <= i < |lines| :: LineOk(lines[i], s, keyAt)
  }

  function KeyIn(keyAt: map<nat, Key>, i: nat): Key {
    if i in keyAt then keyAt[i] else 0
  }

  ghost function MembersOf(l: Line, keyAt: map<nat, Key>): set<Key>
    requires l.nMembers <= |l.members|
  {
    set j | 0 <= j < l.nMembers :: KeyIn(keyAt, l.members[j])
  }

  ghost function AutosOf(l: Line): (r: seq<Auto<Mask>>)
    requires l.nAuto <= |l.autoPid| == |l.autoDone|
    ensures |r| == l.nAuto
  {
    seq(l.nAuto, j requires 0 <= j < l.nAuto => Auto(l.autoPid[j], l.autoDone[j]))
  }

  ghost function StoryAt(l: Line, keyAt: map<nat, Key>): Story<Mask>
    requires l.nMembers <= |l.members| && l.nAuto <= |l.autoPid| == |l.autoDone|
  {
    Story(MembersOf(l, keyAt), multiset(AutosOf(l)), l.last)
  }

  ghost function SlotsOf(lines: seq<Line>, s: Shape, keyAt: map<nat, Key>): Slots<Mask>
    requires SlabOk(lines, s, keyAt)
  {
    seq(|lines|, i requires 0 <= i < |lines| => if lines[i].used then Some(StoryAt(lines[i], keyAt)) else None)
  }

  // A member list holds as many keys as its counter says.
  lemma MembersCount(l: Line, s: Shape, keyAt: map<nat, Key>)
    requires LineOk(l, s, keyAt) && forall i, j | i in keyAt && j in keyAt && keyAt[i] == keyAt[j] :: i == j
    ensures |MembersOf(l, keyAt)| == l.nMembers
  {
    var positions := Below(l.nMembers);
    var f := (j: nat) => if j < |l.members| then KeyIn(keyAt, l.members[j]) else 0;
    forall i, j | i in positions && j in positions && f(i) == f(j)
      ensures i == j
    {
      assert l.members[i] == l.members[j];
    }
    forall k | k in MembersOf(l, keyAt)
      ensures exists j | j in positions :: f(j) == k
    {
      var j :| 0 <= j < l.nMembers && KeyIn(keyAt, l.members[j]) == k;
      assert j in positions && f(j) == k;
    }
    InjectiveImageSize(positions, f, MembersOf(l, keyAt));
  }

  // A storyline can be allocated exactly when the view has fewer storylines than the slab has records.
  lemma FreeRecordCount(lines: seq<Line>, s: Shape, keyAt: map<nat, Key>, line: map<Key, nat>)
    requires SlabOk(lines, s, keyAt) && Consistent(line, SlotsOf(lines, s, keyAt))
    ensures var n := |View(line, SlotsOf(lines, s, keyAt)).Values|;
      n <= |lines| && (n == |lines| <==> forall i | 0 <= i < |lines| :: lines[i].used)
  {
    hide AutosOf;
    var slots := SlotsOf(lines, s, keyAt);
    forall i | Live(slots, i)
      ensures slots[i].value.members != {}
    {
      assert KeyIn(keyAt, lines[i].members[0]) in MembersOf(lines[i], keyAt);
    }
    LiveSlotCount(line, slots);
    RangeSize(LiveSlots(slots), |lines|);
    assert forall i: nat | i < |lines| :: i in LiveSlots(slots) <==> lines[i].used;
  }

  // Writing a key into a free entity slot shows in no member list.
  lemma PutKeepsMembers(l: Line, s: Shape, keyAt: map<nat, Key>, slot: nat, key: Key)
    requires LineOk(l, s, keyAt) && slot !in keyAt
    ensures LineOk(l, s, keyAt[slot := key])
    ensures StoryAt(l, keyAt[slot := key]) == StoryAt(l, keyAt)
  {
    assert forall j | 0 <= j < l.nMembers :: KeyIn(keyAt[slot := key], l.members[j]) == KeyIn(keyAt, l.members[j]);
  }

  // A record reset for the fresh entity in `slot`.
  ghost predicate FreshLine(l: Line, s: Shape, slot: nat) {
    LineFits(l, s) && l.used && l.nMembers == 1 && l.members[0] == slot && l.nAuto == 0 && l.last == 0
  }

  lemma FreshStoryAt(l: Line, s: Shape, keyAt: map<nat, Key>, slot: nat)
    requires FreshLine(l, s, slot)
    ensures StoryAt(l, keyAt) == Story({KeyIn(keyAt, slot)}, multiset{}, 0)
  {
    assert MembersOf(l, keyAt) == {KeyIn(keyAt, l.members[0])};
  }

  // The slab after the fresh key took entity slot `slot` and storyline record `i`.
  lemma SlotsOfNewLine(lines: seq<Line>, s: Shape, keyAt: map<nat, Key>, line: map<Key, nat>,
                       slot: nat, key: Key, i: nat, l: Line)
    requires SlabOk(lines, s, keyAt) && Consistent(line, SlotsOf(lines, s, keyAt))
    requires slot !in keyAt && key !in line
    requires i < |lines| && !lines[i].used && FreshLine(l, s, slot)
    ensures SlabOk(lines[i := l], s, keyAt[slot := key])
    ensures var slots' := SlotsOf(lines[i := l], s, keyAt[slot := key]);
      && Consistent(line[key := i], slots')
      && View(line[key := i], slots') == View(line, SlotsOf(lines, s, keyAt))[key := Story({key}, multiset{}, 0)]
  {
    hide AutosOf, MembersOf;
    var lines', keyAt' := lines[i := l], keyAt[slot := key];
    forall j | 0 <= j < |lines|
      ensures LineOk(lines'[j], s, keyAt') && (j != i ==> StoryAt(lines'[j], keyAt') == StoryAt(lines[j], keyAt))
    {
      if j != i {
        PutKeepsMembers(lines[j], s, keyAt, slot, key);
      }
    }
    FreshStoryAt(l, s, keyAt', slot);
    ViewOfNewLine(line, SlotsOf(lines, s, keyAt), SlotsOf(lines', s, keyAt'), key, i);
  }

  // `l` with the members and automata of `m` appended and the later activity kept.
  ghost predicate Absorbs(r: Line, l: Line, m: Line, s: Shape) {
    && LineFits(r, s) && LineFits(l, s) && LineFits(m, s) && r.used
    && r.nMembers == l.nMembers + m.nMembers && r.nAuto == l.nAuto + m.nAuto
    && r.members[..r.nMembers] == l.members[..l.nMembers] + m.members[..m.nMembers]
    && r.autoPid[..r.nAuto] == l.autoPid[..l.nAuto] + m.autoPid[..m.nAuto]
    && r.autoDone[..r.nAuto] == l.autoDone[..l.nAuto] + m.autoDone[..m.nAuto]
    && r.last == Max(l.last, m.last)
  }

  lemma AbsorbedMembers(r: Line, l: Line, m: Line, s: Shape, keyAt: map<nat, Key>)
    requires Absorbs(r, l, m, s)
    ensures MembersOf(r, keyAt) == MembersOf(l, keyAt) + MembersOf(m, keyAt)
  {
    forall j | 0 <= j < r.nMembers
      ensures r.members[j] == if j < l.nMembers then l.members[j] else m.members[j - l.nMembers]
    {
      assert r.members[j] == r.members[..r.nMembers][j];
    }
    forall k | k in MembersOf(l, keyAt) + MembersOf(m, keyAt)
      ensures k in MembersOf(r, keyAt)
    {
      if k in MembersOf(l, keyAt) {
        var j :| 0 <= j < l.nMembers && KeyIn(keyAt, l.members[j]) == k;
        assert r.members[j] == l.members[j];
      } else {
        var j :| 0 <= j < m.nMembers && KeyIn(keyAt, m.members[j]) == k;
        assert r.members[l.nMembers + j] == m.members[j];
      }
    }
  }

  lemma AbsorbedAutos(r: Line, l: Line, m: Line, s: Shape)
    requires Absorbs(r, l, m, s)
    ensures AutosOf(r) == AutosOf(l) + AutosOf(m)
  {
    forall j | 0 <= j < r.nAuto
      ensures AutosOf(r)[j] == (AutosOf(l) + AutosOf(m))[j]
    {
      assert r.autoPid[j] == r.autoPid[..r.nAuto][j] && r.autoDone[j] == r.autoDone[..r.nAuto][j];
    }
  }

  lemma AbsorbedStory(r: Line, l: Line, m: Line, s: Shape, keyAt: map<nat, Key>)
    requires Absorbs(r, l, m, s)
    ensures StoryAt(r, keyAt) == Union(StoryAt(l, keyAt), StoryAt(m, keyAt))
  {
    hide AutosOf, MembersOf;
    AbsorbedMembers(r, l, m, s, keyAt);
    AbsorbedAutos(r, l, m, s);
  }

  // The two member lists have no slot in common, so the joined list still names each slot once.
  lemma AbsorbedOk(r: Line, l: Line, m: Line, s: Shape, keyAt: map<nat, Key>)
    requires Absorbs(r, l, m, s) && LineOk(l, s, keyAt) && LineOk(m, s, keyAt)
    requires forall i, j | 0 <= i < l.nMembers && 0 <= j < m.nMembers :: l.members[i] != m.members[j]
    ensures LineOk(r, s, keyAt)
  {
    forall j | 0 <= j < r.nMembers
      ensures r.members[j] == if j < l.nMembers then l.members[j] else m.members[j - l.nMembers]
    {
      assert r.members[j] == r.members[..r.nMembers][j];
    }
    forall j | 0 <= j < r.nAuto
      ensures r.autoPid[j] < s.patterns
    {
      assert r.autoPid[j] == r.autoPid[..r.nAuto][j];
    }
  }

  // Record `src` absorbed by record `dst` and freed.
  lemma SlotsOfMerge(lines: seq<Line>, s: Shape, keyAt: map<nat, Key>, line: map<Key, nat>,
                     src: nat, dst: nat, r: Line, freed: Line)
    requires SlabOk(lines, s, keyAt) && Consistent(line, SlotsOf(lines, s, keyAt))
    requires src < |lines| && dst < |lines| && src != dst && lines[src].used && lines[dst].used
    requires Absorbs(r, lines[dst], lines[src], s)
    requires freed == lines[src].(used := false, nMembers := 0, nAuto := 0)
    ensures var slots := SlotsOf(lines, s, keyAt);
      && SlabOk(lines[dst := r][src := freed], s, keyAt)
      && SlotsOf(lines[dst := r][src := freed], s, keyAt)
         == slots[src := None][dst := Some(Union(slots[dst].value, slots[src].value))]
  {
    hide AutosOf;
    var slots := SlotsOf(lines, s, keyAt);
    var d, m := lines[dst], lines[src];
    forall i, j | 0 <= i < d.nMembers && 0 <= j < m.nMembers
      ensures d.members[i] != m.members[j]
    {
      assert InSlot(slots, dst, KeyIn(keyAt, d.members[i]));
      assert InSlot(slots, src, KeyIn(keyAt, m.members[j]));
    }
    AbsorbedOk(r, d, m, s, keyAt);
    AbsorbedStory(r, d, m, s, keyAt);
  }

  // Record `i` rewritten in place, its member list kept.
  lemma SlotsOfUpdate(lines: seq<Line>, s: Shape, keyAt: map<nat, Key>, i: nat, l: Line)
    requires SlabOk(lines, s, keyAt) && i < |lines| && LineFits(l, s) && lines[i].used
    requires l.used && l.nMembers == lines[i].nMembers && l.members == lines[i].members
    ensures SlabOk(lines[i := l], s, keyAt)
    ensures SlotsOf(lines[i := l], s, keyAt) == SlotsOf(lines, s, keyAt)[i := Some(StoryAt(l, keyAt))]
    ensures MembersOf(l, keyAt) == MembersOf(lines[i], keyAt)
  {
  }

  lemma RecordRewritten(lines: seq<Line>, s: Shape, keyAt: map<nat, Key>, line: map<Key, nat>, i: nat, l: Line)
    requires SlabOk(lines, s, keyAt) && Consistent(line, SlotsOf(lines, s, keyAt)) && i < |lines| && lines[i].used
    requires LineFits(l, s) && l.used && l.nMembers == lines[i].nMembers && l.members == lines[i].members
    ensures SlabOk(lines[i := l], s, keyAt) && Consistent(line, SlotsOf(lines[i := l], s, keyAt))
    ensures View(line, SlotsOf(lines[i := l], s, keyAt))
         == Install(View(line, SlotsOf(lines, s, keyAt)), StoryAt(l, keyAt))
  {
    MembersShown(lines, s, keyAt, i);
    SlotsOfUpdate(lines, s, keyAt, i, l);
    hide SlabOk, SlotsOf, Consistent, LineFits, LineOk, MembersOf, AutosOf;
    ViewOfUpdate(line, SlotsOf(lines, s, keyAt), i, StoryAt(l, keyAt));
  }

  // The keys named by the first `n` entries of the member list.
  ghost function FirstMembers(l: Line, n: nat, keyAt: map<nat, Key>): set<Key>
    requires n <= l.nMembers <= |l.members|
  {
    MembersOf(l.(nMembers := n), keyAt)
  }

  lemma FirstMembersNext(l: Line, n: nat, keyAt: map<nat, Key>)
    requires n < l.nMembers <= |l.members| && l.members[n] in keyAt
    ensures FirstMembers(l, n + 1, keyAt) == FirstMembers(l, n, keyAt) + {keyAt[l.members[n]]}
    ensures FirstMembers(l, l.nMembers, keyAt) == MembersOf(l, keyAt)
  {
    assert l.(nMembers := l.nMembers) == l;
  }

  lemma MembersShown(lines: seq<Line>, s: Shape, keyAt: map<nat, Key>, i: nat)
    requires SlabOk(lines, s, keyAt) && i < |lines| && lines[i].used
    ensures LineOk(lines[i], s, keyAt) && Live(SlotsOf(lines, s, keyAt), i)
    ensures SlotsOf(lines, s, keyAt)[i].value == StoryAt(lines[i], keyAt)
  {
  }

  // The counters of a live record are the sizes of its storyline.
  lemma SlotCounts(lines: seq<Line>, s: Shape, keyAt: map<nat, Key>, line: map<Key, nat>, i: nat)
    requires SlabOk(lines, s, keyAt) && Consistent(line, SlotsOf(lines, s, keyAt)) && Live(SlotsOf(lines, s, keyAt), i)
    requires forall i, j | i in keyAt && j in keyAt && keyAt[i] == keyAt[j] :: i == j
    ensures i < |lines| && lines[i].used
    ensures |SlotsOf(lines, s, keyAt)[i].value.members| == lines[i].nMembers
    ensures |SlotsOf(lines, s, keyAt)[i].value.autos| == lines[i].nAuto
  {
    MembersCount(lines[i], s, keyAt);
  }

  lemma AutosNext(l: Line, i: nat)
    requires i < l.nAuto <= |l.autoPid| == |l.autoDone|
    ensures AutosOf(l)[i] == Auto(l.autoPid[i], l.autoDone[i])
    ensures multiset(AutosOf(l)[..i + 1]) == multiset(AutosOf(l)[..i]) + multiset{AutosOf(l)[i]}
  {
    assert AutosOf(l)[..i + 1] == AutosOf(l)[..i] + [AutosOf(l)[i]];
  }
}

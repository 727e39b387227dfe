/** The storyline table of the unbounded engines: `LINE` maps a key to a storyline index, and a merged
    storyline leaves an empty slot behind. Versions v0.0.1 and v0.0.2 share it unchanged. */
module LineStore {
  import opened Events
  import opened Storylines
  import opened LineTable

  // `automata` lists the live instances of each pattern that has any.
  datatype Storyline<A> = Storyline(members: set<Key>, automata: map<nat, seq<A>>, last: nat)

  // ----- automata lists as one multiset -----

  function Labelled<A>(pid: nat, s: seq<A>): (r: seq<Auto<A>>)
    ensures |r| == |s|
  {
    seq(|s|, i requires 0 <= i < |s| => Auto(pid, s[i]))
  }

  ghost function Flat<A>(automata: map<nat, seq<A>>, n: nat): multiset<Auto<A>> {
    if n == 0 then multiset{}
    else Flat(automata, n - 1) + if n - 1 in automata then multiset(Labelled(n - 1, automata[n - 1])) else multiset{}
  }

  function ListOf<A>(automata: map<nat, seq<A>>, pid: nat): seq<A> {
    if pid in automata then automata[pid] else []
  }

  lemma LabelledAppend<A>(pid: nat, s: seq<A>, t: seq<A>)
    ensures multiset(Labelled(pid, s + t)) == multiset(Labelled(pid, s)) + multiset(Labelled(pid, t))
  {
    assert Labelled(pid, s + t) == Labelled(pid, s) + Labelled(pid, t);
  }

  lemma LabelledNext<A>(pid: nat, s: seq<A>, i: nat)
    requires i < |s|
    ensures multiset(Labelled(pid, s[..i + 1])) == multiset(Labelled(pid, s[..i])) + multiset{Auto(pid, s[i])}
    ensures s[..|s|] == s
  {
    assert Labelled(pid, s[..i + 1]) == Labelled(pid, s[..i]) + [Auto(pid, s[i])];
  }

  lemma FlatNext<A>(automata: map<nat, seq<A>>, pid: nat)
    ensures Flat(automata, pid + 1)
         == if pid in automata then Flat(automata, pid) + multiset(Labelled(pid, automata[pid]))
            else Flat(automata, pid)
  {
  }

  lemma {:induction false} FlatSame<A>(a: map<nat, seq<A>>, b: map<nat, seq<A>>, n: nat)
    requires forall p | p < n :: (p in a <==> p in b) && (p in a ==> a[p] == b[p])
    ensures Flat(a, n) == Flat(b, n)
  {
    if n > 0 {
      FlatSame(a, b, n - 1);
    }
  }

  lemma Regroup<T>(x: multiset<T>, y: multiset<T>, z: multiset<T>)
    ensures x + (y + z) == x + y + z && x + z + y == x + y + z
  {
  }

  // What the lists of pattern `pid` add to the multiset.
  ghost function Bag<A>(automata: map<nat, seq<A>>, pid: nat): multiset<Auto<A>> {
    multiset(Labelled(pid, ListOf(automata, pid)))
  }

  lemma FlatBag<A>(automata: map<nat, seq<A>>, pid: nat)
    ensures Flat(automata, pid + 1) == Flat(automata, pid) + Bag(automata, pid)
  {
    assert Labelled<A>(pid, []) == [];
  }

  lemma BagAppend<A>(automata: map<nat, seq<A>>, pid: nat, extra: seq<A>, p: nat)
    ensures Bag(automata[pid := ListOf(automata, pid) + extra], p)
         == if p == pid then Bag(automata, p) + multiset(Labelled(pid, extra)) else Bag(automata, p)
  {
    LabelledAppend(pid, ListOf(automata, pid), extra);
  }

  lemma {:induction false} FlatAppend<A>(automata: map<nat, seq<A>>, pid: nat, extra: seq<A>, n: nat)
    requires pid < n
    ensures Flat(automata[pid := ListOf(automata, pid) + extra], n)
         == Flat(automata, n) + multiset(Labelled(pid, extra))
  {
    hide Flat, Bag, Labelled;
    var r, more := automata[pid := ListOf(automata, pid) + extra], multiset(Labelled(pid, extra));
    if pid == n - 1 {
      FlatSame(automata, r, n - 1);
    } else {
      FlatAppend(automata, pid, extra, n - 1);
    }
    FlatBag(automata, n - 1);
    FlatBag(r, n - 1);
    BagAppend(automata, pid, extra, n - 1);
    Regroup(Flat(automata, n - 1), Bag(automata, n - 1), more);
  }

  lemma FlatPush<A>(automata: map<nat, seq<A>>, pid: nat, x: A, n: nat)
    requires pid < n
    ensures Flat(automata[pid := ListOf(automata, pid) + [x]], n) == Flat(automata, n) + multiset{Auto(pid, x)}
  {
    FlatAppend(automata, pid, [x], n);
    assert Labelled(pid, [x]) == [Auto(pid, x)];
  }

  ghost function StoryOf<A>(s: Storyline<A>, patterns: nat): Story<A> {
    Story(s.members, Flat(s.automata, patterns), s.last)
  }

  type Cells<A> = seq<Option<Storyline<A>>>

  ghost predicate PidsFit<A>(storylines: Cells<A>, patterns: nat) {
    forall i | 0 <= i < |storylines| && storylines[i].Some? ::
      forall p | p in storylines[i].value.automata :: p < patterns
  }

  ghost function Table<A>(storylines: Cells<A>, patterns: nat): Slots<A> {
    seq(|storylines|, i requires 0 <= i < |storylines| =>
      if storylines[i].Some? then Some(StoryOf(storylines[i].value, patterns)) else None)
  }

  lemma {:induction false} FlatEmpty<A>(n: nat)
    ensures Flat<A>(map[], n) == multiset{}
  {
    if n > 0 {
      FlatEmpty<A>(n - 1);
    }
  }

  lemma FreshStory<A>(key: Key, patterns: nat)
    ensures StoryOf<A>(Storyline({key}, map[], 0), patterns) == Story({key}, multiset{}, 0)
  {
    FlatEmpty<A>(patterns);
  }

  lemma CellFits<A>(cells: Cells<A>, patterns: nat, i: nat)
    requires PidsFit(cells, patterns) && Live(Table(cells, patterns), i)
    ensures i < |cells| && cells[i].Some? && forall p | p in cells[i].value.automata :: p < patterns
    ensures Table(cells, patterns)[i].value == StoryOf(cells[i].value, patterns)
    ensures StoryOf(cells[i].value, patterns).members == cells[i].value.members
  {
  }

  // Cell `dst` now holds what it and cell `src` held.
  lemma TableMerged<A>(cells: Cells<A>, patterns: nat, src: nat, dst: nat, merged: Storyline<A>)
    requires PidsFit(cells, patterns) && Live(Table(cells, patterns), src) && Live(Table(cells, patterns), dst)
    requires src != dst && forall p | p in merged.automata :: p < patterns
    ensures PidsFit(cells[src := None][dst := Some(merged)], patterns)
    ensures Table(cells[src := None][dst := Some(merged)], patterns)
         == Table(cells, patterns)[src := None][dst := Some(StoryOf(merged, patterns))]
  {
  }

  // The unknown `key` opens a cell at the end.
  lemma CellOpened<A>(line: map<Key, nat>, cells: Cells<A>, patterns: nat, key: Key)
    requires PidsFit(cells, patterns) && Consistent(line, Table(cells, patterns)) && key !in line
    ensures var line', cells' := line[key := |cells|], cells + [Some(Storyline({key}, map[], 0))];
      && PidsFit(cells', patterns) && Consistent(line', Table(cells', patterns))
      && Resolve(UNBOUNDED, View(line, Table(cells, patterns)), key) == Some(View(line', Table(cells', patterns)))
  {
    var line', cells' := line[key := |cells|], cells + [Some(Storyline({key}, map[], 0))];
    hide Flat, Resolve;
    FreshStory<A>(key, patterns);
    AlwaysResolves(View(line, Table(cells, patterns)), key);
    ViewOfNewLine(line, Table(cells, patterns), Table(cells', patterns), key, |cells|);
  }

  // Cell `i` is rewritten, its members kept.
  lemma CellRewritten<A>(line: map<Key, nat>, cells: Cells<A>, patterns: nat, i: nat, after: Storyline<A>)
    requires PidsFit(cells, patterns) && Consistent(line, Table(cells, patterns)) && Live(Table(cells, patterns), i)
    requires after.members == cells[i].value.members && forall p | p in after.automata :: p < patterns
    ensures PidsFit(cells[i := Some(after)], patterns)
    ensures Consistent(line, Table(cells[i := Some(after)], patterns))
    ensures View(line, Table(cells[i := Some(after)], patterns))
         == Install(View(line, Table(cells, patterns)), StoryOf(after, patterns))
  {
    ViewOfUpdate(line, Table(cells, patterns), i, StoryOf(after, patterns));
    assert Table(cells[i := Some(after)], patterns) == Table(cells, patterns)[i := Some(StoryOf(after, patterns))];
  }

  // `for (pid, autos) in moved { into.entry(pid).or_default().append(autos) }`
  method AppendAll<A>(into: map<nat, seq<A>>, moved: map<nat, seq<A>>, patterns: nat) returns (r: map<nat, seq<A>>)
    requires forall p | p in into :: p < patterns
    requires forall p | p in moved :: p < patterns
    ensures forall p | p in r :: p < patterns
    ensures Flat(r, patterns) == Flat(into, patterns) + Flat(moved, patterns)
  {
    r := into;
    for pid := 0 to patterns
      invariant forall p | p in r :: p < patterns
      invariant Flat(r, patterns) == Flat(into, patterns) + Flat(moved, pid)
    {
      if pid in moved {
        FlatAppend(r, pid, moved[pid], patterns);
        r := r[pid := ListOf(r, pid) + moved[pid]];
      }
    }
  }

  // Storyline `d` takes over the members, the automata and the latest activity of `moved`.
  method Absorb<A>(d: Storyline<A>, moved: Storyline<A>, patterns: nat) returns (r: Storyline<A>)
    requires forall p | p in d.automata :: p < patterns
    requires forall p | p in moved.automata :: p < patterns
    ensures forall p | p in r.automata :: p < patterns
    ensures StoryOf(r, patterns) == Union(StoryOf(d, patterns), StoryOf(moved, patterns))
  {
    var automata: map<nat, seq<A>> := AppendAll(d.automata, moved.automata, patterns);
    r := Storyline(d.members + moved.members, automata, if d.last >= moved.last then d.last else moved.last);
  }

  // `for k in moved { line.insert(k, dst) }`
  method RedirectAll(line: map<Key, nat>, moved: set<Key>, dst: nat) returns (r: map<Key, nat>)
    requires moved <= line.Keys
    ensures r == Redirected(line, moved, dst)
  {
    r := line;
    var rest := moved;
    while rest != {}
      invariant rest <= moved && r == Redirected(line, moved - rest, dst)
      decreases rest
    {
      var k :| k in rest;
      r := r[k := dst];
      rest := rest - {k};
    }
  }

  class Store<A> {
    const patterns: nat
    var line: map<Key, nat>
    var storylines: Cells<A>

    ghost predicate Valid()
      reads this
    {
      PidsFit(storylines, patterns) && Consistent(line, Table(storylines, patterns))
    }

    ghost function Lines(): Lines<A>
      reads this
      requires Valid()
    {
      View(line, Table(storylines, patterns))
    }

    constructor (patterns: nat)
      ensures Valid() && Lines() == map[] && this.patterns == patterns
    {
      this.patterns := patterns;
      line := map[];
      storylines := [];
    }

    method ResolveLine(key: Key) returns (l: nat)
      requires Valid()
      modifies this
      ensures Valid() && key in line && l == line[key]
      ensures line == if key in old(line) then old(line) else old(line)[key := l]
      ensures Resolve(UNBOUNDED, old(Lines()), key) == Some(Lines())
    {
      if key in line {
        return line[key];
      }
      hide Consistent, View, Table, PidsFit, Resolve;
      CellOpened(line, storylines, patterns, key);
      storylines := storylines + [Some(Storyline({key}, map[], 0))];
      l := |storylines| - 1;
      line := line[key := l];
    }

    // Union by size: the storyline with more members absorbs the other.
    method MergeLines(x: nat, y: nat)
      requires Valid() && Live(Table(storylines, patterns), x) && Live(Table(storylines, patterns), y) && x != y
      modifies this
      ensures Valid() && line.Keys == old(line.Keys)
      ensures Lines() == Install(old(Lines()),
        Union(old(Table(storylines, patterns)[x].value), old(Table(storylines, patterns)[y].value)))
    {
      hide Consistent, View, Install, Union, Flat, PidsFit, StoryOf;
      var dst, src := x, y;
      if |storylines[x].value.members| < |storylines[y].value.members| {
        dst, src := y, x;
      }
      ghost var cells, before := storylines, Table(storylines, patterns);
      MembersKnown(line, before, src);
      UnionCommutes(before[dst].value, before[src].value);
      ViewOfMerge(line, before, src, dst);
      CellFits(cells, patterns, src);
      CellFits(cells, patterns, dst);
      var moved := storylines[src].value;
      storylines := storylines[src := None];
      line := RedirectAll(line, moved.members, dst);
      var merged := Absorb(storylines[dst].value, moved, patterns);
      TableMerged(cells, patterns, src, dst, merged);
      storylines := storylines[dst := Some(merged)];
    }

    method Unify(a: Key, o: Key) returns (s: nat)
      requires Valid()
      modifies this
      ensures Valid() && a in line && s == line[a]
      ensures Link(UNBOUNDED, old(Lines()), a, o) == Linked(Lines())
    {
      hide Flat, Table, View, Consistent, Install, PidsFit;
      var sa := ResolveLine(a);
      var so := ResolveLine(o);
      SameSlot(line, Table(storylines, patterns), a, o);
      if sa != so {
        MergeLines(sa, so);
      }
      s := line[a];
    }
  }
}

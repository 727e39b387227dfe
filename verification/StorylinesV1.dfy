/** The userland engine's storylines: ids in a union-find forest, merged as causal events link their nodes. */
module StorylinesV1 {
  import Events
  import Storylines

  type Key = Events.Key

  datatype Op = Exec | Open | Read | Write | Connect | Inject | Create | Delete | Load | Dup {
    // Touch edges (read, open, connect and the rest) leave the storylines apart.
    predicate IsCausal() {
      Exec? || Inject? || Create? || Dup? || Write?
    }
  }

  datatype Event = Event(ts: nat, op: Op, actor: Key, target: Key, image: Events.Option<Key>)

  // ----- what a storyline carries -----

  // Progress of one pattern: the steps done, when each was, the nodes its roles are bound to, and whether
  // the kernel has been armed for it.
  datatype Automaton = Automaton(done: Events.Mask, times: map<nat, nat>, bound: map<string, nat>, armed: bool)

  datatype Storyline = Storyline(automata: map<string, Automaton>, history: seq<(Events.Ttp, nat)>,
                                 score: real, lastActivity: nat)

  const EMPTY := Storyline(map[], [], 0.0, 0)

  function Min(a: nat, b: nat): nat {
    if a < b then a else b
  }

  function HigherScore(a: real, b: real): real {
    if a < b then b else a
  }

  // The earliest time of each step.
  function Earliest(a: map<nat, nat>, b: map<nat, nat>): map<nat, nat> {
    map k | k in a.Keys + b.Keys ::
      if k in a && k in b then Min(a[k], b[k]) else if k in a then a[k] else b[k]
  }

  // Where both have bound a role, the first keeps its binding; it also keeps its own armed flag.
  function Combined(first: Automaton, second: Automaton): Automaton {
    Automaton(first.done + second.done, Earliest(first.times, second.times), second.bound + first.bound, first.armed)
  }

  function Pooled(a: map<string, Automaton>, b: map<string, Automaton>): map<string, Automaton> {
    map p | p in a.Keys + b.Keys ::
      if p in a && p in b then Combined(a[p], b[p]) else if p in a then a[p] else b[p]
  }

  function Joined(root: Storyline, child: Storyline): Storyline {
    Storyline(Pooled(root.automata, child.automata), root.history + child.history,
              HigherScore(root.score, child.score), Storylines.Max(root.lastActivity, child.lastActivity))
  }

  // `z` holds what either of two automata of one pattern held: a step is done if it was done in one, its
  // time is the earlier, a role keeps the node `x` bound it to, else the one `y` did, and `x` says if armed.
  ghost predicate Unites(z: Automaton, x: Automaton, y: Automaton) {
    && (forall bit: nat :: bit in z.done <==> bit in x.done || bit in y.done)
    && (forall k :: k in z.times <==> k in x.times || k in y.times)
    && (forall k | k in z.times ::
          && (k in x.times ==> z.times[k] <= x.times[k]) && (k in y.times ==> z.times[k] <= y.times[k])
          && ((k in x.times && z.times[k] == x.times[k]) || (k in y.times && z.times[k] == y.times[k])))
    && (forall r :: r in z.bound <==> r in x.bound || r in y.bound)
    && (forall r | r in z.bound :: z.bound[r] == if r in x.bound then x.bound[r] else y.bound[r])
    && z.armed == x.armed
  }

  // `s` is storyline `root` after it took `child` in: nothing either had done, seen or scored is lost.
  ghost predicate TookIn(s: Storyline, root: Storyline, child: Storyline) {
    && (forall p :: p in s.automata <==> p in root.automata || p in child.automata)
    && (forall p | p in root.automata && p !in child.automata :: s.automata[p] == root.automata[p])
    && (forall p | p in child.automata && p !in root.automata :: s.automata[p] == child.automata[p])
    && (forall p | p in root.automata && p in child.automata ::
          Unites(s.automata[p], root.automata[p], child.automata[p]))
    && s.history == root.history + child.history
    && s.score >= root.score && s.score >= child.score && (s.score == root.score || s.score == child.score)
    && s.lastActivity >= root.lastActivity && s.lastActivity >= child.lastActivity
    && (s.lastActivity == root.lastActivity || s.lastActivity == child.lastActivity)
  }

  lemma CombinedUnites(x: Automaton, y: Automaton)
    ensures Unites(Combined(x, y), x, y)
  {
  }

  lemma JoinedTookIn(root: Storyline, child: Storyline)
    ensures TookIn(Joined(root, child), root, child)
  {
    hide Combined, Unites;
    forall p | p in root.automata && p in child.automata
      ensures Unites(Joined(root, child).automata[p], root.automata[p], child.automata[p])
    {
      CombinedUnites(root.automata[p], child.automata[p]);
    }
  }

  // Two automata agree on every role both have bound, and on whether the kernel is armed.
  ghost predicate Agree(x: Automaton, y: Automaton) {
    x.armed == y.armed && forall r | r in x.bound && r in y.bound :: x.bound[r] == y.bound[r]
  }

  lemma EitherSideFirst(x: Automaton, y: Automaton)
    ensures Combined(x, y).done == Combined(y, x).done && Combined(x, y).times == Combined(y, x).times
    ensures Combined(x, y) == Combined(y, x) <==> Agree(x, y)
  {
    assert Earliest(x.times, y.times) == Earliest(y.times, x.times);
    var m, n := Combined(x, y).bound, Combined(y, x).bound;
    if m == n {
      forall r | r in x.bound && r in y.bound
        ensures x.bound[r] == y.bound[r]
      {
        assert m[r] == n[r];
      }
    }
  }

  // The storyline with more automata becomes the root. That choice never touches steps done or their
  // times; it shows in the merged automata exactly when some pattern's two automata bound one role to
  // different nodes or differ in being armed.
  lemma RootChoiceShows(a: Storyline, b: Storyline)
    ensures var ab, ba := Joined(a, b), Joined(b, a);
      && ab.automata.Keys == ba.automata.Keys && ab.score == ba.score && ab.lastActivity == ba.lastActivity
      && (forall p | p in ab.automata ::
            ab.automata[p].done == ba.automata[p].done && ab.automata[p].times == ba.automata[p].times)
      && (ab.automata == ba.automata <==>
          forall p | p in a.automata && p in b.automata :: Agree(a.automata[p], b.automata[p]))
  {
    hide Combined, Agree;
    var ab, ba := Joined(a, b).automata, Joined(b, a).automata;
    forall p | p in a.automata && p in b.automata
      ensures ab[p].done == ba[p].done && ab[p].times == ba[p].times
      ensures ab[p] == ba[p] <==> Agree(a.automata[p], b.automata[p])
    {
      EitherSideFirst(a.automata[p], b.automata[p]);
    }
    assert forall p | p in ab && !(p in a.automata && p in b.automata) :: ab[p] == ba[p];
  }

  // ----- the three merging loops -----

  lemma EarliestNone(a: map<nat, nat>)
    ensures Earliest(a, map[]) == a
  {
  }

  lemma PooledNone(a: map<string, Automaton>)
    ensures Pooled(a, map[]) == a
  {
  }

  lemma EarliestNext(a: map<nat, nat>, b: map<nat, nat>, left: set<nat>, k: nat)
    requires left <= b.Keys && k in left
    ensures var so := Earliest(a, b - left);
      Earliest(a, b - (left - {k})) == so[k := if k in so then Min(so[k], b[k]) else b[k]]
  {
  }

  lemma PooledNext(a: map<string, Automaton>, b: map<string, Automaton>, left: set<string>, p: string)
    requires left <= b.Keys && p in left
    ensures var so := Pooled(a, b - left);
      Pooled(a, b - (left - {p})) == so[p := if p in so then Combined(so[p], b[p]) else b[p]]
  {
    hide Combined;
  }

  lemma PooledUnites(a: map<string, Automaton>, b: map<string, Automaton>)
    ensures var r := Pooled(a, b);
      && r.Keys == a.Keys + b.Keys
      && (forall p | p in a && p !in b :: r[p] == a[p]) && (forall p | p in b && p !in a :: r[p] == b[p])
      && forall p | p in a && p in b :: Unites(r[p], a[p], b[p])
  {
    hide Combined, Unites;
    forall p | p in a && p in b
      ensures Unites(Pooled(a, b)[p], a[p], b[p])
    {
      CombinedUnites(a[p], b[p]);
    }
  }

  method MergeTimes(into: map<nat, nat>, from: map<nat, nat>) returns (times: map<nat, nat>)
    ensures times == Earliest(into, from)
  {
    hide Earliest;
    EarliestNone(into);
    times := into;
    var left := from.Keys;
    assert from - left == map[];
    while left != {}
      invariant left <= from.Keys && times == Earliest(into, from - left)
      decreases |left|
    {
      var k :| k in left;
      EarliestNext(into, from, left, k);
      times := times[k := if k in times then Min(times[k], from[k]) else from[k]];
      left := left - {k};
    }
    assert from - left == from;
  }

  method MergeBindings(into: map<string, nat>, from: map<string, nat>) returns (bound: map<string, nat>)
    ensures bound == from + into
  {
    bound := into;
    var left := from.Keys;
    while left != {}
      invariant left <= from.Keys && bound == (from - left) + into
      decreases |left|
    {
      var r :| r in left;
      if r !in bound {
        bound := bound[r := from[r]];
      }
      left := left - {r};
    }
    assert from - left == from;
  }

  method MergeAutomata(into: map<string, Automaton>, from: map<string, Automaton>)
    returns (automata: map<string, Automaton>)
    ensures automata == Pooled(into, from)
    ensures automata.Keys == into.Keys + from.Keys
    ensures forall p | p in into && p !in from :: automata[p] == into[p]
    ensures forall p | p in from && p !in into :: automata[p] == from[p]
    ensures forall p | p in into && p in from :: Unites(automata[p], into[p], from[p])
  {
    hide Pooled, Unites;
    PooledNone(into);
    automata := into;
    var left := from.Keys;
    assert from - left == map[];
    while left != {}
      invariant left <= from.Keys && automata == Pooled(into, from - left)
      decreases |left|
    {
      var p :| p in left;
      PooledNext(into, from, left, p);
      if p !in automata {
        automata := automata[p := from[p]];
      } else {
        var times := MergeTimes(automata[p].times, from[p].times);
        var bound := MergeBindings(automata[p].bound, from[p].bound);
        automata := automata[p := Automaton(automata[p].done + from[p].done, times, bound, automata[p].armed)];
      }
      left := left - {p};
    }
    assert from - left == from;
    PooledUnites(into, from);
  }

  // The child's automata, history, score and latest activity folded into the root's.
  method TakeIn(root: Storyline, child: Storyline) returns (s: Storyline)
    ensures s == Joined(root, child) && TookIn(s, root, child)
  {
    hide TookIn, Pooled, Unites;
    JoinedTookIn(root, child);
    var automata := MergeAutomata(root.automata, child.automata);
    s := Storyline(automata, root.history + child.history, HigherScore(root.score, child.score),
                   Storylines.Max(root.lastActivity, child.lastActivity));
  }
}

/** The base engine: every node and edge kept forever, storylines and linear automata beside them. */
module EngineBase {
  import opened Events
  import opened Storylines
  import opened LineTable
  import opened LineStore
  import opened LinearSpec
  import LinearMeaning
  import opened LinearAdvance
  import opened Graph
  import Multisets

  datatype Node = Node(kind: Kind, line: Option<nat>)

  // The storyline slot of every node that has one.
  ghost function LineOf(nodes: map<Key, Node>): map<Key, nat> {
    map k | k in nodes && nodes[k].line.Some? :: nodes[k].line.value
  }

  ghost function Kinds(nodes: map<Key, Node>): map<Key, Kind> {
    map k | k in nodes :: nodes[k].kind
  }

  // Each end is remembered as the kind of thing it was when first seen.
  ghost function Sighted(kinds: map<Key, Kind>, key: Key, kind: Kind): map<Key, Kind> {
    if key in kinds then kinds else kinds[key := kind]
  }

  lemma LineAt(nodes: map<Key, Node>, k: Key)
    requires k in LineOf(nodes)
    ensures k in nodes && nodes[k].line == Some(LineOf(nodes)[k])
  {
  }

  class Engine {
    const rules: Rules
    var nodes: map<Key, Node>
    var edges: seq<Edge>
    var storylines: Cells<Automaton>
    var disarmed: map<Key, OpSet>

    // Between events, and while one event is processed.
    ghost predicate Sound()
      reads this
    {
      && NonEmpty(rules) && PidsFit(storylines, |rules|)
      && Consistent(LineOf(nodes), Table(storylines, |rules|))
    }

    ghost predicate Valid()
      reads this
    {
      Sound() && Components(edges, Lines()) && LineOf(nodes).Keys == nodes.Keys
    }

    ghost function Lines(): Lines<Automaton>
      reads this
      requires Sound()
    {
      View(LineOf(nodes), Table(storylines, |rules|))
    }

    ghost function Observed(): State<Automaton>
      reads this
      requires Sound()
    {
      State(Lines(), disarmed)
    }

    constructor (rules: Rules)
      requires NonEmpty(rules)
      ensures Valid() && this.rules == rules && Observed() == State(map[], map[]) && edges == []
    {
      this.rules := rules;
      nodes, edges, storylines, disarmed := map[], [], [], map[];
    }

    // get-or-create in the graph
    method ResolveNode(key: Key, kind: Kind)
      requires Sound()
      modifies this`nodes
      ensures Sound() && nodes.Keys == old(nodes.Keys) + {key} && LineOf(nodes) == old(LineOf(nodes))
      ensures Kinds(nodes) == Sighted(old(Kinds(nodes)), key, kind)
    {
      if key !in nodes {
        nodes := nodes[key := Node(kind, None)];
        assert LineOf(nodes) == old(LineOf(nodes));
      }
    }

    method LineOrNew(key: Key) returns (l: nat)
      requires Sound() && key in nodes
      modifies this`nodes, this`storylines
      ensures Sound() && nodes.Keys == old(nodes.Keys)
      ensures Kinds(nodes) == old(Kinds(nodes))
      ensures Resolve(UNBOUNDED, old(Lines()), key) == Some(Lines())
      ensures key in LineOf(nodes) && l == LineOf(nodes)[key]
      ensures LineOf(nodes).Keys == old(LineOf(nodes).Keys) + {key}
      ensures forall k | k in old(LineOf(nodes)) :: k in LineOf(nodes) && LineOf(nodes)[k] == old(LineOf(nodes)[k])
    {
      hide Consistent, View, Table, PidsFit, Resolve;
      if nodes[key].line.Some? {
        AlwaysResolves(Lines(), key);
        ViewKeys(LineOf(nodes), Table(storylines, |rules|));
        return nodes[key].line.value;
      }
      CellOpened(LineOf(nodes), storylines, |rules|, key);
      storylines := storylines + [Some(Storyline({key}, map[], 0))];
      l := |storylines| - 1;
      nodes := nodes[key := nodes[key].(line := Some(l))];
      assert LineOf(nodes) == old(LineOf(nodes))[key := l];
    }

    // Union by size: the storyline with more members absorbs the other.
    method MergeLines(x: nat, y: nat)
      requires Sound() && Live(Table(storylines, |rules|), x) && Live(Table(storylines, |rules|), y) && x != y
      modifies this`nodes, this`storylines
      ensures Sound() && nodes.Keys == old(nodes.Keys) && LineOf(nodes).Keys == old(LineOf(nodes).Keys)
      ensures Kinds(nodes) == old(Kinds(nodes))
      ensures Lines() == Install(old(Lines()),
        Union(old(Table(storylines, |rules|)[x].value), old(Table(storylines, |rules|)[y].value)))
    {
      hide Consistent, View, Install, Union, Flat, PidsFit, StoryOf;
      var dst, src := x, y;
      if |storylines[x].value.members| < |storylines[y].value.members| {
        dst, src := y, x;
      }
      ghost var cells, before, line0 := storylines, Table(storylines, |rules|), LineOf(nodes);
      MembersKnown(line0, before, src);
      UnionCommutes(before[dst].value, before[src].value);
      ViewOfMerge(line0, before, src, dst);
      CellFits(cells, |rules|, src);
      CellFits(cells, |rules|, dst);
      var moved := storylines[src].value;
      storylines := storylines[src := None];
      nodes := MoveNodes(nodes, moved.members, dst);
      var merged := Absorb(storylines[dst].value, moved, |rules|);
      TableMerged(cells, |rules|, src, dst, merged);
      storylines := storylines[dst := Some(merged)];
    }

    // The storylines of two known keys become one.
    method MergeApart(a: Key, o: Key)
      requires Sound() && a in LineOf(nodes) && o in LineOf(nodes)
      modifies this`nodes, this`storylines
      ensures Sound() && nodes.Keys == old(nodes.Keys) && LineOf(nodes).Keys == old(LineOf(nodes).Keys)
      ensures Kinds(nodes) == old(Kinds(nodes))
      ensures a in old(Lines()) && o in old(Lines()) && Lines() == Merge(UNBOUNDED, old(Lines()), a, o)
    {
      hide Flat, Table, Consistent, Install, PidsFit, LineOf;
      SameSlot(LineOf(nodes), Table(storylines, |rules|), a, o);
      LineAt(nodes, a);
      LineAt(nodes, o);
      var sa, so := nodes[a].line.value, nodes[o].line.value;
      if sa != so {
        MergeLines(sa, so);
      }
    }

    method UnifyStoryline(a: Key, o: Key) returns (s: nat)
      requires Sound() && a in nodes && o in nodes
      modifies this`nodes, this`storylines
      ensures Sound() && nodes.Keys == old(nodes.Keys)
      ensures Kinds(nodes) == old(Kinds(nodes))
      ensures Link(UNBOUNDED, old(Lines()), a, o) == Linked(Lines())
      ensures LineOf(nodes).Keys == old(LineOf(nodes).Keys) + {a, o}
      ensures a in LineOf(nodes) && s == LineOf(nodes)[a]
    {
      hide Flat, Table, View, Consistent, PidsFit, LineOf, Resolve, Merge;
      var sa := LineOrNew(a);
      var so := LineOrNew(o);
      MergeApart(a, o);
      LineAt(nodes, a);
      s := nodes[a].line.value;
    }

    method AdvanceLine(s: nat, e: Event, ttps: seq<Ttp>) returns (v: Verdict)
      requires Sound() && e.actor in LineOf(nodes) && LineOf(nodes)[e.actor] == s
      modifies this`storylines, this`disarmed
      ensures Sound() && e.actor in old(Observed()).lines
      ensures Outcome(Observed(), v) == Advance(rules, old(Observed()), e, ttps)
    {
      hide Consistent, View, Table, PidsFit, StoryOf, AdvanceStory, StoryEffect, LineOf;
      SameSlot(LineOf(nodes), Table(storylines, |rules|), e.actor, e.actor);
      ViewKeys(LineOf(nodes), Table(storylines, |rules|));
      CellFits(storylines, |rules|, s);
      var after;
      after, v, disarmed := AdvanceRecord(rules, storylines[s].value, e, ttps, disarmed);
      CellRewritten(LineOf(nodes), storylines, |rules|, s, after);
      storylines := storylines[s := Some(after)];
    }

    // The storylines stay the connected components of the edges recorded so far.
    method OnEvent(e: Event, ttps: seq<Ttp>) returns (v: Verdict)
      requires Valid()
      modifies this
      ensures Valid()
      ensures Outcome(Observed(), v) == LinearSpec.OnEvent(rules, old(Observed()), e, ttps)
      ensures LinearMeaning.RightAnswer(rules, old(Observed()), e, ttps, Observed(), v)
      ensures edges == if Gated(old(disarmed), e.actor, e.op) then old(edges)
                       else old(edges) + [Edge(e.actor, e.target, e.op, e.ts)]
      ensures Kinds(nodes) == if Gated(old(disarmed), e.actor, e.op) then old(Kinds(nodes))
                              else Sighted(Sighted(old(Kinds(nodes)), e.actor, e.actorKind), e.target, e.targetKind)
    {
      hide Components, Link, Consistent, PidsFit, View, Table, LineOf, StoryEffect, Install, LinearSpec.Seeded,
          Multisets.Image, LinearMeaning.RightAnswer, Kinds, Sighted;
      ViewPartition(LineOf(nodes), Table(storylines, |rules|));
      LinearMeaning.AnswersRightly(rules, Observed(), e, ttps);
      if e.actor in disarmed && Contains(disarmed[e.actor], e.op) {
        return Blocked;
      }
      ResolveNode(e.actor, e.actorKind);
      ResolveNode(e.target, e.targetKind);
      edges := edges + [Edge(e.actor, e.target, e.op, e.ts)];
      LinkKeepsComponents(old(edges), Lines(), edges[|edges| - 1]);
      var s := UnifyStoryline(e.actor, e.target);
      ghost var linked := Lines();
      v := AdvanceLine(s, e, ttps);
      InstallKeepsComponents(edges, linked, e.actor, AdvanceStory(rules, linked[e.actor], e, ttps));
    }

    // The member set of the storyline `key` is in: its connected component.
    method StorylineOf(key: Key) returns (r: Option<set<Key>>)
      requires Valid()
      ensures r == if key in Observed().lines then Some(Observed().lines[key].members) else None
      ensures r.Some? <==> IsEndpoint(edges, key)
      ensures r.Some? ==> forall j :: j in r.value <==> Connected(edges, key, j)
    {
      hide Connected, IsEndpoint;
      if key !in nodes || nodes[key].line.None? {
        return None;
      }
      SameSlot(LineOf(nodes), Table(storylines, |rules|), key, key);
      r := Some(storylines[nodes[key].line.value].value.members);
      forall j
        ensures j in r.value <==> Connected(edges, key, j)
      {
        StorylinesAreComponents(edges, Lines(), key, j);
      }
    }
  }

  // `for k in moved { nodes[k].line = Some(dst) }`
  method MoveNodes(nodes: map<Key, Node>, moved: set<Key>, dst: nat) returns (r: map<Key, Node>)
    requires moved <= LineOf(nodes).Keys
    ensures r.Keys == nodes.Keys && LineOf(r) == Redirected(LineOf(nodes), moved, dst) && Kinds(r) == Kinds(nodes)
  {
    r := nodes;
    var rest := moved;
    while rest != {}
      invariant rest <= moved && r.Keys == nodes.Keys
      invariant forall k | k in nodes :: r[k] == if k in moved - rest then nodes[k].(line := Some(dst)) else nodes[k]
      decreases rest
    {
      var k :| k in rest;
      r := r[k := r[k].(line := Some(dst))];
      rest := rest - {k};
    }
  }
}

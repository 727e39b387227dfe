/** The userland engine: nodes by key, one storyline id each, ids merged by union-find. */
module EngineV1 {
  import opened UnionFind
  import opened StorylinesV1
  import Events
  import Graph

  datatype Node = Node(key: Key, sid: nat)

  /** What the engine knows, with each storyline id mapped to its root. */
  datatype View = View(nodes: seq<Node>, index: map<Key, nat>, storylines: map<nat, Storyline>,
                       roots: map<nat, nat>, nextSid: nat)

  ghost predicate RootsOk(roots: map<nat, nat>, nextSid: nat) {
    forall x | x in roots :: x < nextSid && roots[x] in roots && roots[roots[x]] == roots[x]
  }

  // The live storylines are exactly the roots.
  ghost predicate LiveRoots(live: set<nat>, roots: map<nat, nat>) {
    forall x :: x in live <==> x in roots && roots[x] == x
  }

  ghost predicate Indexed(nodes: seq<Node>, index: map<Key, nat>) {
    && (forall k | k in index :: index[k] < |nodes| && nodes[index[k]].key == k)
    && (forall u | 0 <= u < |nodes| :: nodes[u].key in index && index[nodes[u].key] == u)
  }

  ghost predicate Placed(nodes: seq<Node>, roots: map<nat, nat>) {
    forall u | 0 <= u < |nodes| :: nodes[u].sid in roots
  }

  ghost predicate WellFormed(v: View) {
    && RootsOk(v.roots, v.nextSid) && LiveRoots(v.storylines.Keys, v.roots)
    && Indexed(v.nodes, v.index) && Placed(v.nodes, v.roots)
  }

  ghost function StorylineOf(v: View, u: nat): (r: nat)
    requires WellFormed(v) && u < |v.nodes|
    ensures r in v.storylines && v.roots[r] == r
  {
    v.roots[v.nodes[u].sid]
  }

  // Two nodes are in one storyline.
  ghost predicate Together(v: View, u: nat, w: nat)
    requires WellFormed(v) && u < |v.nodes| && w < |v.nodes|
  {
    StorylineOf(v, u) == StorylineOf(v, w)
  }

  // Two nodes share a storyline exactly when a chain of causal events links them.
  ghost predicate Tracks(v: View, links: seq<Graph.Edge>)
    requires WellFormed(v)
  {
    && (forall i | 0 <= i < |links| :: links[i].from in v.index && links[i].to in v.index)
    && forall u: nat, w: nat | u < |v.nodes| && w < |v.nodes| ::
         Together(v, u, w) <==> Graph.Connected(links, v.nodes[u].key, v.nodes[w].key)
  }

  // ----- what each operation does to the view -----

  ghost function Resolved(v: View, key: Key): View {
    if key in v.index then v
    else View(v.nodes + [Node(key, v.nextSid)], v.index[key := |v.nodes|], v.storylines[v.nextSid := EMPTY],
              v.roots[v.nextSid := v.nextSid], v.nextSid + 1)
  }

  // The root with fewer automata goes below the other.
  ghost function Merged(v: View, a: nat, b: nat): View
    requires a in v.storylines && b in v.storylines
  {
    var (root, child) := if |v.storylines[a].automata| >= |v.storylines[b].automata| then (a, b) else (b, a);
    v.(storylines := (v.storylines - {child})[root := Joined(v.storylines[root], v.storylines[child])],
       roots := Reroot(v.roots, child, root))
  }

  ghost function United(v: View, a: nat, o: nat, op: Op): View
    requires WellFormed(v) && a < |v.nodes| && o < |v.nodes|
  {
    if !op.IsCausal() || StorylineOf(v, a) == StorylineOf(v, o) then v
    else Merged(v, StorylineOf(v, a), StorylineOf(v, o))
  }

  function Noted(s: Storyline, ts: nat, ttps: seq<Events.Ttp>): Storyline {
    s.(lastActivity := ts, history := s.history + seq(|ttps|, i requires 0 <= i < |ttps| => (ttps[i], ts)))
  }

  // The event's time is the storyline's latest, its techniques join the history, the rest is untouched.
  lemma NotedAdds(s: Storyline, ts: nat, ttps: seq<Events.Ttp>)
    ensures var n := Noted(s, ts, ttps);
      && n.automata == s.automata && n.score == s.score && n.lastActivity == ts
      && |n.history| == |s.history| + |ttps| && n.history[..|s.history|] == s.history
      && forall i | 0 <= i < |ttps| :: n.history[|s.history| + i] == (ttps[i], ts)
  {
  }

  ghost function WithNodes(v: View, e: Event): View {
    var both := Resolved(Resolved(v, e.actor), e.target);
    if e.image.Some? then Resolved(both, e.image.value) else both
  }

  // The part of an event that makes a link.
  ghost function LinkOf(e: Event): seq<Graph.Edge> {
    match e.op
    case Exec => [Graph.Edge(e.actor, e.target, Events.Exec, e.ts)]
    case Inject => [Graph.Edge(e.actor, e.target, Events.Inject, e.ts)]
    case Create => [Graph.Edge(e.actor, e.target, Events.Create, e.ts)]
    case Dup => [Graph.Edge(e.actor, e.target, Events.Dup, e.ts)]
    case Write => [Graph.Edge(e.actor, e.target, Events.Write, e.ts)]
    case _ => []
  }

  // ----- each keeps storylines and chains of causal events in step -----

  lemma ResolvedShape(v: View, key: Key)
    requires WellFormed(v)
    ensures WellFormed(Resolved(v, key)) && key in Resolved(v, key).index
    ensures forall u: nat, w: nat | u < |v.nodes| && w < |v.nodes| ::
      Together(Resolved(v, key), u, w) <==> Together(v, u, w)
    ensures key !in v.index ==> forall u: nat | u < |v.nodes| ::
      !Together(Resolved(v, key), u, |v.nodes|) && !Together(Resolved(v, key), |v.nodes|, u)
  {
    if key !in v.index {
      var v' := Resolved(v, key);
      assert Indexed(v'.nodes, v'.index) && Placed(v'.nodes, v'.roots);
      assert RootsOk(v'.roots, v'.nextSid) && LiveRoots(v'.storylines.Keys, v'.roots);
      hide Indexed;
      forall u: nat | u < |v.nodes|
        ensures StorylineOf(v', u) == StorylineOf(v, u) && StorylineOf(v', u) != StorylineOf(v', |v.nodes|)
      {
      }
    }
  }

  lemma ResolvedKeeps(v: View, links: seq<Graph.Edge>, key: Key)
    requires WellFormed(v) && Tracks(v, links)
    ensures WellFormed(Resolved(v, key)) && Tracks(Resolved(v, key), links) && key in Resolved(v, key).index
  {
    ResolvedShape(v, key);
    hide Together, Graph.Connected, RootsOk, LiveRoots, Placed;
    var v' := Resolved(v, key);
    if key !in v.index {
      assert !Graph.IsEndpoint(links, key);
      forall u: nat, w: nat | u < |v'.nodes| && w < |v'.nodes|
        ensures Together(v', u, w) <==> Graph.Connected(links, v'.nodes[u].key, v'.nodes[w].key)
      {
        if u == |v.nodes| {
          Graph.IsolatedKey(links, key, v'.nodes[w].key);
          TogetherSelf(v', u);
        } else if w == |v.nodes| {
          Graph.IsolatedKey(links, key, v'.nodes[u].key);
        }
      }
    }
  }

  lemma TogetherSelf(v: View, u: nat)
    requires WellFormed(v) && u < |v.nodes|
    ensures Together(v, u, u)
  {
  }

  lemma MergedShape(v: View, a: nat, b: nat)
    requires WellFormed(v) && a in v.storylines && b in v.storylines && a != b
    ensures WellFormed(Merged(v, a, b))
    ensures forall u: nat | u < |v.nodes| ::
      StorylineOf(Merged(v, a, b), u) == var s := StorylineOf(v, u); if s == a || s == b then Kept(v, a, b) else s
  {
    hide Joined, Indexed;
    var v' := Merged(v, a, b);
    assert RootsOk(v'.roots, v'.nextSid);
    assert LiveRoots(v'.storylines.Keys, v'.roots);
    assert Placed(v'.nodes, v'.roots);
  }

  // Of the two storylines the one with more automata, `a` when they are equal, took the other in; the rest
  // are untouched.
  ghost predicate Folded(before: map<nat, Storyline>, after: map<nat, Storyline>, a: nat, b: nat, root: nat) {
    && a in before && b in before && root == (if |before[a].automata| >= |before[b].automata| then a else b)
    && var child := if root == a then b else a;
       && after.Keys == before.Keys - {child} && root in after
       && TookIn(after[root], before[root], before[child])
       && forall x | x in after && x != root :: after[x] == before[x]
  }

  lemma MergedFolds(v: View, a: nat, b: nat)
    requires a in v.storylines && b in v.storylines && a != b
    ensures Folded(v.storylines, Merged(v, a, b).storylines, a, b, Kept(v, a, b))
  {
    hide Joined, TookIn;
    JoinedTookIn(v.storylines[a], v.storylines[b]);
    JoinedTookIn(v.storylines[b], v.storylines[a]);
  }

  // The root that stays when `a` and `b` merge.
  ghost function Kept(v: View, a: nat, b: nat): nat
    requires a in v.storylines && b in v.storylines
  {
    if |v.storylines[a].automata| >= |v.storylines[b].automata| then a else b
  }

  lemma UnitedKeeps(v: View, links: seq<Graph.Edge>, e: Event)
    requires WellFormed(v) && Tracks(v, links) && e.actor in v.index && e.target in v.index
    requires Indexed(v.nodes, v.index)
    ensures var v' := United(v, v.index[e.actor], v.index[e.target], e.op);
      WellFormed(v') && Tracks(v', links + LinkOf(e))
  {
    var a, o := v.index[e.actor], v.index[e.target];
    var v' := United(v, a, o, e.op);
    if e.op.IsCausal() {
      UnitedTogether(v, a, o, e.op);
      var all, link := links + LinkOf(e), LinkOf(e)[0];
      assert all == links + [link] && link.from == e.actor && link.to == e.target;
      forall u: nat, w: nat | u < |v.nodes| && w < |v.nodes|
        ensures Together(v', u, w) <==> Graph.Connected(all, v.nodes[u].key, v.nodes[w].key)
      {
        UnitedPair(v, links, link, e.op, u, w);
      }
      hide Together, Graph.Connected, United, WellFormed, LinkOf;
    } else {
      assert links + LinkOf(e) == links;
    }
  }

  // Two nodes come together when one of them was with the actor and the other with the target, as the
  // link lets one cross between their keys.
  lemma UnitedPair(v: View, links: seq<Graph.Edge>, link: Graph.Edge, op: Op, u: nat, w: nat)
    requires WellFormed(v) && Tracks(v, links) && link.from in v.index && link.to in v.index && op.IsCausal()
    requires u < |v.nodes| && w < |v.nodes|
    ensures var a, o := v.index[link.from], v.index[link.to];
      && a < |v.nodes| && o < |v.nodes| && WellFormed(United(v, a, o, op)) && United(v, a, o, op).nodes == v.nodes
      && (Together(United(v, a, o, op), u, w) <==> Graph.Connected(links + [link], v.nodes[u].key, v.nodes[w].key))
  {
    var a, o := v.index[link.from], v.index[link.to];
    UnitedTogether(v, a, o, op);
    Graph.ConnectedWithLast(links, link, v.nodes[u].key, v.nodes[w].key);
    hide Together, Graph.Connected, United, RootsOk, LiveRoots, Placed;
  }

  lemma UnitedTogether(v: View, a: nat, o: nat, op: Op)
    requires WellFormed(v) && a < |v.nodes| && o < |v.nodes| && op.IsCausal()
    ensures var v' := United(v, a, o, op);
      && WellFormed(v') && v'.nodes == v.nodes && v'.index == v.index
      && forall u: nat, w: nat | u < |v.nodes| && w < |v.nodes| ::
           (Together(v', u, w) <==>
             || Together(v, u, w) || (Together(v, u, a) && Together(v, o, w))
             || (Together(v, u, o) && Together(v, a, w)))
  {
    hide Joined, Indexed, RootsOk, LiveRoots, Placed, Merged;
    var x, y := StorylineOf(v, a), StorylineOf(v, o);
    if x != y {
      MergedShape(v, x, y);
      MergedNodes(v, x, y);
    }
    hide StorylineOf;
  }

  lemma MergedNodes(v: View, a: nat, b: nat)
    requires a in v.storylines && b in v.storylines
    ensures Merged(v, a, b).nodes == v.nodes && Merged(v, a, b).index == v.index
  {
  }

  // The operations that carry an intrusion from one node to another.
  ghost predicate Causal(op: Op) {
    op == Exec || op == Inject || op == Create || op == Dup || op == Write
  }

  lemma CausalIs(op: Op)
    ensures op.IsCausal() <==> Causal(op)
  {
  }

  lemma UnitedTogetherNow(v: View, a: nat, o: nat, op: Op)
    requires WellFormed(v) && a < |v.nodes| && o < |v.nodes|
    ensures WellFormed(United(v, a, o, op)) && United(v, a, o, op).nodes == v.nodes
    ensures Causal(op) ==> Together(United(v, a, o, op), a, o)
    ensures !Causal(op) ==> United(v, a, o, op) == v
  {
    CausalIs(op);
    if op.IsCausal() {
      UnitedTogether(v, a, o, op);
      TogetherSelf(v, a);
      TogetherSelf(v, o);
      hide Together, United;
    }
  }

  // An event up to pattern matching: nodes known, storylines united, the event noted.
  ghost function Observed(v: View, e: Event, ttps: seq<Events.Ttp>): View
    requires WellFormed(v)
  {
    NodesKnown(v, e);
    var known := WithNodes(v, e);
    var united := United(known, known.index[e.actor], known.index[e.target], e.op);
    UnitedStays(known, known.index[e.actor], known.index[e.target], e.op);
    var sid := StorylineOf(united, known.index[e.actor]);
    united.(storylines := united.storylines[sid := Noted(united.storylines[sid], e.ts, ttps)])
  }

  // Matching may leave anything at all in the actor's storyline, and touches no other.
  ghost function Matched(v: View, e: Event, ttps: seq<Events.Ttp>, after: Storyline): View
    requires WellFormed(v)
  {
    ObservedKnows(v, e, ttps);
    var seen := Observed(v, e, ttps);
    seen.(storylines := seen.storylines[StorylineOf(seen, seen.index[e.actor]) := after])
  }

  // The storyline the rules are about to work on.
  ghost function NotedStory(v: View, e: Event, ttps: seq<Events.Ttp>): Storyline
    requires WellFormed(v)
  {
    ObservedKnows(v, e, ttps);
    var seen := Observed(v, e, ttps);
    seen.storylines[StorylineOf(seen, seen.index[e.actor])]
  }

  lemma ObservedKnows(v: View, e: Event, ttps: seq<Events.Ttp>)
    requires WellFormed(v)
    ensures var seen := Observed(v, e, ttps);
      WellFormed(seen) && e.actor in seen.index && seen.index[e.actor] < |seen.nodes|
  {
    NodesKnown(v, e);
    var known := WithNodes(v, e);
    var united := United(known, known.index[e.actor], known.index[e.target], e.op);
    UnitedStays(known, known.index[e.actor], known.index[e.target], e.op);
    hide United, WithNodes;
    var sid := StorylineOf(united, known.index[e.actor]);
    NotingShape(united, sid, Noted(united.storylines[sid], e.ts, ttps));
  }

  lemma NodesKnown(v: View, e: Event)
    requires WellFormed(v)
    ensures var known := WithNodes(v, e);
      && WellFormed(known) && e.actor in known.index && e.target in known.index
      && known.index[e.actor] < |known.nodes| && known.index[e.target] < |known.nodes|
  {
    ResolvedShape(v, e.actor);
    ResolvedShape(Resolved(v, e.actor), e.target);
    hide RootsOk, LiveRoots, Placed, Together;
    if e.image.Some? {
      ResolvedShape(Resolved(Resolved(v, e.actor), e.target), e.image.value);
    }
  }

  lemma UnitedStays(v: View, a: nat, o: nat, op: Op)
    requires WellFormed(v) && a < |v.nodes| && o < |v.nodes|
    ensures var v' := United(v, a, o, op); WellFormed(v') && v'.nodes == v.nodes && v'.index == v.index
  {
    if op.IsCausal() {
      UnitedTogether(v, a, o, op);
    }
  }

  lemma ObservedKeeps(v: View, links: seq<Graph.Edge>, e: Event, ttps: seq<Events.Ttp>)
    requires WellFormed(v) && Tracks(v, links)
    ensures WellFormed(Observed(v, e, ttps)) && Tracks(Observed(v, e, ttps), links + LinkOf(e))
  {
    NodesKnown(v, e);
    var known := WithNodes(v, e);
    var united := United(known, known.index[e.actor], known.index[e.target], e.op);
    assert Tracks(known, links) by {
      ResolvedKeeps(v, links, e.actor);
      ResolvedKeeps(Resolved(v, e.actor), links, e.target);
      if e.image.Some? {
        ResolvedKeeps(Resolved(Resolved(v, e.actor), e.target), links, e.image.value);
      }
    }
    UnitedKeeps(known, links, e);
    UnitedStays(known, known.index[e.actor], known.index[e.target], e.op);
    hide Tracks, United, WithNodes;
    var sid := StorylineOf(united, known.index[e.actor]);
    NotingKeeps(united, links + LinkOf(e), sid, Noted(united.storylines[sid], e.ts, ttps));
  }

  lemma NotingShape(v: View, sid: nat, s: Storyline)
    requires WellFormed(v) && sid in v.storylines
    ensures var v' := v.(storylines := v.storylines[sid := s]);
      WellFormed(v') && forall u: nat | u < |v.nodes| :: StorylineOf(v', u) == StorylineOf(v, u)
  {
    assert v.storylines[sid := s].Keys == v.storylines.Keys;
    hide Indexed, RootsOk, Placed, LiveRoots;
  }

  lemma NotingKeeps(v: View, links: seq<Graph.Edge>, sid: nat, s: Storyline)
    requires WellFormed(v) && Tracks(v, links) && sid in v.storylines
    ensures var v' := v.(storylines := v.storylines[sid := s]); WellFormed(v') && Tracks(v', links)
  {
    var v' := v.(storylines := v.storylines[sid := s]);
    assert v'.storylines.Keys == v.storylines.Keys;
    hide Graph.Connected, Indexed, RootsOk, Placed, LiveRoots;
    assert forall u: nat, w: nat | u < |v.nodes| && w < |v.nodes| :: Together(v', u, w) == Together(v, u, w);
  }

  // ----- runs -----

  type Tagged = (Event, seq<Events.Ttp>)

  // `v'` follows `v` by one event; what matching left in the actor's storyline is open.
  ghost predicate Follows(v: View, t: Tagged, v': View) {
    WellFormed(v) ==> exists after :: v' == Matched(v, t.0, t.1, after)
  }

  const NOTHING_SEEN := View([], map[], map[], map[], 0)

  // The views an engine goes through, whatever matching makes of the automata at each event.
  ghost predicate IsRun(run: seq<View>, stream: seq<Tagged>) {
    && |run| == |stream| + 1 && run[0] == NOTHING_SEEN
    && forall i | 0 <= i < |stream| :: Follows(run[i], stream[i], run[i + 1])
  }

  ghost function LinksOf(stream: seq<Tagged>, n: nat): seq<Graph.Edge>
    requires n <= |stream|
  {
    if n == 0 then [] else LinksOf(stream, n - 1) + LinkOf(stream[n - 1].0)
  }

  lemma MatchedKeeps(v: View, links: seq<Graph.Edge>, e: Event, ttps: seq<Events.Ttp>, after: Storyline)
    requires WellFormed(v) && Tracks(v, links)
    ensures WellFormed(Matched(v, e, ttps, after)) && Tracks(Matched(v, e, ttps, after), links + LinkOf(e))
  {
    ObservedKeeps(v, links, e, ttps);
    ObservedKnows(v, e, ttps);
    hide Tracks, Observed;
    var seen := Observed(v, e, ttps);
    NotingKeeps(seen, links + LinkOf(e), StorylineOf(seen, seen.index[e.actor]), after);
  }

  // Every view of every run: live storylines are the roots, and nodes share a root as the chains say.
  lemma {:induction false} RunTracks(run: seq<View>, stream: seq<Tagged>, i: nat)
    requires IsRun(run, stream) && i <= |stream|
    ensures WellFormed(run[i]) && Tracks(run[i], LinksOf(stream, i))
  {
    if i > 0 {
      RunTracks(run, stream, i - 1);
      hide WellFormed, Tracks, Matched;
      assert Follows(run[i - 1], stream[i - 1], run[i - 1 + 1]);
      var after :| run[i] == Matched(run[i - 1], stream[i - 1].0, stream[i - 1].1, after);
      MatchedKeeps(run[i - 1], LinksOf(stream, i - 1), stream[i - 1].0, stream[i - 1].1, after);
    }
  }

  // After any number of events of any run, two known keys have one root exactly when a chain of
  // causal-operation events links them, whichever storylines had more automata when they met.
  lemma SameRootIffChained(run: seq<View>, stream: seq<Tagged>, i: nat, j: Key, k: Key)
    requires IsRun(run, stream) && i <= |stream| && j in run[i].index && k in run[i].index
    ensures WellFormed(run[i])
    ensures StorylineOf(run[i], run[i].index[j]) == StorylineOf(run[i], run[i].index[k])
       <==> Graph.Connected(LinksOf(stream, i), j, k)
  {
    RunTracks(run, stream, i);
    hide IsRun, Graph.Connected, LinksOf;
    assert Together(run[i], run[i].index[j], run[i].index[k]) <==> Graph.Connected(LinksOf(stream, i), j, k);
  }

  class Engine {
    var nodes: seq<Node>
    var index: map<Key, nat>
    var storylines: map<nat, Storyline>
    var parent: Parents
    var nextSid: nat
    ghost var rank: Heights

    ghost predicate Valid()
      reads this
    {
      Forest(parent, rank) && WellFormed(Seen())
    }

    ghost function Seen(): View
      requires Forest(parent, rank)
      reads this
    {
      View(nodes, index, storylines, Roots(parent, rank), nextSid)
    }

    constructor ()
      ensures Valid() && Seen() == NOTHING_SEEN
    {
      nodes, index, storylines, parent, nextSid, rank := [], map[], map[], map[], 0, map[];
    }

    // Two passes: up to the root, then again to point every node on the way at it.
    method Find(sid: nat) returns (root: nat)
      requires Forest(parent, rank)
      modifies `parent
      ensures Forest(parent, rank) && Roots(parent, rank) == old(Roots(parent, rank))
      ensures root == if sid in parent then Root(parent, rank, sid) else sid
      ensures sid in parent ==> parent[sid] == root
    {
      hide Forest, Root, Roots;
      root := sid;
      while root in parent && parent[root] != root
        invariant parent == old(parent) && Forest(parent, rank)
        invariant sid in parent ==> root in parent && Root(parent, rank, root) == Root(parent, rank, sid)
        invariant sid !in parent ==> root == sid
        decreases Height(rank, root)
      {
        Up(parent, rank, root);
        root := parent[root];
      }
      var cur := sid;
      while cur in parent && parent[cur] != root
        invariant Forest(parent, rank) && Roots(parent, rank) == old(Roots(parent, rank))
            && parent.Keys == old(parent.Keys)
        invariant sid in parent ==> cur in parent && Root(parent, rank, cur) == root == Root(parent, rank, sid)
        invariant cur == sid || (sid in parent && parent[sid] == root)
        invariant sid !in parent ==> root == cur == sid
        decreases Height(rank, cur)
      {
        var p := parent[cur];
        Compressed(parent, rank, cur, sid);
        parent := parent[cur := root];
        cur := p;
      }
    }

    method NewStoryline() returns (sid: nat)
      requires Valid()
      modifies `parent, `storylines, `nextSid
      ensures sid == old(nextSid) && nodes == old(nodes) && index == old(index)
      ensures Forest(parent, rank)
      ensures Seen() == var v := old(Seen());
        v.(storylines := v.storylines[sid := EMPTY], roots := v.roots[sid := sid], nextSid := sid + 1)
    {
      hide Forest, Roots, WellFormed;
      sid := nextSid;
      FreshSid(Seen(), parent, rank);
      NewRoot(parent, rank, sid);
      nextSid := nextSid + 1;
      parent := parent[sid := sid];
      storylines := storylines[sid := EMPTY];
    }

    method Resolve(key: Key) returns (uid: nat)
      requires Valid()
      modifies this
      ensures Valid() && Seen() == Resolved(old(Seen()), key)
      ensures key in index && uid == index[key]
      ensures forall k | k in old(index) :: k in index && index[k] == old(index)[k]
      ensures key !in old(index) ==>
        && uid == |old(nodes)| && nodes == old(nodes) + [Node(key, old(nextSid))]
        && storylines == old(storylines)[old(nextSid) := Storyline(map[], [], 0.0, 0)]
    {
      hide Forest, Roots, RootsOk, LiveRoots, Placed, Together;
      ResolvedShape(Seen(), key);
      if key in index {
        return index[key];
      }
      var sid := NewStoryline();
      uid := |nodes|;
      nodes := nodes + [Node(key, sid)];
      index := index[key := uid];
    }

    method StorylineId(uid: nat) returns (root: nat)
      requires Valid() && uid < |nodes|
      modifies `parent
      ensures Valid() && Seen() == old(Seen()) && root == StorylineOf(Seen(), uid)
    {
      hide Indexed, RootsOk, LiveRoots, Forest, Root;
      assert nodes[uid].sid in Roots(parent, rank);
      root := Find(nodes[uid].sid);
      assert Roots(parent, rank)[nodes[uid].sid] == root;
    }

    // Union by number of automata; the child's storyline is folded into the root's.
    method Merge(a: nat, b: nat) returns (root: nat)
      requires Valid() && a in storylines && b in storylines && a != b
      modifies `parent, `storylines, `rank
      ensures Valid() && Seen() == Merged(old(Seen()), a, b) && root == Kept(old(Seen()), a, b)
      ensures Folded(old(storylines), storylines, a, b, root)
    {
      hide Forest, Roots, WellFormed, Joined, Lifted, Folded, TookIn;
      MergedShape(Seen(), a, b);
      MergedFolds(Seen(), a, b);
      var child;
      if |storylines[a].automata| >= |storylines[b].automata| {
        root, child := a, b;
      } else {
        root, child := b, a;
      }
      LiveIsRoot(Seen(), parent, rank, child);
      LiveIsRoot(Seen(), parent, rank, root);
      rank := Attach(parent, rank, child, root);
      parent := parent[child := root];
      var story := TakeIn(storylines[root], storylines[child]);
      storylines := (storylines - {child})[root := story];
    }

    method Unify(actor: nat, target: nat, op: Op) returns (sid: nat)
      requires Valid() && actor < |nodes| && target < |nodes|
      modifies this
      ensures Valid() && Seen() == United(old(Seen()), actor, target, op)
      ensures Causal(op) ==> Together(Seen(), actor, target)
      ensures !Causal(op) ==> Seen() == old(Seen())
      ensures actor < |nodes| && sid == StorylineOf(Seen(), actor)
    {
      hide Indexed, RootsOk, LiveRoots, Placed, Forest, Roots, StorylineOf, Together, Causal;
      UnitedStays(Seen(), actor, target, op);
      UnitedTogetherNow(Seen(), actor, target, op);
      var first := StorylineId(actor);
      if !op.IsCausal() {
        return first;
      }
      var second := StorylineId(target);
      if first == second {
        return first;
      }
      MergedShape(Seen(), first, second);
      sid := Merge(first, second);
    }

    // Everything an event does before pattern matching.
    method Observe(e: Event, ttps: seq<Events.Ttp>) returns (sid: nat)
      requires Valid()
      modifies this
      ensures Valid() && Seen() == Observed(old(Seen()), e, ttps)
      ensures e.actor in index && index[e.actor] < |nodes| && sid == StorylineOf(Seen(), index[e.actor])
      ensures storylines[sid].lastActivity == e.ts && |storylines[sid].history| >= |ttps|
      ensures var h := storylines[sid].history;
        forall i | 0 <= i < |ttps| :: h[|h| - |ttps| + i] == (ttps[i], e.ts)
    {
      hide Indexed, RootsOk, LiveRoots, Placed, Forest, Roots, StorylineOf, Resolved, United;
      NodesKnown(Seen(), e);
      ghost var v := Seen();
      var actor := Resolve(e.actor);
      ResolvedStable(Seen(), e.target, e.actor);
      var target := Resolve(e.target);
      if e.image.Some? {
        ResolvedStable(Seen(), e.image.value, e.actor);
        ResolvedStable(Seen(), e.image.value, e.target);
        var image := Resolve(e.image.value);
      }
      sid := Unify(actor, target, e.op);
      assert actor == WithNodes(v, e).index[e.actor] && target == WithNodes(v, e).index[e.target];
      UnitedStays(WithNodes(v, e), actor, target, e.op);
      NotingShape(Seen(), sid, Noted(storylines[sid], e.ts, ttps));
      storylines := storylines[sid := Noted(storylines[sid], e.ts, ttps)];
    }

    // `matching` stands for the rules' work on the storyline of the actor.
    method OnEvent(e: Event, ttps: seq<Events.Ttp>, matching: Storyline -> Storyline)
      requires Valid()
      modifies this
      ensures Valid() && Seen() == Matched(old(Seen()), e, ttps, matching(NotedStory(old(Seen()), e, ttps)))
    {
      hide WellFormed, Forest, Roots, StorylineOf, Observed;
      ghost var v := Seen();
      var sid := Observe(e, ttps);
      ObservedKnows(v, e, ttps);
      NotingShape(Seen(), sid, matching(storylines[sid]));
      storylines := storylines[sid := matching(storylines[sid])];
    }

    // Whatever the rules do, a stream of events takes the engine along one of its runs.
    method OnEvents(stream: seq<Tagged>, matching: Storyline -> Storyline)
      requires Valid() && Seen() == NOTHING_SEEN
      modifies this
      ensures Valid() && exists run :: IsRun(run, stream) && Seen() == run[|stream|]
    {
      hide WellFormed, Forest, Roots, Matched, NotedStory;
      ghost var run := [Seen()];
      for i := 0 to |stream|
        invariant Valid() && IsRun(run, stream[..i]) && Seen() == run[i]
      {
        OnEvent(stream[i].0, stream[i].1, matching);
        run := run + [Seen()];
        assert stream[..i + 1][..i] == stream[..i];
        assert Follows(run[i], stream[i], run[i + 1]);
        ExtendRun(run[..i + 1], stream[..i + 1], run[i + 1]);
      }
      assert stream[..|stream|] == stream;
    }
  }

  lemma ExtendRun(run: seq<View>, stream: seq<Tagged>, v: View)
    requires stream != [] && IsRun(run, stream[..|stream| - 1])
    requires Follows(run[|stream| - 1], stream[|stream| - 1], v)
    ensures IsRun(run + [v], stream)
  {
    hide Follows;
    var longer, n := run + [v], |stream| - 1;
    forall i | 0 <= i < |stream|
      ensures Follows(longer[i], stream[i], longer[i + 1])
    {
      assert i < n ==> Follows(run[i], stream[..n][i], run[i + 1]);
    }
  }

  lemma FreshSid(v: View, parent: Parents, rank: Heights)
    requires WellFormed(v) && Forest(parent, rank) && v.roots == Roots(parent, rank)
    ensures v.nextSid !in parent
  {
    hide Forest, Roots, Indexed, LiveRoots, Placed;
    assert v.nextSid !in v.roots;
  }

  lemma LiveIsRoot(v: View, parent: Parents, rank: Heights, x: nat)
    requires WellFormed(v) && Forest(parent, rank) && v.roots == Roots(parent, rank) && x in v.storylines
    ensures IsRoot(parent, x)
  {
    hide RootsOk, Indexed, Placed;
    assert v.roots[x] == Root(parent, rank, x);
  }

  lemma ResolvedStable(v: View, key: Key, other: Key)
    requires other in v.index
    ensures other in Resolved(v, key).index
    ensures Indexed(v.nodes, v.index) ==> Resolved(v, key).index[other] == v.index[other]
    ensures |v.nodes| <= |Resolved(v, key).nodes|
  {
  }

  lemma Compressed(parent: Parents, rank: Heights, x: nat, y: nat)
    requires Forest(parent, rank) && x in parent && parent[x] != Root(parent, rank, x) && y in parent
    ensures var parent' := parent[x := Root(parent, rank, x)];
      && Forest(parent', rank) && Roots(parent', rank) == Roots(parent, rank) && parent'.Keys == parent.Keys
      && parent[x] in parent
      && Root(parent', rank, parent[x]) == Root(parent, rank, x) && Root(parent', rank, y) == Root(parent, rank, y)
      && Height(rank, parent[x]) < Height(rank, x)
  {
    hide Forest, Root, Roots;
    var parent' := parent[x := Root(parent, rank, x)];
    CompressKeeps(parent, rank, x);
    Up(parent, rank, x);
    SameRoots(parent, parent', rank, parent[x]);
    SameRoots(parent, parent', rank, y);
  }

  lemma SameRoots(before: Parents, after: Parents, rank: Heights, x: nat)
    requires Forest(before, rank) && Forest(after, rank) && Roots(before, rank) == Roots(after, rank) && x in before
    ensures x in after && Root(after, rank, x) == Root(before, rank, x)
  {
    assert x in Roots(before, rank);
    assert x in Roots(after, rank);
  }
}

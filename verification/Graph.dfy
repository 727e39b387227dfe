/** Connected components of the provenance graph, and the storylines that track them. */
module Graph {
  import opened Events
  import opened Storylines

  datatype Edge = Edge(from: Key, to: Key, op: Op, ts: nat)

  ghost predicate Joins(e: Edge, x: Key, y: Key) {
    (e.from == x && e.to == y) || (e.from == y && e.to == x)
  }

  ghost predicate Adjacent(edges: seq<Edge>, x: Key, y: Key) {
    exists i | 0 <= i < |edges| :: Joins(edges[i], x, y)
  }

  ghost predicate Path(edges: seq<Edge>, p: seq<Key>) {
    |p| > 0 && forall i | 0 <= i < |p| - 1 :: Adjacent(edges, p[i], p[i + 1])
  }

  ghost predicate PathBetween(edges: seq<Edge>, p: seq<Key>, a: Key, b: Key) {
    Path(edges, p) && p[0] == a && p[|p| - 1] == b
  }

  // Connected in the undirected graph of the edges.
  ghost predicate Connected(edges: seq<Edge>, a: Key, b: Key) {
    exists p :: PathBetween(edges, p, a, b)
  }

  ghost predicate IsEndpoint(edges: seq<Edge>, k: Key) {
    exists i | 0 <= i < |edges| :: edges[i].from == k || edges[i].to == k
  }

  // The storylines hold exactly the endpoints; an edge never leaves a storyline; a storyline is connected.
  ghost predicate Components<A>(edges: seq<Edge>, lines: Lines<A>) {
    && Partition(lines)
    && (forall k :: k in lines <==> IsEndpoint(edges, k))
    && (forall i | 0 <= i < |edges| :: edges[i].from in lines && edges[i].to in lines[edges[i].from].members)
    && (forall k, j | k in lines && j in lines[k].members :: Connected(edges, k, j))
  }

  lemma ConnectedSelf(edges: seq<Edge>, a: Key)
    ensures Connected(edges, a, a)
  {
    assert PathBetween(edges, [a], a, a);
  }

  lemma ConnectedJoin(edges: seq<Edge>, a: Key, b: Key, c: Key)
    requires Connected(edges, a, b) && Connected(edges, b, c)
    ensures Connected(edges, a, c)
  {
    var p :| PathBetween(edges, p, a, b);
    var q :| PathBetween(edges, q, b, c);
    var r := p + q[1..];
    forall i | 0 <= i < |r| - 1
      ensures Adjacent(edges, r[i], r[i + 1])
    {
      if i < |p| - 1 {
        assert Adjacent(edges, p[i], p[i + 1]);
      } else {
        assert Adjacent(edges, q[i - |p| + 1], q[i - |p| + 2]);
      }
    }
    assert PathBetween(edges, r, a, c);
  }

  lemma ConnectedBack(edges: seq<Edge>, a: Key, b: Key)
    requires Connected(edges, a, b)
    ensures Connected(edges, b, a)
  {
    var p :| PathBetween(edges, p, a, b);
    var r := seq(|p|, i requires 0 <= i < |p| => p[|p| - 1 - i]);
    forall i | 0 <= i < |r| - 1
      ensures Adjacent(edges, r[i], r[i + 1])
    {
      var j := |p| - 2 - i;
      assert Adjacent(edges, p[j], p[j + 1]);
      var e :| 0 <= e < |edges| && Joins(edges[e], p[j], p[j + 1]);
      assert Joins(edges[e], r[i], r[i + 1]);
    }
    assert PathBetween(edges, r, b, a);
  }

  lemma ConnectedMore(edges: seq<Edge>, e: Edge, a: Key, b: Key)
    requires Connected(edges, a, b)
    ensures Connected(edges + [e], a, b)
  {
    var p :| PathBetween(edges, p, a, b);
    forall i | 0 <= i < |p| - 1
      ensures Adjacent(edges + [e], p[i], p[i + 1])
    {
      assert Adjacent(edges, p[i], p[i + 1]);
      var x :| 0 <= x < |edges| && Joins(edges[x], p[i], p[i + 1]);
      assert Joins((edges + [e])[x], p[i], p[i + 1]);
    }
    assert PathBetween(edges + [e], p, a, b);
  }

  lemma ConnectedByLast(edges: seq<Edge>, e: Edge)
    ensures Connected(edges + [e], e.from, e.to)
  {
    var all := edges + [e];
    assert Joins(all[|edges|], e.from, e.to);
    assert PathBetween(all, [e.from, e.to], e.from, e.to);
  }

  // What one more edge connects: the old connections, and those that cross it in either direction.
  lemma ConnectedWithLast(edges: seq<Edge>, e: Edge, a: Key, b: Key)
    ensures Connected(edges + [e], a, b) <==>
      || Connected(edges, a, b)
      || (Connected(edges, a, e.from) && Connected(edges, e.to, b))
      || (Connected(edges, a, e.to) && Connected(edges, e.from, b))
  {
    hide Connected;
    var all := edges + [e];
    ConnectedByLast(edges, e);
    ConnectedBack(all, e.from, e.to);
    if Connected(edges, a, b) {
      ConnectedMore(edges, e, a, b);
    }
    if Connected(edges, a, e.from) && Connected(edges, e.to, b) {
      Crosses(edges, e, a, e.from, e.to, b);
    }
    if Connected(edges, a, e.to) && Connected(edges, e.from, b) {
      Crosses(edges, e, a, e.to, e.from, b);
    }
    if Connected(all, a, b) {
      CrossesAtMostOnce(edges, e, a, b);
    }
  }

  lemma Crosses(edges: seq<Edge>, e: Edge, a: Key, x: Key, y: Key, b: Key)
    requires Connected(edges, a, x) && Connected(edges + [e], x, y) && Connected(edges, y, b)
    ensures Connected(edges + [e], a, b)
  {
    hide Connected;
    ConnectedMore(edges, e, a, x);
    ConnectedMore(edges, e, y, b);
    ConnectedJoin(edges + [e], a, x, y);
    ConnectedJoin(edges + [e], a, y, b);
  }

  ghost predicate OneCrossing(edges: seq<Edge>, e: Edge, a: Key, b: Key) {
    || Connected(edges, a, b)
    || (Connected(edges, a, e.from) && Connected(edges, e.to, b))
    || (Connected(edges, a, e.to) && Connected(edges, e.from, b))
  }

  lemma CrossesAtMostOnce(edges: seq<Edge>, e: Edge, a: Key, b: Key)
    requires Connected(edges + [e], a, b)
    ensures OneCrossing(edges, e, a, b)
  {
    var p :| PathBetween(edges + [e], p, a, b);
    PathCrosses(edges, e, p, |p| - 1);
  }

  lemma {:induction false} PathCrosses(edges: seq<Edge>, e: Edge, p: seq<Key>, n: nat)
    requires Path(edges + [e], p) && n < |p|
    ensures OneCrossing(edges, e, p[0], p[n])
  {
    hide Connected;
    if n == 0 {
      ConnectedSelf(edges, p[0]);
    } else {
      PathCrosses(edges, e, p, n - 1);
      assert Adjacent(edges + [e], p[n - 1], p[n - 1 + 1]);
      var i :| 0 <= i < |edges + [e]| && Joins((edges + [e])[i], p[n - 1], p[n]);
      if i < |edges| {
        OldStep(edges, p[n - 1], p[n], i);
        ExtendCrossing(edges, e, p[0], p[n - 1], p[n]);
      } else {
        LastStep(edges, e, p[0], p[n - 1], p[n]);
      }
    }
  }

  lemma OldStep(edges: seq<Edge>, x: Key, y: Key, i: nat)
    requires i < |edges| && Joins(edges[i], x, y)
    ensures Connected(edges, x, y)
  {
    assert PathBetween(edges, [x, y], x, y);
  }

  lemma ExtendCrossing(edges: seq<Edge>, e: Edge, a: Key, x: Key, y: Key)
    requires OneCrossing(edges, e, a, x) && Connected(edges, x, y)
    ensures OneCrossing(edges, e, a, y)
  {
    hide Connected;
    if Connected(edges, a, x) {
      ConnectedJoin(edges, a, x, y);
    } else if Connected(edges, e.to, x) && Connected(edges, a, e.from) {
      ConnectedJoin(edges, e.to, x, y);
    } else {
      ConnectedJoin(edges, e.from, x, y);
    }
  }

  lemma LastStep(edges: seq<Edge>, e: Edge, a: Key, x: Key, y: Key)
    requires OneCrossing(edges, e, a, x) && Joins(e, x, y)
    ensures OneCrossing(edges, e, a, y)
  {
    hide Connected;
    ConnectedSelf(edges, y);
  }

  // A key no edge touches is connected to itself alone.
  lemma IsolatedKey(edges: seq<Edge>, k: Key, j: Key)
    requires !IsEndpoint(edges, k)
    ensures Connected(edges, k, j) <==> k == j
    ensures Connected(edges, j, k) <==> k == j
  {
    ConnectedSelf(edges, k);
    if Connected(edges, k, j) {
      NoWayOut(edges, k, j);
    }
    if Connected(edges, j, k) {
      ConnectedBack(edges, j, k);
      NoWayOut(edges, k, j);
    }
  }

  lemma NoWayOut(edges: seq<Edge>, k: Key, j: Key)
    requires !IsEndpoint(edges, k) && Connected(edges, k, j)
    ensures k == j
  {
    var p :| PathBetween(edges, p, k, j);
    if |p| > 1 {
      FirstHop(edges, p);
    }
  }

  lemma FirstHop(edges: seq<Edge>, p: seq<Key>)
    requires Path(edges, p) && |p| > 1
    ensures IsEndpoint(edges, p[0])
  {
    assert Adjacent(edges, p[0], p[0 + 1]);
    var i :| 0 <= i < |edges| && Joins(edges[i], p[0], p[1]);
  }

  // A path never leaves the storyline it starts in.
  lemma {:induction false} PathStaysInside<A>(edges: seq<Edge>, lines: Lines<A>, p: seq<Key>, n: nat)
    requires Components(edges, lines) && Path(edges, p) && p[0] in lines && n < |p|
    ensures p[n] in lines && p[n] in lines[p[0]].members
  {
    if n > 0 {
      PathStaysInside(edges, lines, p, n - 1);
      assert Adjacent(edges, p[n - 1], p[n - 1 + 1]);
      var i :| 0 <= i < |edges| && Joins(edges[i], p[n - 1], p[n]);
    }
  }

  // Two known keys share a storyline exactly when they are connected.
  lemma StorylinesAreComponents<A>(edges: seq<Edge>, lines: Lines<A>, a: Key, b: Key)
    requires Components(edges, lines) && a in lines
    ensures b in lines[a].members <==> Connected(edges, a, b)
  {
    if Connected(edges, a, b) {
      var p :| PathBetween(edges, p, a, b);
      PathStaysInside(edges, lines, p, |p| - 1);
    }
  }

  // ----- one more edge -----

  lemma EndpointsMore(edges: seq<Edge>, e: Edge, k: Key)
    ensures IsEndpoint(edges + [e], k) <==> IsEndpoint(edges, k) || k == e.from || k == e.to
  {
    var all := edges + [e];
    if IsEndpoint(edges, k) {
      var i :| 0 <= i < |edges| && (edges[i].from == k || edges[i].to == k);
      assert all[i].from == k || all[i].to == k;
    }
    if k == e.from || k == e.to {
      assert all[|edges|].from == k || all[|edges|].to == k;
    }
  }

  ghost function MembersAt<A>(lines: Lines<A>, k: Key): set<Key> {
    if k in lines then lines[k].members else {k}
  }

  lemma ResolvedMembers<A>(lines: Lines<A>, a: Key)
    ensures Resolved(lines, a).Keys == lines.Keys + {a}
    ensures forall k :: MembersAt(Resolved(lines, a), k) == MembersAt(lines, k)
  {
  }

  // The keys and member sets of the unbounded link of `a` and `o`.
  lemma LinkedMembers<A>(lines: Lines<A>, a: Key, o: Key)
    requires Partition(lines)
    ensures var r, both := Link(UNBOUNDED, lines, a, o), MembersAt(lines, a) + MembersAt(lines, o);
      && r.Linked? && Partition(r.lines) && r.lines.Keys == lines.Keys + {a, o}
      && forall k | k in r.lines :: r.lines[k].members == if k in both then both else MembersAt(lines, k)
  {
    hide Merge, Resolve, Partition;
    LinkKeepsPartition(UNBOUNDED, lines, a, o);
    var l1 := Resolved(lines, a);
    var l2 := Resolved(l1, o);
    AlwaysResolves(lines, a);
    ResolveKeepsPartition(UNBOUNDED, lines, a);
    ResolvedMembers(lines, a);
    AlwaysResolves(l1, o);
    ResolveKeepsPartition(UNBOUNDED, l1, o);
    ResolvedMembers(l1, o);
    LinkedBy(UNBOUNDED, lines, l1, l2, a, o);
    hide Link, Resolved;
    assert l2[a].members == MembersAt(lines, a) && l2[o].members == MembersAt(lines, o);
    MergedMembers(l2, a, o);
  }

  lemma MergedMembers<A>(lines: Lines<A>, a: Key, o: Key)
    requires Partition(lines) && a in lines && o in lines
    ensures var r, both := Merge(UNBOUNDED, lines, a, o), lines[a].members + lines[o].members;
      && r.Keys == lines.Keys
      && forall k | k in r :: r[k].members == if k in both then both else lines[k].members
  {
    if o in lines[a].members {
      assert lines[o] == lines[a];
    }
  }

  lemma MembersAgree<A>(lines: Lines<A>, k: Key, j: Key, a: Key)
    requires Partition(lines)
    ensures a in MembersAt(lines, a)
    ensures k in lines && j in lines[k].members && k in MembersAt(lines, a) ==> j in MembersAt(lines, a)
  {
  }

  lemma LinkKeepsComponents<A>(edges: seq<Edge>, lines: Lines<A>, e: Edge)
    requires Components(edges, lines)
    ensures var r := Link(UNBOUNDED, lines, e.from, e.to);
      r.Linked? && e.from in r.lines && Components(edges + [e], r.lines)
  {
    hide Link, Connected, IsEndpoint, Partition;
    var all, a, o := edges + [e], e.from, e.to;
    LinkedMembers(lines, a, o);
    var r := Link(UNBOUNDED, lines, a, o).lines;
    forall k
      ensures k in r <==> IsEndpoint(all, k)
    {
      EndpointsMore(edges, e, k);
    }
    forall k, j | k in r && j in r[k].members
      ensures Connected(all, k, j)
    {
      ReachedByOld(edges, lines, e, k, j);
    }
    forall i | 0 <= i < |all|
      ensures all[i].from in r && all[i].to in r[all[i].from].members
    {
      MembersAgree(lines, all[i].from, all[i].to, a);
      MembersAgree(lines, all[i].from, all[i].to, o);
      if i < |edges| {
        assert edges[i].from in lines && edges[i].to in lines[edges[i].from].members;
      }
    }
  }

  // Within the linked storylines, every two members are connected through the old ones or the new edge.
  lemma ReachedByOld<A>(edges: seq<Edge>, lines: Lines<A>, e: Edge, k: Key, j: Key)
    requires Components(edges, lines)
    requires var r := Link(UNBOUNDED, lines, e.from, e.to); r.Linked? && k in r.lines && j in r.lines[k].members
    ensures Connected(edges + [e], k, j)
  {
    hide Link, Connected, IsEndpoint;
    LinkedMembers(lines, e.from, e.to);
    var all := edges + [e];
    if k in MembersAt(lines, e.from) + MembersAt(lines, e.to) {
      ToFrom(edges, lines, e, k);
      ToFrom(edges, lines, e, j);
      ConnectedBack(all, j, e.from);
      ConnectedJoin(all, k, e.from, j);
    } else {
      assert k in lines;
      ConnectedMore(edges, e, k, j);
    }
  }

  lemma ToFrom<A>(edges: seq<Edge>, lines: Lines<A>, e: Edge, k: Key)
    requires Components(edges, lines)
    requires k in MembersAt(lines, e.from) || k in MembersAt(lines, e.to)
    ensures Connected(edges + [e], k, e.from)
  {
    var all := edges + [e];
    ConnectedSelf(all, k);
    ConnectedByLast(edges, e);
    ConnectedBack(all, e.from, e.to);
    if e.from in lines && k in lines[e.from].members {
      ConnectedMore(edges, e, e.from, k);
      ConnectedBack(all, e.from, k);
    } else if e.to in lines && k in lines[e.to].members {
      ConnectedMore(edges, e, e.to, k);
      ConnectedBack(all, e.to, k);
      ConnectedJoin(all, k, e.to, e.from);
    }
  }

  // Rewriting a storyline without touching its members changes no component.
  lemma InstallKeepsComponents<A>(edges: seq<Edge>, lines: Lines<A>, k: Key, s: Story<A>)
    requires Components(edges, lines) && k in lines && s.members == lines[k].members
    ensures Components(edges, Install(lines, s))
  {
    InstalledMembers(lines, k, s);
    hide Install, Partition, Connected, IsEndpoint;
  }

  lemma InstalledMembers<A>(lines: Lines<A>, k: Key, s: Story<A>)
    requires Partition(lines) && k in lines && s.members == lines[k].members
    ensures Partition(Install(lines, s)) && Install(lines, s).Keys == lines.Keys
    ensures forall j | j in lines :: Install(lines, s)[j].members == lines[j].members
  {
    InstallKeepsPartition(lines, s);
  }
}

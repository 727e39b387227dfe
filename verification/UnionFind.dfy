/** The union-find forest over storyline ids. */
module UnionFind {

  type Parents = map<nat, nat>

  // A witness that following parents ends.
  type Heights = map<nat, nat>

  function Height(rank: Heights, x: nat): nat {
    if x in rank then rank[x] else 0
  }

  ghost predicate Climbs(parent: Parents, rank: Heights, x: nat) {
    x in parent ==> parent[x] in parent && (parent[x] != x ==> Height(rank, parent[x]) < Height(rank, x))
  }

  // The height falls on every step but a root's own.
  ghost predicate Forest(parent: Parents, rank: Heights) {
    forall x {:trigger Climbs(parent, rank, x)} :: Climbs(parent, rank, x)
  }

  ghost predicate IsRoot(parent: Parents, x: nat) {
    x in parent && parent[x] == x
  }

  ghost function Root(parent: Parents, rank: Heights, x: nat): (r: nat)
    requires Forest(parent, rank) && x in parent
    ensures IsRoot(parent, r)
    ensures r == x <==> IsRoot(parent, x)
    decreases Height(rank, x)
  {
    assert Climbs(parent, rank, x);
    if parent[x] == x then x else Root(parent, rank, parent[x])
  }

  ghost function Roots(parent: Parents, rank: Heights): (roots: map<nat, nat>)
    requires Forest(parent, rank)
    ensures roots.Keys == parent.Keys
  {
    map x | x in parent :: Root(parent, rank, x)
  }

  lemma Up(parent: Parents, rank: Heights, x: nat)
    requires Forest(parent, rank) && x in parent && parent[x] != x
    ensures parent[x] in parent && Root(parent, rank, parent[x]) == Root(parent, rank, x)
    ensures Height(rank, parent[x]) < Height(rank, x)
  {
    assert Climbs(parent, rank, x);
  }

  lemma {:induction false} RootBelow(parent: Parents, rank: Heights, x: nat)
    requires Forest(parent, rank) && x in parent
    ensures Root(parent, rank, x) == x || Height(rank, Root(parent, rank, x)) < Height(rank, x)
    decreases Height(rank, x)
  {
    if parent[x] != x {
      Up(parent, rank, x);
      RootBelow(parent, rank, parent[x]);
    }
  }

  // The witness does not matter: roots are a property of the parent map.
  lemma {:induction false} RootIsUnique(parent: Parents, rank: Heights, rank': Heights, x: nat)
    requires Forest(parent, rank) && Forest(parent, rank') && x in parent
    ensures Root(parent, rank, x) == Root(parent, rank', x)
    decreases Height(rank, x)
  {
    if parent[x] != x {
      Up(parent, rank, x);
      Up(parent, rank', x);
      RootIsUnique(parent, rank, rank', parent[x]);
    }
  }

  // ----- path compression -----

  // Pointing a node straight at its root moves no node to another root.
  lemma CompressKeeps(parent: Parents, rank: Heights, x: nat)
    requires Forest(parent, rank) && x in parent && parent[x] != x
    ensures var parent' := parent[x := Root(parent, rank, x)];
      Forest(parent', rank) && Roots(parent', rank) == Roots(parent, rank)
  {
    var parent' := parent[x := Root(parent, rank, x)];
    RootBelow(parent, rank, x);
    forall y
      ensures Climbs(parent', rank, y)
    {
      assert Climbs(parent, rank, y);
    }
    forall y | y in parent
      ensures Root(parent', rank, y) == Root(parent, rank, y)
    {
      CompressedRoot(parent, rank, x, y);
    }
  }

  lemma {:induction false} CompressedRoot(parent: Parents, rank: Heights, x: nat, y: nat)
    requires Forest(parent, rank) && x in parent && parent[x] != x && y in parent
    requires Forest(parent[x := Root(parent, rank, x)], rank)
    ensures Root(parent[x := Root(parent, rank, x)], rank, y) == Root(parent, rank, y)
    decreases Height(rank, y)
  {
    var parent' := parent[x := Root(parent, rank, x)];
    if y == x {
      assert IsRoot(parent', parent'[x]);
      Up(parent', rank, x);
    } else if parent[y] != y {
      Up(parent, rank, y);
      Up(parent', rank, y);
      CompressedRoot(parent, rank, x, parent[y]);
    }
  }

  // ----- attaching one root below another -----

  ghost function Lifted(parent: Parents, rank: Heights, child: nat, lift: nat): Heights
    requires Forest(parent, rank)
  {
    map x | x in parent :: if Root(parent, rank, x) == child then Height(rank, x) + lift else Height(rank, x)
  }

  // What attaching does to the root of every node.
  function Reroot(roots: map<nat, nat>, child: nat, root: nat): map<nat, nat> {
    map x | x in roots :: if roots[x] == child then root else roots[x]
  }

  lemma AttachedForest(parent: Parents, rank: Heights, child: nat, root: nat)
    requires Forest(parent, rank) && IsRoot(parent, child) && IsRoot(parent, root) && child != root
    ensures Forest(parent[child := root], Lifted(parent, rank, child, Height(rank, root) + 1))
  {
    var parent', rank' := parent[child := root], Lifted(parent, rank, child, Height(rank, root) + 1);
    forall x
      ensures Climbs(parent', rank', x)
    {
      assert Climbs(parent, rank, x);
      if x in parent && parent[x] != x {
        Up(parent, rank, x);
      }
    }
  }

  lemma Attach(parent: Parents, rank: Heights, child: nat, root: nat) returns (rank': Heights)
    requires Forest(parent, rank) && IsRoot(parent, child) && IsRoot(parent, root) && child != root
    ensures Forest(parent[child := root], rank')
    ensures Roots(parent[child := root], rank') == Reroot(Roots(parent, rank), child, root)
  {
    hide Forest, Root, Lifted;
    rank' := Lifted(parent, rank, child, Height(rank, root) + 1);
    AttachedForest(parent, rank, child, root);
    forall x | x in parent
      ensures Root(parent[child := root], rank', x)
           == if Root(parent, rank, x) == child then root else Root(parent, rank, x)
    {
      AttachedRoot(parent, rank, rank', child, root, x);
    }
  }

  lemma {:induction false} AttachedRoot(parent: Parents, rank: Heights, rank': Heights, child: nat, root: nat, x: nat)
    requires Forest(parent, rank) && IsRoot(parent, child) && IsRoot(parent, root) && child != root && x in parent
    requires Forest(parent[child := root], rank')
    ensures Root(parent[child := root], rank', x)
         == if Root(parent, rank, x) == child then root else Root(parent, rank, x)
    decreases Height(rank, x)
  {
    var parent' := parent[child := root];
    assert IsRoot(parent', root);
    if x == child {
      Up(parent', rank', x);
    } else if parent[x] != x {
      Up(parent, rank, x);
      Up(parent', rank', x);
      AttachedRoot(parent, rank, rank', child, root, parent[x]);
    }
  }

  // ----- a new id -----

  // It is its own root and changes no other.
  lemma NewRoot(parent: Parents, rank: Heights, x: nat)
    requires Forest(parent, rank) && x !in parent
    ensures Forest(parent[x := x], rank) && Roots(parent[x := x], rank) == Roots(parent, rank)[x := x]
  {
    var parent' := parent[x := x];
    forall y
      ensures Climbs(parent', rank, y)
    {
      assert Climbs(parent, rank, y);
    }
    forall y | y in parent
      ensures Root(parent', rank, y) == Root(parent, rank, y)
    {
      OldRoot(parent, rank, x, y);
    }
  }

  lemma {:induction false} OldRoot(parent: Parents, rank: Heights, x: nat, y: nat)
    requires Forest(parent, rank) && x !in parent && y in parent && Forest(parent[x := x], rank)
    ensures Root(parent[x := x], rank, y) == Root(parent, rank, y)
    decreases Height(rank, y)
  {
    if parent[y] != y {
      Up(parent, rank, y);
      Up(parent[x := x], rank, y);
      OldRoot(parent, rank, x, parent[y]);
    }
  }
}

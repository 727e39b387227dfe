/** Images and effect sums of finite multisets, independent of any enumeration order. */
module Multisets {
  import opened Events

  ghost function Image<A, B>(f: A -> B, m: multiset<A>): (r: multiset<B>)
    ensures |r| == |m|
    decreases |m|
  {
    if m == multiset{} then multiset{} else
    var x :| x in m;
    Image(f, m - multiset{x}) + multiset{f(x)}
  }

  lemma ImageNone<A, B>(f: A -> B)
    ensures Image(f, multiset{}) == multiset{}
  {
  }

  lemma ImageSplits<A, B>(f: A -> B, m: multiset<A>) returns (y: A)
    requires m != multiset{}
    ensures y in m && Image(f, m) == Image(f, m - multiset{y}) + multiset{f(y)}
  {
    y :| y in m && Image(f, m) == Image(f, m - multiset{y}) + multiset{f(y)};
  }

  lemma {:induction false} ImageTake<A, B>(f: A -> B, m: multiset<A>, x: A)
    requires x in m
    ensures Image(f, m) == Image(f, m - multiset{x}) + multiset{f(x)}
    decreases |m|
  {
    hide Image;
    var y := ImageSplits(f, m);
    if x != y {
      var rest := m - multiset{y} - multiset{x};
      assert rest == m - multiset{x} - multiset{y};
      ImageTake(f, m - multiset{y}, x);
      ImageTake(f, m - multiset{x}, y);
      assert Image(f, rest) + multiset{f(x)} + multiset{f(y)} == Image(f, rest) + multiset{f(y)} + multiset{f(x)};
    }
  }

  lemma ImageAdd<A, B>(f: A -> B, m: multiset<A>, x: A)
    ensures Image(f, m + multiset{x}) == Image(f, m) + multiset{f(x)}
  {
    ImageTake(f, m + multiset{x}, x);
    assert m + multiset{x} - multiset{x} == m;
  }

  lemma {:induction false} ImageUnion<A, B>(f: A -> B, a: multiset<A>, b: multiset<A>)
    ensures Image(f, a + b) == Image(f, a) + Image(f, b)
    decreases |b|
  {
    hide Image;
    if b == multiset{} {
      ImageNone(f);
      assert a + b == a;
    } else {
      var x :| x in b;
      ImageUnion(f, a, b - multiset{x});
      assert a + b == a + (b - multiset{x}) + multiset{x};
      ImageAdd(f, a + (b - multiset{x}), x);
      ImageTake(f, b, x);
    }
  }

  lemma {:induction false} ImageMember<A, B>(f: A -> B, m: multiset<A>, x: A)
    requires x in m
    ensures f(x) in Image(f, m)
  {
    ImageTake(f, m, x);
  }

  lemma {:induction false} ImageComesFrom<A, B>(f: A -> B, m: multiset<A>, b: B) returns (a: A)
    requires b in Image(f, m)
    ensures a in m && f(a) == b
    decreases |m|
  {
    a :| a in m;
    ImageTake(f, m, a);
    if f(a) != b {
      a := ImageComesFrom(f, m - multiset{a}, b);
    }
  }

  ghost function Count<T>(s: seq<T>, a: T): nat {
    multiset(s)[a]
  }

  lemma SplitCount<T>(x: seq<T>, y: seq<T>, a: T)
    ensures Count(x + y, a) == Count(x, a) + Count(y, a)
  {
    assert multiset(x + y) == multiset(x) + multiset(y);
  }

  lemma NoCount<T>(a: T)
    ensures Count([], a) == 0
  {
  }

  ghost function Total<A>(g: A -> Effect, m: multiset<A>): Effect
    decreases |m|
  {
    if m == multiset{} then NOTHING else
    var x :| x in m;
    Total(g, m - multiset{x}).Join(g(x))
  }

  lemma {:induction false} TotalTake<A>(g: A -> Effect, m: multiset<A>, x: A)
    requires x in m
    ensures Total(g, m) == Total(g, m - multiset{x}).Join(g(x))
    decreases |m|
  {
    var y :| y in m && Total(g, m) == Total(g, m - multiset{y}).Join(g(y));
    if x != y {
      var rest := m - multiset{y} - multiset{x};
      assert rest == m - multiset{x} - multiset{y};
      TotalTake(g, m - multiset{y}, x);
      TotalTake(g, m - multiset{x}, y);
      JoinSwaps(Total(g, rest), g(x), g(y));
    }
  }

  lemma TotalAdd<A>(g: A -> Effect, m: multiset<A>, x: A)
    ensures Total(g, m + multiset{x}) == Total(g, m).Join(g(x))
  {
    TotalTake(g, m + multiset{x}, x);
    assert m + multiset{x} - multiset{x} == m;
  }

  lemma {:induction false} TotalUnion<A>(g: A -> Effect, a: multiset<A>, b: multiset<A>)
    ensures Total(g, a + b) == Total(g, a).Join(Total(g, b))
    decreases |b|
  {
    if b == multiset{} {
      assert a + b == a;
      JoinUnit(Total(g, a));
    } else {
      var x :| x in b;
      TotalUnion(g, a, b - multiset{x});
      assert a + b == a + (b - multiset{x}) + multiset{x};
      TotalAdd(g, a + (b - multiset{x}), x);
      TotalTake(g, b, x);
      JoinAssociates(Total(g, a), Total(g, b - multiset{x}), g(x));
    }
  }

  // The number of used positions of a finite table equals the number of distinct values they hold.
  lemma {:induction false} InjectiveImageSize<T>(positions: set<nat>, f: nat -> T, values: set<T>)
    requires forall i, j | i in positions && j in positions && f(i) == f(j) :: i == j
    requires forall i | i in positions :: f(i) in values
    requires forall v | v in values :: exists i | i in positions :: f(i) == v
    ensures |positions| == |values|
    decreases |positions|
  {
    if positions == {} {
      assert values == {};
    } else {
      var i :| i in positions;
      InjectiveImageSize(positions - {i}, f, values - {f(i)});
    }
  }

  ghost function Below(n: nat): (r: set<nat>)
    ensures |r| == n && forall j: nat :: j in r <==> j < n
  {
    if n == 0 then {} else Below(n - 1) + {n - 1}
  }

  lemma {:induction false} RangeSize(positions: set<nat>, n: nat)
    requires forall i | i in positions :: i < n
    ensures |positions| <= n
    ensures |positions| == n <==> forall i | 0 <= i < n :: i in positions
    decreases n
  {
    if n == 0 {
      assert positions == {};
    } else {
      RangeSize(positions - {n - 1}, n - 1);
      if n - 1 in positions {
        assert |positions| == |positions - {n - 1}| + 1;
        assert forall i | 0 <= i < n - 1 :: i in positions <==> i in positions - {n - 1};
      } else {
        assert positions - {n - 1} == positions;
      }
    }
  }
}

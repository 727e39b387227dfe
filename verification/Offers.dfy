/** Offering an event to automata one after the other: verdicts and disarms add up the same way whatever
    the order and the grouping. */
module Offers {
  import opened Events
  import opened Multisets
  import opened Storylines

  ghost predicate AllHonest<A(!new)>(g: Auto<A> -> Effect) {
    forall a: Auto<A> :: Honest(g(a))
  }

  lemma {:induction false} TotalHonest<A(!new)>(g: Auto<A> -> Effect, m: multiset<Auto<A>>)
    requires AllHonest(g)
    ensures Honest(Total(g, m))
    decreases |m|
  {
    if m != multiset{} {
      var x :| x in m;
      TotalHonest(g, m - multiset{x});
      TotalTake(g, m, x);
    }
  }

  // The automata `m` were offered the event: each became its image under `f`, and the reactions `g` took
  // the verdict from `v0` to `v` and the disarm map from `d0` to `d`.
  ghost predicate Offered<A>(caps: Caps, f: Auto<A> -> Auto<A>, g: Auto<A> -> Effect, actor: Key,
                             m: multiset<Auto<A>>, image: multiset<Auto<A>>,
                             v0: Verdict, d0: map<Key, OpSet>, v: Verdict, d: map<Key, OpSet>)
  {
    && image == Image(f, m)
    && v == v0.Max(Total(g, m).verdict)
    && d == DisarmActor(caps, d0, actor, Total(g, m))
  }

  lemma OfferedNone<A>(caps: Caps, f: Auto<A> -> Auto<A>, g: Auto<A> -> Effect, actor: Key, v0: Verdict,
      d0: map<Key, OpSet>)
    ensures Offered(caps, f, g, actor, multiset{}, multiset{}, v0, d0, v0, d0)
  {
  }

  lemma OfferedOne<A>(caps: Caps, f: Auto<A> -> Auto<A>, g: Auto<A> -> Effect, actor: Key, x: Auto<A>, v0: Verdict,
      d0: map<Key, OpSet>)
    ensures Offered(caps, f, g, actor, multiset{x}, multiset{f(x)}, v0, d0,
                    v0.Max(g(x).verdict), DisarmActor(caps, d0, actor, g(x)))
  {
    ImageAdd(f, multiset{}, x);
    TotalAdd(g, multiset{}, x);
    JoinUnit(g(x));
    assert multiset{} + multiset{x} == multiset{x};
    assert multiset{} + multiset{f(x)} == multiset{f(x)};
  }

  lemma OfferedBoth<A(!new)>(caps: Caps, f: Auto<A> -> Auto<A>, g: Auto<A> -> Effect, actor: Key,
                       m1: multiset<Auto<A>>, i1: multiset<Auto<A>>, m2: multiset<Auto<A>>, i2: multiset<Auto<A>>,
                       v0: Verdict, d0: map<Key, OpSet>, v1: Verdict, d1: map<Key, OpSet>,
                       v2: Verdict, d2: map<Key, OpSet>)
    requires AllHonest(g)
    requires Offered(caps, f, g, actor, m1, i1, v0, d0, v1, d1)
    requires Offered(caps, f, g, actor, m2, i2, v1, d1, v2, d2)
    ensures Offered(caps, f, g, actor, m1 + m2, i1 + i2, v0, d0, v2, d2)
  {
    hide Image, Total;
    ImageUnion(f, m1, m2);
    TotalUnion(g, m1, m2);
    TotalHonest(g, m1);
    TotalHonest(g, m2);
    DisarmTwice(caps, d0, actor, Total(g, m1), Total(g, m2));
  }
}

/** Parsers paired with encoders, and the three properties of a canonical wire format, kept by every way
    of putting formats together. */
module Codecs {
  import opened LittleEndian

  datatype WireError = BadMagic | Truncated | BadUtf8 | BadAction(b: Byte) | TrailingBytes

  datatype Parsed<+T> = Ok(value: T, rest: seq<Byte>) | Err(error: WireError)

  // How a value is written, how it is read, and the values that can be written without loss.
  datatype Wire<!T> = Wire(enc: T -> seq<Byte>, read: seq<Byte> -> Parsed<T>, fits: T -> bool)

  // What is written for a value within the limits is read back, whatever follows.
  ghost predicate Reads<T(!new)>(w: Wire<T>) {
    forall v, rest | w.fits(v) :: w.read(w.enc(v) + rest) == Ok(v, rest)
  }

  // What is accepted is within the limits, and its encoding is those bytes and no others.
  ghost predicate Canonical<T(!new)>(w: Wire<T>) {
    forall s | w.read(s).Ok? :: w.fits(w.read(s).value) && s == w.enc(w.read(s).value) + w.read(s).rest
  }

  ghost predicate IsCut(t: seq<Byte>, whole: seq<Byte>) {
    t <= whole && t != whole
  }

  // A strict prefix of an encoding reads as truncated.
  ghost predicate Cuts<T(!new)>(w: Wire<T>) {
    forall v, t | w.fits(v) && IsCut(t, w.enc(v)) :: w.read(t) == Err(Truncated)
  }

  ghost predicate Codec<T(!new)>(w: Wire<T>) {
    Reads(w) && Canonical(w) && Cuts(w)
  }

  // A cut of two parts falls in the first or in the second.
  lemma CutOfTwo(t: seq<Byte>, a: seq<Byte>, b: seq<Byte>)
    requires IsCut(t, a + b)
    ensures IsCut(t, a) || (|a| <= |t| && t == a + t[|a|..] && IsCut(t[|a|..], b))
  {
    if |t| < |a| {
      assert t == (a + b)[..|t|] == a[..|t|];
    } else {
      assert t == (a + b)[..|t|];
      assert t[..|a|] == a;
      assert t[|a|..] == b[..|t| - |a|];
    }
  }

  // ----- words -----

  function ReadWord(s: seq<Byte>, n: nat): Parsed<nat> {
    if n > |s| then Err(Truncated) else Ok(Word(s[..n]), s[n..])
  }

  // The low `n` bytes of `v`: a wider number loses the rest.
  function Wrapped(v: nat, n: nat): (s: seq<Byte>)
    ensures |s| == n
  {
    Le(v % Range(n), n)
  }

  function WordOf(n: nat): Wire<nat> {
    Wire(v => Wrapped(v, n), s => ReadWord(s, n), v => v < Range(n))
  }

  lemma Small(v: nat, m: nat)
    requires v < m
    ensures v % m == v
  {
  }

  lemma WordRead(n: nat, v: nat, rest: seq<Byte>)
    requires v < Range(n)
    ensures ReadWord(Wrapped(v, n) + rest, n) == Ok(v, rest)
  {
    hide Le, Word, Range;
    var s := Wrapped(v, n) + rest;
    assert s[..n] == Wrapped(v, n) && s[n..] == rest;
    Small(v, Range(n));
    WordOfLe(v, n);
  }

  lemma WordCanonical(n: nat, s: seq<Byte>)
    requires n <= |s|
    ensures ReadWord(s, n).value < Range(n)
    ensures s == Wrapped(ReadWord(s, n).value, n) + ReadWord(s, n).rest
  {
    hide Le, Word, Range;
    LeOfWord(s[..n]);
    Small(Word(s[..n]), Range(n));
    assert s == s[..n] + s[n..];
  }

  lemma WordCodec(n: nat)
    ensures Codec(WordOf(n))
  {
    hide Wrapped, Range;
    var w := WordOf(n);
    forall v: nat, rest | w.fits(v)
      ensures w.read(w.enc(v) + rest) == Ok(v, rest)
    {
      WordRead(n, v, rest);
    }
    forall s | w.read(s).Ok?
      ensures w.fits(w.read(s).value) && s == w.enc(w.read(s).value) + w.read(s).rest
    {
      WordCanonical(n, s);
    }
  }

  // ----- one after the other -----

  function ReadPair<A, B>(a: Wire<A>, b: Wire<B>, s: seq<Byte>): Parsed<(A, B)> {
    match a.read(s)
    case Err(e) => Err(e)
    case Ok(x, rest) =>
      match b.read(rest)
      case Err(e) => Err(e)
      case Ok(y, after) => Ok((x, y), after)
  }

  function Pair<A, B>(a: Wire<A>, b: Wire<B>): Wire<(A, B)> {
    Wire((p: (A, B)) => a.enc(p.0) + b.enc(p.1), s => ReadPair(a, b, s), (p: (A, B)) => a.fits(p.0) && b.fits(p.1))
  }

  lemma PairCodec<A(!new), B(!new)>(a: Wire<A>, b: Wire<B>)
    requires Codec(a) && Codec(b)
    ensures Codec(Pair(a, b))
  {
    var w := Pair(a, b);
    forall p: (A, B), rest | w.fits(p)
      ensures w.read(w.enc(p) + rest) == Ok(p, rest)
    {
      assert w.enc(p) + rest == a.enc(p.0) + (b.enc(p.1) + rest);
      assert a.read(a.enc(p.0) + (b.enc(p.1) + rest)) == Ok(p.0, b.enc(p.1) + rest);
    }
    forall s | w.read(s).Ok?
      ensures w.fits(w.read(s).value) && s == w.enc(w.read(s).value) + w.read(s).rest
    {
      var Ok(x, rest) := a.read(s);
      var Ok(y, after) := b.read(rest);
      assert a.enc(x) + (b.enc(y) + after) == a.enc(x) + b.enc(y) + after;
    }
    forall p: (A, B), t | w.fits(p) && IsCut(t, w.enc(p))
      ensures w.read(t) == Err(Truncated)
    {
      CutOfTwo(t, a.enc(p.0), b.enc(p.1));
    }
  }

  // The same bytes under another type.
  function Mapped<A, B>(a: Wire<A>, to: A -> B, from: B -> A): Wire<B> {
    Wire(y => a.enc(from(y)),
         s => match a.read(s) case Err(e) => Err(e) case Ok(x, rest) => Ok(to(x), rest),
         y => a.fits(from(y)))
  }

  lemma MappedCodec<A(!new), B(!new)>(a: Wire<A>, to: A -> B, from: B -> A)
    requires Codec(a) && (forall x :: from(to(x)) == x) && (forall y :: to(from(y)) == y)
    ensures Codec(Mapped(a, to, from))
  {
  }

  // ----- a counted run -----

  function EncodeMany<T>(w: Wire<T>, vs: seq<T>): seq<Byte> {
    if vs == [] then [] else EncodeMany(w, vs[..|vs| - 1]) + w.enc(vs[|vs| - 1])
  }

  function ReadMany<T>(w: Wire<T>, s: seq<Byte>, count: nat): Parsed<seq<T>> {
    if count == 0 then Ok([], s) else
    match ReadMany(w, s, count - 1)
    case Err(e) => Err(e)
    case Ok(vs, rest) =>
      match w.read(rest)
      case Err(e) => Err(e)
      case Ok(v, after) => Ok(vs + [v], after)
  }

  function ReadCounted<T>(n: nat, w: Wire<T>, s: seq<Byte>): Parsed<seq<T>> {
    match ReadWord(s, n)
    case Err(e) => Err(e)
    case Ok(count, rest) => ReadMany(w, rest, count)
  }

  ghost predicate AllFit<T(!new)>(w: Wire<T>, vs: seq<T>) {
    forall v | v in vs :: w.fits(v)
  }

  // An `n`-byte count, then that many values.
  ghost function Counted<T(!new)>(n: nat, w: Wire<T>): Wire<seq<T>> {
    Wire(vs => Wrapped(|vs|, n) + EncodeMany(w, vs), s => ReadCounted(n, w, s), vs => |vs| < Range(n) && AllFit(w, vs))
  }

  lemma {:induction false} ManyRead<T(!new)>(w: Wire<T>, vs: seq<T>, rest: seq<Byte>)
    requires Reads(w) && AllFit(w, vs)
    ensures ReadMany(w, EncodeMany(w, vs) + rest, |vs|) == Ok(vs, rest)
    decreases |vs|
  {
    if vs == [] {
      assert EncodeMany(w, vs) + rest == rest;
    } else {
      var n := |vs| - 1;
      assert vs == vs[..n] + [vs[n]] && vs[n] in vs;
      assert EncodeMany(w, vs) + rest == EncodeMany(w, vs[..n]) + (w.enc(vs[n]) + rest);
      ManyRead(w, vs[..n], w.enc(vs[n]) + rest);
      assert w.read(w.enc(vs[n]) + rest) == Ok(vs[n], rest);
    }
  }

  lemma {:induction false} ManyCanonical<T(!new)>(w: Wire<T>, s: seq<Byte>, count: nat)
    requires Canonical(w) && ReadMany(w, s, count).Ok?
    ensures var Ok(vs, rest) := ReadMany(w, s, count);
      |vs| == count && AllFit(w, vs) && s == EncodeMany(w, vs) + rest
    decreases count
  {
    if count > 0 {
      ManyCanonical(w, s, count - 1);
      var Ok(vs, rest) := ReadMany(w, s, count - 1);
      var Ok(v, after) := w.read(rest);
      assert (vs + [v])[..count - 1] == vs;
      assert EncodeMany(w, vs) + (w.enc(v) + after) == EncodeMany(w, vs) + w.enc(v) + after;
    }
  }

  lemma {:induction false} ManyCut<T(!new)>(w: Wire<T>, vs: seq<T>, t: seq<Byte>)
    requires Reads(w) && Cuts(w) && AllFit(w, vs) && IsCut(t, EncodeMany(w, vs))
    ensures ReadMany(w, t, |vs|) == Err(Truncated)
    decreases |vs|
  {
    if vs != [] {
      var n := |vs| - 1;
      CutOfTwo(t, EncodeMany(w, vs[..n]), w.enc(vs[n]));
      if IsCut(t, EncodeMany(w, vs[..n])) {
        ManyCut(w, vs[..n], t);
      } else {
        ManyRead(w, vs[..n], t[|EncodeMany(w, vs[..n])|..]);
      }
    }
  }

  lemma CountedRead<T(!new)>(n: nat, w: Wire<T>, vs: seq<T>, rest: seq<Byte>)
    requires Codec(w) && |vs| < Range(n) && AllFit(w, vs)
    ensures ReadCounted(n, w, Wrapped(|vs|, n) + EncodeMany(w, vs) + rest) == Ok(vs, rest)
  {
    hide Wrapped, Range, ReadWord, AllFit, EncodeMany, ReadMany, Reads, Canonical, Cuts;
    WordRead(n, |vs|, EncodeMany(w, vs) + rest);
    assert Wrapped(|vs|, n) + EncodeMany(w, vs) + rest == Wrapped(|vs|, n) + (EncodeMany(w, vs) + rest);
    ManyRead(w, vs, rest);
  }

  lemma CountedCanonical<T(!new)>(n: nat, w: Wire<T>, s: seq<Byte>)
    requires Codec(w) && ReadCounted(n, w, s).Ok?
    ensures var Ok(vs, rest) := ReadCounted(n, w, s);
      |vs| < Range(n) && AllFit(w, vs) && s == Wrapped(|vs|, n) + EncodeMany(w, vs) + rest
  {
    hide Wrapped, Range, AllFit, EncodeMany, ReadMany, Reads, Canonical, Cuts;
    WordCanonical(n, s);
    var Ok(count, body) := ReadWord(s, n);
    ManyCanonical(w, body, count);
    var Ok(vs, rest) := ReadMany(w, body, count);
    assert Wrapped(count, n) + (EncodeMany(w, vs) + rest) == Wrapped(count, n) + EncodeMany(w, vs) + rest;
  }

  lemma CountedCut<T(!new)>(n: nat, w: Wire<T>, vs: seq<T>, t: seq<Byte>)
    requires Codec(w) && |vs| < Range(n) && AllFit(w, vs) && IsCut(t, Wrapped(|vs|, n) + EncodeMany(w, vs))
    ensures ReadCounted(n, w, t) == Err(Truncated)
  {
    hide Range, AllFit, EncodeMany, ReadMany, Reads, Canonical, Cuts;
    CutOfTwo(t, Wrapped(|vs|, n), EncodeMany(w, vs));
    if !IsCut(t, Wrapped(|vs|, n)) {
      var body := t[n..];
      WordRead(n, |vs|, body);
      ManyCut(w, vs, body);
    }
  }

  lemma CountedCodec<T(!new)>(n: nat, w: Wire<T>)
    requires Codec(w)
    ensures Codec(Counted(n, w))
  {
    hide Wrapped, Range, ReadCounted, AllFit, EncodeMany;
    var c := Counted(n, w);
    assert Reads(c) by {
      forall vs: seq<T>, rest | c.fits(vs)
        ensures c.read(c.enc(vs) + rest) == Ok(vs, rest)
      {
        CountedRead(n, w, vs, rest);
      }
    }
    assert Canonical(c) by {
      forall s | c.read(s).Ok?
        ensures c.fits(c.read(s).value) && s == c.enc(c.read(s).value) + c.read(s).rest
      {
        CountedCanonical(n, w, s);
      }
    }
    assert Cuts(c) by {
      forall vs: seq<T>, t | c.fits(vs) && IsCut(t, c.enc(vs))
        ensures c.read(t) == Err(Truncated)
      {
        CountedCut(n, w, vs, t);
      }
    }
  }
}

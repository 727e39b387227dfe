/** The ruleset formats byte by byte: magics, field order, widths and tags, as a reader of the bytes meets them. */
module WireLayout {
  import opened LittleEndian
  import opened Modular
  import opened Codecs
  import opened WireFormat

  // ----- words -----

  ghost function Bytes1(n: nat): seq<Byte> {
    [n % 256]
  }

  ghost function Bytes2(n: nat): seq<Byte> {
    [n % 256, n / 256 % 256]
  }

  ghost function Bytes4(n: nat): seq<Byte> {
    [n % 256, n / 256 % 256, n / 65536 % 256, n / 16777216 % 256]
  }

  ghost function Bytes8(n: nat): seq<Byte> {
    Bytes4(n) + Bytes4(n / 4294967296)
  }

  lemma WrappedNext(v: nat, n: nat)
    requires n > 0
    ensures Wrapped(v, n) == [v % 256] + Wrapped(v / 256, n - 1)
  {
    LowDigits(v, Range(n - 1));
    assert Range(n) == 256 * Range(n - 1);
    hide Range;
  }

  // Cutting to one byte and `r` more: the low byte, and the rest cut to `r`.
  lemma LowDigits(v: nat, r: nat)
    requires r > 0
    ensures v % (256 * r) == 256 * (v / 256 % r) + v % 256
  {
    var w := v / 256;
    var low, high := w % r, w / r;
    assert w == high * r + low;
    assert v == high * (256 * r) + (256 * low + v % 256);
    ModUnique(v, high, 256 * low + v % 256, 256 * r);
  }

  lemma WordsAre(v: nat)
    ensures Wrapped(v, 1) == Bytes1(v) && Wrapped(v, 2) == Bytes2(v) && Wrapped(v, 4) == Bytes4(v)
    ensures Wrapped(v, 8) == Bytes8(v)
  {
    hide Wrapped;
    Words4(v, 0);
    Words4(v, 4);
    Words4(v / 4294967296, 0);
    Words2(v);
  }

  lemma Words2(v: nat)
    ensures Wrapped(v, 1) == Bytes1(v) && Wrapped(v, 2) == Bytes2(v)
  {
    hide Wrapped;
    WrappedNext(v, 2);
    WrappedNext(v / 256, 1);
    WrappedNext(v, 1);
    assert |Wrapped(v / 256 / 256, 0)| == 0 == |Wrapped(v / 256, 0)|;
  }

  lemma Words4(v: nat, n: nat)
    ensures Wrapped(v, n + 4) == Bytes4(v) + Wrapped(v / 4294967296, n)
  {
    hide Wrapped;
    WrappedNext(v, n + 4);
    WrappedNext(v / 256, n + 3);
    WrappedNext(v / 256 / 256, n + 2);
    WrappedNext(v / 256 / 256 / 256, n + 1);
    assert v / 256 / 256 == v / 65536 && v / 256 / 256 / 256 == v / 16777216;
    assert v / 256 / 256 / 256 / 256 == v / 4294967296;
  }

  // ----- fields, in order -----

  ghost function Concat<T>(bytes: T -> seq<Byte>, items: seq<T>): seq<Byte> {
    if items == [] then [] else Concat(bytes, items[..|items| - 1]) + bytes(items[|items| - 1])
  }

  // A tag byte; a disarm is followed by its mask.
  ghost function ActionBytes(a: Action): seq<Byte> {
    match a
    case NoAction => [0]
    case Block => [1]
    case Disarm(ops) => [2] + Bytes4(ops)
  }

  ghost function TtpBytes(): nat -> seq<Byte> {
    (t: nat) => Bytes4(t)
  }

  ghost function MatchBytes(m: Match): seq<Byte> {
    Bytes4(m.ops) + Bytes1(|m.ttps|) + Concat(TtpBytes(), m.ttps)
  }

  ghost function LinearStepBytes(): LinearStep -> seq<Byte> {
    (s: LinearStep) => MatchBytes(s.matcher) + ActionBytes(s.action)
  }

  ghost function DagStepBytes(): DagStep -> seq<Byte> {
    (s: DagStep) => Bytes1(s.bit) + Bytes8(s.prereq) + MatchBytes(s.matcher) + ActionBytes(s.action)
  }

  ghost function PatternBytes<S(!new)>(step: S -> seq<Byte>): Pattern<S> -> seq<Byte> {
    (p: Pattern<S>) => Bytes2(|p.name|) + p.name + Bytes2(|p.steps|) + Concat(step, p.steps)
  }

  // "ERL1", how many patterns, the patterns.
  ghost function LinearBytes(patterns: seq<Pattern<LinearStep>>): seq<Byte> {
    [0x45, 0x52, 0x4C, 0x31] + Bytes2(|patterns|) + Concat(PatternBytes(LinearStepBytes()), patterns)
  }

  // "ERD1", how many patterns, the patterns.
  ghost function DagBytes(patterns: seq<Pattern<DagStep>>): seq<Byte> {
    [0x45, 0x52, 0x44, 0x31] + Bytes2(|patterns|) + Concat(PatternBytes(DagStepBytes()), patterns)
  }

  // ----- the formats write exactly that -----

  lemma {:induction false} ManyAre<T(!new)>(w: Wire<T>, f: T -> seq<Byte>, items: seq<T>)
    requires forall x :: w.enc(x) == f(x)
    ensures EncodeMany(w, items) == Concat(f, items)
  {
    if items != [] {
      ManyAre(w, f, items[..|items| - 1]);
    }
  }

  lemma ActionIs(a: Action)
    ensures EncodeAction(a) == ActionBytes(a)
  {
    if a.Disarm? {
      WordsAre(a.ops);
    }
  }

  lemma MatchIs(m: Match)
    ensures MatchOf().enc(m) == MatchBytes(m)
  {
    hide Wrapped, Bytes4, Bytes1;
    WordsAre(m.ops);
    WordsAre(|m.ttps|);
    forall t: nat
      ensures WordOf(4).enc(t) == TtpBytes()(t)
    {
      WordsAre(t);
    }
    ManyAre(WordOf(4), TtpBytes(), m.ttps);
    assert MatchOf().enc(m) == Wrapped(m.ops, 4) + (Wrapped(|m.ttps|, 1) + EncodeMany(WordOf(4), m.ttps));
  }

  lemma LinearStepIs(s: LinearStep)
    ensures LinearOf().enc(s) == LinearStepBytes()(s)
  {
    hide MatchOf, MatchBytes, EncodeAction, ActionBytes;
    MatchIs(s.matcher);
    ActionIs(s.action);
  }

  lemma DagStepIs(s: DagStep)
    ensures DagOf().enc(s) == DagStepBytes()(s)
  {
    hide MatchOf, MatchBytes, EncodeAction, ActionBytes, Wrapped, Bytes1, Bytes8;
    MatchIs(s.matcher);
    ActionIs(s.action);
    WordsAre(s.bit);
    WordsAre(s.prereq);
    var m, a := MatchBytes(s.matcher), ActionBytes(s.action);
    assert DagOf().enc(s) == (Bytes1(s.bit) + Bytes8(s.prereq)) + (m + a);
  }

  lemma PatternIs<S(!new)>(step: Wire<S>, f: S -> seq<Byte>, p: Pattern<S>)
    requires forall s :: step.enc(s) == f(s)
    ensures PatternOf(step).enc(p) == PatternBytes(f)(p)
  {
    hide Wrapped, Bytes2, EncodeMany, Concat;
    WordsAre(|p.name|);
    WordsAre(|p.steps|);
    ManyAre(step, f, p.steps);
    assert PatternOf(step).enc(p)
        == (Wrapped(|p.name|, 2) + p.name) + (Wrapped(|p.steps|, 2) + EncodeMany(step, p.steps));
  }

  lemma RulesAre<S(!new)>(magic: seq<Byte>, step: Wire<S>, f: S -> seq<Byte>, patterns: seq<Pattern<S>>)
    requires forall s :: step.enc(s) == f(s)
    ensures Encoded(magic, step, patterns) == magic + Bytes2(|patterns|) + Concat(PatternBytes(f), patterns)
  {
    hide Wrapped, Bytes2, EncodeMany, Concat, PatternOf, PatternBytes;
    forall p: Pattern<S>
      ensures PatternOf(step).enc(p) == PatternBytes(f)(p)
    {
      PatternIs(step, f, p);
    }
    ManyAre(PatternOf(step), PatternBytes(f), patterns);
    WordsAre(|patterns|);
    var w, many := Wrapped(|patterns|, 2), EncodeMany(PatternOf(step), patterns);
    assert Encoded(magic, step, patterns) == magic + (w + many);
    assert magic + (w + many) == magic + w + many;
  }

  lemma LinearFormat(patterns: seq<Pattern<LinearStep>>)
    ensures Encoded(MAGIC, LinearOf(), patterns) == LinearBytes(patterns)
  {
    hide LinearOf, LinearStepBytes, Encoded, Concat, Bytes2;
    forall s: LinearStep
      ensures LinearOf().enc(s) == LinearStepBytes()(s)
    {
      LinearStepIs(s);
    }
    RulesAre(MAGIC, LinearOf(), LinearStepBytes(), patterns);
  }

  lemma DagFormat(patterns: seq<Pattern<DagStep>>)
    ensures Encoded(MAGIC_DAG, DagOf(), patterns) == DagBytes(patterns)
  {
    hide DagOf, DagStepBytes, Encoded, Concat, Bytes2;
    forall s: DagStep
      ensures DagOf().enc(s) == DagStepBytes()(s)
    {
      DagStepIs(s);
    }
    RulesAre(MAGIC_DAG, DagOf(), DagStepBytes(), patterns);
  }

  // ----- what is refused, and how -----

  // Fewer than four bytes are truncated, other first bytes a bad magic.
  lemma WrongMagic(bytes: seq<Byte>)
    ensures |bytes| < 4 ==> Decode(MAGIC, LinearOf(), bytes) == Failed(Truncated)
    ensures |bytes| < 4 ==> Decode(MAGIC_DAG, DagOf(), bytes) == Failed(Truncated)
    ensures |bytes| >= 4 && bytes[..4] != [0x45, 0x52, 0x4C, 0x31] ==>
      Decode(MAGIC, LinearOf(), bytes) == Failed(BadMagic)
    ensures |bytes| >= 4 && bytes[..4] != [0x45, 0x52, 0x44, 0x31] ==>
      Decode(MAGIC_DAG, DagOf(), bytes) == Failed(BadMagic)
  {
    hide LinearOf, DagOf, RulesOf;
  }

  // Anything behind a whole ruleset.
  lemma Trailing(linear: seq<Pattern<LinearStep>>, dag: seq<Pattern<DagStep>>, more: seq<Byte>)
    requires more != []
    ensures Fits(LinearOf(), linear) ==> Decode(MAGIC, LinearOf(), LinearBytes(linear) + more) == Failed(TrailingBytes)
    ensures Fits(DagOf(), dag) ==> Decode(MAGIC_DAG, DagOf(), DagBytes(dag) + more) == Failed(TrailingBytes)
  {
    StepCodecs();
    LinearFormat(linear);
    DagFormat(dag);
    hide LinearOf, DagOf, Codec, LinearBytes, DagBytes;
    TrailingOne(MAGIC, LinearOf(), linear, more);
    TrailingOne(MAGIC_DAG, DagOf(), dag, more);
  }

  // Behind the magic, the rest decides.
  lemma DecodesRest<S(!new)>(magic: seq<Byte>, step: Wire<S>, body: seq<Byte>)
    requires |magic| == 4
    ensures Decode(magic, step, magic + body) ==
      match RulesOf(step).read(body)
      case Err(e) => Failed(e)
      case Ok(patterns, rest) => if rest == [] then Rules(patterns) else Failed(TrailingBytes)
  {
    hide RulesOf;
    assert (magic + body)[..4] == magic && (magic + body)[4..] == body;
  }

  lemma TrailingOne<S(!new)>(magic: seq<Byte>, step: Wire<S>, patterns: seq<Pattern<S>>, more: seq<Byte>)
    requires |magic| == 4 && Codec(step) && more != []
    ensures Fits(step, patterns) ==> Decode(magic, step, Encoded(magic, step, patterns) + more) == Failed(TrailingBytes)
  {
    RulesCodec(step);
    hide RulesOf, Codec, Decode;
    var w := RulesOf(step);
    DecodesRest(magic, step, w.enc(patterns) + more);
    assert Encoded(magic, step, patterns) + more == magic + (w.enc(patterns) + more);
    if w.fits(patterns) {
      ReadsBack(w, patterns, more);
    }
  }

  lemma ReadsBack<T(!new)>(w: Wire<T>, v: T, rest: seq<Byte>)
    requires Codec(w) && w.fits(v)
    ensures w.read(w.enc(v) + rest) == Ok(v, rest)
  {
  }

  // One pattern without a name, one step without techniques: the byte at 24 is the action's tag.
  ghost function OneStep(bit: Byte, prereq: seq<Byte>, ops: seq<Byte>, tail: seq<Byte>): seq<Byte> {
    [1, 0] + ([0, 0] + ([1, 0] + (([bit] + prereq) + (ops + ([0] + tail)))))
  }

  // Only 0, 1 and 2 are tags.
  lemma UnknownAction(bit: Byte, prereq: seq<Byte>, ops: seq<Byte>, tag: Byte, rest: seq<Byte>)
    requires |prereq| == 8 && |ops| == 4 && tag > 2
    ensures Decode(MAGIC_DAG, DagOf(), [0x45, 0x52, 0x44, 0x31] + OneStep(bit, prereq, ops, [tag] + rest))
         == Failed(BadAction(tag))
  {
    var s := ([bit] + prereq) + (ops + ([0] + ([tag] + rest)));
    StepRefused(bit, prereq, ops, tag, rest);
    hide DagOf, Decode, PatternOf, Counted;
    FirstRefused(DagOf(), s, BadAction(tag));
    NamelessRefused(DagOf(), [1, 0] + s, BadAction(tag));
    FirstRefused(PatternOf(DagOf()), [0, 0] + ([1, 0] + s), BadAction(tag));
    DecodesRest(MAGIC_DAG, DagOf(), OneStep(bit, prereq, ops, [tag] + rest));
  }

  lemma SmallWords()
    ensures Word([0]) == 0 && Word([0, 0]) == 0 && Word([1, 0]) == 1
  {
    assert [0, 0][1..] == [0] && [1, 0][1..] == [0] && [0][1..] == [];
    assert Word([0]) == 0 + 256 * Word([0][1..]);
  }

  lemma StepRefused(bit: Byte, prereq: seq<Byte>, ops: seq<Byte>, tag: Byte, rest: seq<Byte>)
    requires |prereq| == 8 && |ops| == 4 && tag > 2
    ensures DagOf().read(([bit] + prereq) + (ops + ([0] + ([tag] + rest)))) == Err(BadAction(tag))
  {
    hide MatchOf, WordOf, ActionOf, Pair, Word;
    var s2 := ops + ([0] + ([tag] + rest));
    BodyRefused(ops, tag, rest);
    PrefixRead([bit] + prereq, s2, bit, prereq);
    var prefix, body := Pair(WordOf(1), WordOf(8)), Pair(MatchOf(), ActionOf());
    SecondRefused(prefix, body, ([bit] + prereq) + s2, (Word([bit]), Word(prereq)), s2, BadAction(tag));
    assert Pair(prefix, body).read(([bit] + prereq) + s2) == Err(BadAction(tag));
  }

  lemma BodyRefused(ops: seq<Byte>, tag: Byte, rest: seq<Byte>)
    requires |ops| == 4 && tag > 2
    ensures Pair(MatchOf(), ActionOf()).read(ops + ([0] + ([tag] + rest))) == Err(BadAction(tag))
  {
    MatchRead(ops, [tag] + rest);
    assert ActionOf().read([tag] + rest) == Err(BadAction(tag));
    hide MatchOf, ActionOf, Pair, Word;
    SecondRefused(MatchOf(), ActionOf(), ops + ([0] + ([tag] + rest)), Match(Word(ops), []), [tag] + rest,
                  BadAction(tag));
  }

  lemma SecondRefused<A, B>(a: Wire<A>, b: Wire<B>, s: seq<Byte>, x: A, rest: seq<Byte>, e: WireError)
    requires a.read(s) == Ok(x, rest) && b.read(rest) == Err(e)
    ensures Pair(a, b).read(s) == Err(e)
  {
  }

  lemma PrefixRead(head: seq<Byte>, rest: seq<Byte>, bit: Byte, prereq: seq<Byte>)
    requires |prereq| == 8 && head == [bit] + prereq
    ensures Pair(WordOf(1), WordOf(8)).read(head + rest) == Ok((Word([bit]), Word(prereq)), rest)
  {
    hide Word;
    assert (head + rest)[..1] == [bit] && (head + rest)[1..] == prereq + rest;
    assert (prereq + rest)[..8] == prereq && (prereq + rest)[8..] == rest;
  }

  lemma MatchRead(ops: seq<Byte>, rest: seq<Byte>)
    requires |ops| == 4
    ensures MatchOf().read(ops + ([0] + rest)) == Ok(Match(Word(ops), []), rest)
  {
    SmallWords();
    hide Word;
    assert (ops + ([0] + rest))[..4] == ops && (ops + ([0] + rest))[4..] == [0] + rest;
    assert ([0] + rest)[..1] == [0] && ([0] + rest)[1..] == rest;
    assert ReadCounted(1, WordOf(4), [0] + rest) == Ok([], rest);
  }

  // A list whose first item is refused is refused the same way.
  lemma FirstRefused<T(!new)>(w: Wire<T>, s: seq<Byte>, e: WireError)
    requires w.read(s) == Err(e)
    ensures Counted(2, w).read([1, 0] + s) == Err(e)
  {
    SmallWords();
    hide Word;
    assert ([1, 0] + s)[..2] == [1, 0] && ([1, 0] + s)[2..] == s;
    assert ReadMany(w, s, 0) == Ok([], s);
    assert ReadMany(w, s, 1) == Err(e);
  }

  lemma NamelessRefused<S(!new)>(step: Wire<S>, s: seq<Byte>, e: WireError)
    requires Counted(2, step).read(s) == Err(e)
    ensures PatternOf(step).read([0, 0] + s) == Err(e)
  {
    SmallWords();
    hide Word, Counted;
    assert ([0, 0] + s)[..2] == [0, 0] && ([0, 0] + s)[2..] == s;
    assert ReadName([0, 0] + s) == Ok([], s);
  }
}

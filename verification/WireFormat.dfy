/** The two ruleset formats, ERL1 and ERD1. */
module WireFormat {
  import opened LittleEndian
  import opened Codecs

  datatype Action = NoAction | Block | Disarm(ops: nat)
  datatype Match = Match(ops: nat, ttps: seq<nat>)
  datatype LinearStep = LinearStep(matcher: Match, action: Action)
  datatype DagStep = DagStep(bit: nat, prereq: nat, matcher: Match, action: Action)

  // A name is kept as its UTF-8 bytes.
  datatype Pattern<S> = Pattern(name: seq<Byte>, steps: seq<S>)

  const MAGIC: seq<Byte> := [0x45, 0x52, 0x4C, 0x31]
  const MAGIC_DAG: seq<Byte> := [0x45, 0x52, 0x44, 0x31]

  // ----- UTF-8 -----

  predicate Tail(s: seq<Byte>, i: nat) {
    i < |s| && 0x80 <= s[i] < 0xC0
  }

  // Well-formed UTF-8: no overlong form, no surrogate, nothing past U+10FFFF.
  predicate Utf8(s: seq<Byte>)
    decreases |s|
  {
    if s == [] then true
    else if s[0] < 0x80 then Utf8(s[1..])
    else if 0xC2 <= s[0] < 0xE0 then Tail(s, 1) && Utf8(s[2..])
    else if 0xE0 <= s[0] < 0xF0 then
      Tail(s, 1) && Tail(s, 2) && (s[0] == 0xE0 ==> s[1] >= 0xA0) && (s[0] == 0xED ==> s[1] < 0xA0) && Utf8(s[3..])
    else if 0xF0 <= s[0] < 0xF5 then
      Tail(s, 1) && Tail(s, 2) && Tail(s, 3)
      && (s[0] == 0xF0 ==> s[1] >= 0x90) && (s[0] == 0xF4 ==> s[1] < 0x90) && Utf8(s[4..])
    else false
  }

  // ----- names -----

  function ReadBytes(s: seq<Byte>, n: nat): Parsed<seq<Byte>> {
    if n > |s| then Err(Truncated) else Ok(s[..n], s[n..])
  }

  function ReadName(s: seq<Byte>): Parsed<seq<Byte>> {
    match ReadWord(s, 2)
    case Err(e) => Err(e)
    case Ok(n, rest) =>
      match ReadBytes(rest, n)
      case Err(e) => Err(e)
      case Ok(name, after) => if Utf8(name) then Ok(name, after) else Err(BadUtf8)
  }

  function NameOf(): Wire<seq<Byte>> {
    Wire(name => Wrapped(|name|, 2) + name, s => ReadName(s), (name: seq<Byte>) => |name| < Range(2) && Utf8(name))
  }

  lemma NameCodec()
    ensures Codec(NameOf())
  {
    hide Wrapped, Range, ReadWord, Utf8;
    var w := NameOf();
    forall name: seq<Byte>, rest | w.fits(name)
      ensures w.read(w.enc(name) + rest) == Ok(name, rest)
    {
      WordRead(2, |name|, name + rest);
      assert Wrapped(|name|, 2) + name + rest == Wrapped(|name|, 2) + (name + rest);
    }
    forall s | w.read(s).Ok?
      ensures w.fits(w.read(s).value) && s == w.enc(w.read(s).value) + w.read(s).rest
    {
      NameCanonical(s);
    }
    forall name: seq<Byte>, t | w.fits(name) && IsCut(t, w.enc(name))
      ensures w.read(t) == Err(Truncated)
    {
      NameCut(name, t);
    }
  }

  lemma NameCanonical(s: seq<Byte>)
    requires ReadName(s).Ok?
    ensures var Ok(name, after) := ReadName(s);
      |name| < Range(2) && Utf8(name) && s == Wrapped(|name|, 2) + name + after
  {
    hide Wrapped, Range, Utf8;
    WordCanonical(2, s);
    var Ok(n, rest) := ReadWord(s, 2);
    assert Wrapped(n, 2) + (rest[..n] + rest[n..]) == Wrapped(n, 2) + rest[..n] + rest[n..];
  }

  lemma NameCut(name: seq<Byte>, t: seq<Byte>)
    requires |name| < Range(2) && IsCut(t, Wrapped(|name|, 2) + name)
    ensures ReadName(t) == Err(Truncated)
  {
    hide Range, Utf8;
    CutOfTwo(t, Wrapped(|name|, 2), name);
    if !IsCut(t, Wrapped(|name|, 2)) {
      WordRead(2, |name|, t[2..]);
    }
  }

  // ----- actions -----

  function EncodeAction(a: Action): seq<Byte> {
    match a
    case NoAction => [0]
    case Block => [1]
    case Disarm(ops) => [2] + Wrapped(ops, 4)
  }

  function ReadAction(s: seq<Byte>): Parsed<Action> {
    if s == [] then Err(Truncated)
    else if s[0] == 0 then Ok(NoAction, s[1..])
    else if s[0] == 1 then Ok(Block, s[1..])
    else if s[0] == 2 then
      match ReadWord(s[1..], 4)
      case Err(e) => Err(e)
      case Ok(ops, rest) => Ok(Disarm(ops), rest)
    else Err(BadAction(s[0]))
  }

  function ActionOf(): Wire<Action> {
    Wire(a => EncodeAction(a), s => ReadAction(s), (a: Action) => a.Disarm? ==> a.ops < Range(4))
  }

  lemma ActionCodec()
    ensures Codec(ActionOf())
  {
    hide Wrapped, Range, ReadWord;
    var w := ActionOf();
    forall a: Action, rest | w.fits(a)
      ensures w.read(w.enc(a) + rest) == Ok(a, rest)
    {
      if a.Disarm? {
        WordRead(4, a.ops, rest);
        assert ([2] + Wrapped(a.ops, 4) + rest)[1..] == Wrapped(a.ops, 4) + rest;
      }
    }
    forall s | w.read(s).Ok?
      ensures w.fits(w.read(s).value) && s == w.enc(w.read(s).value) + w.read(s).rest
    {
      ActionCanonical(s);
    }
    forall a: Action, t | w.fits(a) && IsCut(t, w.enc(a))
      ensures w.read(t) == Err(Truncated)
    {
      ActionCut(a, t);
    }
  }

  lemma ActionCanonical(s: seq<Byte>)
    requires ReadAction(s).Ok?
    ensures var Ok(a, rest) := ReadAction(s); (a.Disarm? ==> a.ops < Range(4)) && s == EncodeAction(a) + rest
  {
    hide Wrapped, Range;
    assert s == [s[0]] + s[1..];
    if s[0] == 2 {
      WordCanonical(4, s[1..]);
      var Ok(ops, rest) := ReadWord(s[1..], 4);
      assert [2] + (Wrapped(ops, 4) + rest) == [2] + Wrapped(ops, 4) + rest;
    }
  }

  lemma ActionCut(a: Action, t: seq<Byte>)
    requires IsCut(t, EncodeAction(a))
    ensures ReadAction(t) == Err(Truncated)
  {
    if a.Disarm? {
      CutOfTwo(t, [2], Wrapped(a.ops, 4));
    }
  }

  // ----- steps and patterns -----

  ghost function MatchOf(): Wire<Match> {
    Mapped(Pair(WordOf(4), Counted(1, WordOf(4))), (p: (nat, seq<nat>)) => Match(p.0, p.1),
           (m: Match) => (m.ops, m.ttps))
  }

  ghost function LinearOf(): Wire<LinearStep> {
    Mapped(Pair(MatchOf(), ActionOf()), (p: (Match, Action)) => LinearStep(p.0, p.1),
        (s: LinearStep) => (s.matcher, s.action))
  }

  ghost function DagOf(): Wire<DagStep> {
    Mapped(Pair(Pair(WordOf(1), WordOf(8)), Pair(MatchOf(), ActionOf())),
           (p: ((nat, nat), (Match, Action))) => DagStep(p.0.0, p.0.1, p.1.0, p.1.1),
           (s: DagStep) => ((s.bit, s.prereq), (s.matcher, s.action)))
  }

  ghost function PatternOf<S(!new)>(step: Wire<S>): Wire<Pattern<S>> {
    Mapped(Pair(NameOf(), Counted(2, step)), (p: (seq<Byte>, seq<S>)) => Pattern(p.0, p.1),
        (p: Pattern<S>) => (p.name, p.steps))
  }

  ghost function RulesOf<S(!new)>(step: Wire<S>): Wire<seq<Pattern<S>>> {
    Counted(2, PatternOf(step))
  }

  lemma StepCodecs()
    ensures Codec(LinearOf()) && Codec(DagOf())
  {
    hide Codec;
    WordCodec(1);
    WordCodec(4);
    WordCodec(8);
    ActionCodec();
    CountedCodec(1, WordOf(4));
    PairCodec(WordOf(4), Counted(1, WordOf(4)));
    MappedCodec(Pair(WordOf(4), Counted(1, WordOf(4))), (p: (nat, seq<nat>)) => Match(p.0, p.1),
        (m: Match) => (m.ops, m.ttps));
    PairCodec(MatchOf(), ActionOf());
    PairCodec(WordOf(1), WordOf(8));
    PairCodec(Pair(WordOf(1), WordOf(8)), Pair(MatchOf(), ActionOf()));
    MappedCodec(Pair(MatchOf(), ActionOf()), (p: (Match, Action)) => LinearStep(p.0, p.1),
        (s: LinearStep) => (s.matcher, s.action));
    MappedCodec(Pair(Pair(WordOf(1), WordOf(8)), Pair(MatchOf(), ActionOf())),
                (p: ((nat, nat), (Match, Action))) => DagStep(p.0.0, p.0.1, p.1.0, p.1.1),
                (s: DagStep) => ((s.bit, s.prereq), (s.matcher, s.action)));
  }

  lemma RulesCodec<S(!new)>(step: Wire<S>)
    requires Codec(step)
    ensures Codec(RulesOf(step))
  {
    hide Codec;
    NameCodec();
    CountedCodec(2, step);
    PairCodec(NameOf(), Counted(2, step));
    MappedCodec(Pair(NameOf(), Counted(2, step)), (p: (seq<Byte>, seq<S>)) => Pattern(p.0, p.1),
        (p: Pattern<S>) => (p.name, p.steps));
    CountedCodec(2, PatternOf(step));
  }

  // ----- whole rulesets -----

  datatype Decoded<S> = Rules(patterns: seq<Pattern<S>>) | Failed(error: WireError)

  ghost function Encoded<S(!new)>(magic: seq<Byte>, step: Wire<S>, patterns: seq<Pattern<S>>): seq<Byte> {
    magic + RulesOf(step).enc(patterns)
  }

  ghost function Decode<S(!new)>(magic: seq<Byte>, step: Wire<S>, bytes: seq<Byte>): Decoded<S> {
    if |bytes| < 4 then Failed(Truncated)
    else if bytes[..4] != magic then Failed(BadMagic)
    else match RulesOf(step).read(bytes[4..])
      case Err(e) => Failed(e)
      case Ok(patterns, rest) => if rest == [] then Rules(patterns) else Failed(TrailingBytes)
  }

  ghost predicate Fits<S(!new)>(step: Wire<S>, patterns: seq<Pattern<S>>) {
    RulesOf(step).fits(patterns)
  }

  // A ruleset survives the round trip exactly when it is within the field limits.
  lemma RoundTrip<S(!new)>(magic: seq<Byte>, step: Wire<S>, patterns: seq<Pattern<S>>)
    requires |magic| == 4 && Codec(step)
    ensures Decode(magic, step, Encoded(magic, step, patterns)) == Rules(patterns) <==> Fits(step, patterns)
  {
    RulesCodec(step);
    hide RulesOf;
    var w := RulesOf(step);
    var bytes := Encoded(magic, step, patterns);
    assert bytes[..4] == magic && bytes[4..] == w.enc(patterns) == w.enc(patterns) + [];
    if Fits(step, patterns) {
      assert w.read(w.enc(patterns) + []) == Ok(patterns, []);
    }
  }

  // What is accepted was written by the encoder, byte for byte, and is within the limits.
  lemma AcceptedIsCanonical<S(!new)>(magic: seq<Byte>, step: Wire<S>, bytes: seq<Byte>)
    requires |magic| == 4 && Codec(step) && Decode(magic, step, bytes).Rules?
    ensures var patterns := Decode(magic, step, bytes).patterns;
      Encoded(magic, step, patterns) == bytes && Fits(step, patterns)
  {
    RulesCodec(step);
    hide RulesOf;
    var w := RulesOf(step);
    var patterns := Decode(magic, step, bytes).patterns;
    assert w.read(bytes[4..]).Ok?;
    assert bytes == bytes[..4] + bytes[4..];
    assert w.enc(patterns) + [] == w.enc(patterns);
  }

  // Cutting an encoding short is always noticed as such.
  lemma CutIsTruncated<S(!new)>(magic: seq<Byte>, step: Wire<S>, patterns: seq<Pattern<S>>, t: seq<Byte>)
    requires |magic| == 4 && Codec(step) && Fits(step, patterns) && IsCut(t, Encoded(magic, step, patterns))
    ensures Decode(magic, step, t) == Failed(Truncated)
  {
    RulesCodec(step);
    hide RulesOf;
    CutOfTwo(t, magic, RulesOf(step).enc(patterns));
    if |t| >= 4 {
      assert t[..4] == magic;
    }
  }

  // The three properties of the two formats.
  lemma BothFormats(linear: seq<Pattern<LinearStep>>, dag: seq<Pattern<DagStep>>, bytes: seq<Byte>)
    ensures Decode(MAGIC, LinearOf(), Encoded(MAGIC, LinearOf(), linear)) == Rules(linear) <==> Fits(LinearOf(), linear)
    ensures Decode(MAGIC_DAG, DagOf(), Encoded(MAGIC_DAG, DagOf(), dag)) == Rules(dag) <==> Fits(DagOf(), dag)
    ensures Decode(MAGIC, LinearOf(), bytes) == Rules(linear) <==>
      Fits(LinearOf(), linear) && bytes == Encoded(MAGIC, LinearOf(), linear)
    ensures Decode(MAGIC_DAG, DagOf(), bytes) == Rules(dag) <==>
      Fits(DagOf(), dag) && bytes == Encoded(MAGIC_DAG, DagOf(), dag)
    ensures Fits(LinearOf(), linear) && IsCut(bytes, Encoded(MAGIC, LinearOf(), linear)) ==>
      Decode(MAGIC, LinearOf(), bytes) == Failed(Truncated)
    ensures Fits(DagOf(), dag) && IsCut(bytes, Encoded(MAGIC_DAG, DagOf(), dag)) ==>
      Decode(MAGIC_DAG, DagOf(), bytes) == Failed(Truncated)
  {
    StepCodecs();
    hide LinearOf, DagOf, Codec, Decode, Encoded, Fits;
    OneFormat(MAGIC, LinearOf(), linear, bytes);
    OneFormat(MAGIC_DAG, DagOf(), dag, bytes);
  }

  lemma OneFormat<S(!new)>(magic: seq<Byte>, step: Wire<S>, patterns: seq<Pattern<S>>, bytes: seq<Byte>)
    requires |magic| == 4 && Codec(step)
    ensures Decode(magic, step, Encoded(magic, step, patterns)) == Rules(patterns) <==> Fits(step, patterns)
    ensures Decode(magic, step, bytes) == Rules(patterns) <==>
      Fits(step, patterns) && bytes == Encoded(magic, step, patterns)
    ensures Fits(step, patterns) && IsCut(bytes, Encoded(magic, step, patterns)) ==>
      Decode(magic, step, bytes) == Failed(Truncated)
  {
    hide Codec, Decode, Encoded, Fits;
    RoundTrip(magic, step, patterns);
    if Decode(magic, step, bytes).Rules? {
      AcceptedIsCanonical(magic, step, bytes);
    }
    if Fits(step, patterns) && IsCut(bytes, Encoded(magic, step, patterns)) {
      CutIsTruncated(magic, step, patterns, bytes);
    }
  }

  // ----- the field limits, spelled out -----

  ghost predicate MatchFits(m: Match) {
    m.ops < Range(4) && |m.ttps| < 256 && forall t | t in m.ttps :: t < Range(4)
  }

  ghost predicate StepFits(s: DagStep) {
    s.bit < 256 && s.prereq < Range(8) && MatchFits(s.matcher) && (s.action.Disarm? ==> s.action.ops < Range(4))
  }

  // The decoder lets through any bit up to 255, empty patterns and repeated bits: those are the compiler's
  // to refuse.
  lemma DagLimits(patterns: seq<Pattern<DagStep>>)
    ensures Fits(DagOf(), patterns) <==>
      && |patterns| < 65536
      && forall p | p in patterns ::
           |p.name| < 65536 && Utf8(p.name) && |p.steps| < 65536 && forall s | s in p.steps :: StepFits(s)
  {
    Ranges();
    hide Utf8;
    forall s: DagStep
      ensures DagOf().fits(s) <==> StepFits(s)
    {
      DagStepLimits(s);
    }
    hide DagOf, StepFits;
    forall p: Pattern<DagStep>
      ensures PatternOf(DagOf()).fits(p) <==>
        |p.name| < 65536 && Utf8(p.name) && |p.steps| < 65536 && forall s | s in p.steps :: StepFits(s)
    {
    }
    hide PatternOf;
  }

  lemma DagStepLimits(s: DagStep)
    ensures DagOf().fits(s) <==> StepFits(s)
  {
    Ranges();
    hide Range;
  }
}

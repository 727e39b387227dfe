/** The engines' rules and their wire form: the masks are words on the wire and sets of bits in the engines. */
module RulesOnWire {
  import opened Bitmasks
  import opened LittleEndian
  import opened Codecs
  import E = Events
  import D = DagSpec
  import F = WireFormat

  lemma {:induction false} WidthOf(bytes: nat)
    ensures Pow2(8 * bytes) == Range(bytes)
  {
    if bytes > 0 {
      WidthOf(bytes - 1);
      Pow2Next(8 * bytes - 8);
    }
  }

  lemma Pow2Next(n: nat)
    ensures Pow2(n + 8) == 256 * Pow2(n)
  {
    assert Pow2(n + 2) == 4 * Pow2(n) && Pow2(n + 4) == 4 * Pow2(n + 2) && Pow2(n + 6) == 4 * Pow2(n + 4);
    assert Pow2(n + 7) == 2 * Pow2(n + 6);
  }

  ghost predicate Within(m: E.Mask, n: nat) {
    forall b | b in m :: b < n
  }

  // ----- one step, as words and as sets -----

  ghost function ActionWords(a: E.Option<E.Action>): F.Action {
    match a
    case None => F.NoAction
    case Some(Block) => F.Block
    case Some(Disarm(ops)) => F.Disarm(Value(ops, 32))
  }

  ghost function ActionSets(a: F.Action): E.Option<E.Action> {
    match a
    case NoAction => E.None
    case Block => E.Some(E.Block)
    case Disarm(ops) => E.Some(E.Disarm(Bits(ops % Pow2(32), 32)))
  }

  ghost function StepWords(s: D.DagStep): F.DagStep {
    F.DagStep(s.bit, Value(s.prereq, 64), F.Match(Value(s.matcher.ops, 32), s.matcher.ttps), ActionWords(s.action))
  }

  ghost function StepSets(s: F.DagStep): D.DagStep {
    D.DagStep(E.StepMatch(Bits(s.matcher.ops % Pow2(32), 32), s.matcher.ttps), s.bit, Bits(s.prereq % Pow2(64), 64),
              ActionSets(s.action))
  }

  // Masks of 64 and 32 bits, one byte for the bit and the technique count, 32-bit techniques.
  ghost predicate StepFits(s: D.DagStep) {
    && s.bit < 256 && Within(s.prereq, 64) && Within(s.matcher.ops, 32)
    && |s.matcher.ttps| < 256 && (forall t | t in s.matcher.ttps :: t < Range(4))
    && (s.action.Some? && s.action.value.Disarm? ==> Within(s.action.value.ops, 32))
  }

  // Words and sets say the same: either form gives back the other.
  lemma WordsAreSets(s: D.DagStep)
    requires StepFits(s)
    ensures F.StepFits(StepWords(s)) && StepSets(StepWords(s)) == s
  {
    WidthOf(4);
    WidthOf(8);
    hide Pow2, Range, Value, Bits;
    MaskBack(s.prereq, 64);
    MaskBack(s.matcher.ops, 32);
    if s.action.Some? && s.action.value.Disarm? {
      MaskBack(s.action.value.ops, 32);
    }
  }

  // Field by field: the same bit, techniques and kind of action, and every mask by its bits.
  lemma FieldsStand(s: D.DagStep, b: nat)
    requires StepFits(s)
    ensures var w := StepWords(s);
      && w.bit == s.bit && w.matcher.ttps == s.matcher.ttps
      && (w.action == F.NoAction <==> s.action == E.None) && (w.action == F.Block <==> s.action == E.Some(E.Block))
      && (b < 64 ==> (b in s.prereq <==> Shifted(w.prereq, b) % 2 == 1))
      && (b < 32 ==> (b in s.matcher.ops <==> Shifted(w.matcher.ops, b) % 2 == 1))
      && (b < 32 && w.action.Disarm? ==> (b in s.action.value.ops <==> Shifted(w.action.ops, b) % 2 == 1))
  {
    hide Pow2, Value, Bits, Shifted;
    MaskBit(s.prereq, 64, b);
    MaskBit(s.matcher.ops, 32, b);
    if s.action.Some? && s.action.value.Disarm? {
      MaskBit(s.action.value.ops, 32, b);
    }
  }

  lemma MaskBit(m: E.Mask, n: nat, b: nat)
    requires Within(m, n)
    ensures b < n ==> (b in m <==> Shifted(Value(m, n), b) % 2 == 1)
  {
    if b < n {
      BitsOfWord(m, n);
      BitIsSet(Value(m, n), n, b);
    }
  }

  lemma MaskBack(m: E.Mask, n: nat)
    requires Within(m, n)
    ensures Bits(Value(m, n) % Pow2(n), n) == m
  {
    Small(Value(m, n), Pow2(n));
    BitsOfWord(m, n);
  }

  lemma SetsAreWords(s: F.DagStep)
    requires F.StepFits(s)
    ensures StepFits(StepSets(s)) && StepWords(StepSets(s)) == s
  {
    WidthOf(4);
    WidthOf(8);
    hide Pow2, Range, Value, Bits;
    WordBack(s.prereq, 64);
    WordBack(s.matcher.ops, 32);
    if s.action.Disarm? {
      WordBack(s.action.ops, 32);
    }
  }

  lemma WordBack(w: nat, n: nat)
    requires w < Pow2(n)
    ensures Value(Bits(w % Pow2(n), n), n) == w && Within(Bits(w % Pow2(n), n), n)
  {
    Small(w, Pow2(n));
    WordOfBits(w, n);
    BitsBelow(w, n);
  }

  // ----- whole rulesets -----

  ghost function PatternWords(name: seq<Byte>, p: D.DagPattern): F.Pattern<F.DagStep> {
    F.Pattern(name, seq(|p.steps|, i requires 0 <= i < |p.steps| => StepWords(p.steps[i])))
  }

  // The ruleset as it is sent, `names` being the pattern names in UTF-8.
  ghost function RulesWords(names: seq<seq<Byte>>, rules: D.Rules): seq<F.Pattern<F.DagStep>>
    requires |names| == |rules|
  {
    seq(|rules|, i requires 0 <= i < |rules| => PatternWords(names[i], rules[i]))
  }

  ghost predicate PatternArrives(p: D.DagPattern, received: F.Pattern<F.DagStep>) {
    && |received.steps| == |p.steps|
    && forall i | 0 <= i < |p.steps| :: StepSets(received.steps[i]) == p.steps[i]
  }

  // What the compiler sends is what the engine matches: after the trip over the wire every pattern has its
  // name, its steps and, bit for bit, their masks.
  lemma SentRulesArrive(names: seq<seq<Byte>>, rules: D.Rules)
    requires |names| == |rules| < 65536
    requires forall n | n in names :: |n| < 65536 && F.Utf8(n)
    requires forall p | p in rules :: |p.steps| < 65536 && forall s | s in p.steps :: StepFits(s)
    ensures var sent := F.Encoded(F.MAGIC_DAG, F.DagOf(), RulesWords(names, rules));
      var received := F.Decode(F.MAGIC_DAG, F.DagOf(), sent);
      && received.Rules? && |received.patterns| == |rules|
      && forall i | 0 <= i < |rules| ::
           received.patterns[i].name == names[i] && PatternArrives(rules[i], received.patterns[i])
  {
    hide F.Decode, F.Encoded, F.DagOf, F.Utf8, StepFits, F.StepFits, StepWords, StepSets, F.Fits;
    var sent := RulesWords(names, rules);
    forall i, k | 0 <= i < |rules| && 0 <= k < |rules[i].steps|
      ensures F.StepFits(sent[i].steps[k]) && StepSets(sent[i].steps[k]) == rules[i].steps[k]
    {
      assert rules[i] in rules && rules[i].steps[k] in rules[i].steps;
      WordsAreSets(rules[i].steps[k]);
    }
    forall p | p in sent
      ensures |p.name| < 65536 && F.Utf8(p.name) && |p.steps| < 65536 && forall s | s in p.steps :: F.StepFits(s)
    {
      var i :| 0 <= i < |sent| && sent[i] == p;
      assert rules[i] in rules && names[i] in names;
    }
    F.DagLimits(sent);
    F.BothFormats([], sent, []);
  }
}

/** The ruleset codec as it runs: encoders that append to a buffer, a reader that moves a position. */
module Wire {
  import opened LittleEndian
  import opened Codecs
  import opened WireFormat
  import WireLayout

  datatype Outcome<+T> = Got(value: T) | Lost(error: WireError) {
    predicate IsFailure() {
      Lost?
    }

    function PropagateFailure<U>(): Outcome<U>
      requires Lost?
    {
      Lost(error)
    }

    function Extract(): T
      requires Got?
    {
      value
    }
  }

  // A reader that stands at `rest` after reporting `r` did what `p` says.
  ghost predicate Follows<T>(p: Parsed<T>, r: Outcome<T>, rest: seq<Byte>) {
    match p
    case Ok(v, after) => r == Got(v) && rest == after
    case Err(e) => r == Lost(e)
  }

  // ----- encoding -----

  // Two appends are one.
  lemma Appends(out: seq<Byte>, a: seq<Byte>, b: seq<Byte>)
    ensures (out + a) + b == out + (a + b)
  {
  }

  lemma NoneEncoded<T>(w: Wire<T>, vs: seq<T>)
    ensures EncodeMany(w, vs[..0]) == []
  {
  }

  lemma ManyNext<T>(w: Wire<T>, vs: seq<T>, i: nat)
    requires i < |vs|
    ensures EncodeMany(w, vs[..i + 1]) == EncodeMany(w, vs[..i]) + w.enc(vs[i])
  {
    assert vs[..i + 1][..i] == vs[..i];
  }

  lemma MatchBytes(m: Match)
    ensures MatchOf().enc(m) == Wrapped(m.ops, 4) + (Wrapped(|m.ttps|, 1) + EncodeMany(WordOf(4), m.ttps))
  {
  }

  lemma LinearBytes(s: LinearStep)
    ensures LinearOf().enc(s) == MatchOf().enc(s.matcher) + EncodeAction(s.action)
  {
    hide MatchOf;
  }

  lemma DagBytes(s: DagStep)
    ensures DagOf().enc(s) == (Wrapped(s.bit, 1) + Wrapped(s.prereq,
        8)) + (MatchOf().enc(s.matcher) + EncodeAction(s.action))
  {
    hide MatchOf;
  }

  lemma PatternBytes<S(!new)>(step: Wire<S>, p: Pattern<S>)
    ensures PatternOf(step).enc(p)
         == (Wrapped(|p.name|, 2) + p.name) + (Wrapped(|p.steps|, 2) + EncodeMany(step, p.steps))
  {
  }

  lemma RulesBytes<S(!new)>(magic: seq<Byte>, step: Wire<S>, patterns: seq<Pattern<S>>)
    ensures Encoded(magic, step, patterns) == magic + (Wrapped(|patterns|, 2) + EncodeMany(PatternOf(step), patterns))
  {
    hide PatternOf;
  }

  method EncodeMatch(out: seq<Byte>, m: Match) returns (bytes: seq<Byte>)
    ensures bytes == out + MatchOf().enc(m)
  {
    hide Wrapped, EncodeMany, MatchOf;
    MatchBytes(m);
    bytes := out + Wrapped(m.ops, 4);
    bytes := bytes + Wrapped(|m.ttps|, 1);
    ghost var start := bytes;
    NoneEncoded(WordOf(4), m.ttps);
    for i := 0 to |m.ttps|
      invariant bytes == start + EncodeMany(WordOf(4), m.ttps[..i])
    {
      ManyNext(WordOf(4), m.ttps, i);
      Appends(start, EncodeMany(WordOf(4), m.ttps[..i]), Wrapped(m.ttps[i], 4));
      bytes := bytes + Wrapped(m.ttps[i], 4);
    }
    assert m.ttps[..|m.ttps|] == m.ttps;
    Appends(out, Wrapped(m.ops, 4), Wrapped(|m.ttps|, 1));
    Appends(out, Wrapped(m.ops, 4) + Wrapped(|m.ttps|, 1), EncodeMany(WordOf(4), m.ttps));
    Appends(Wrapped(m.ops, 4), Wrapped(|m.ttps|, 1), EncodeMany(WordOf(4), m.ttps));
  }

  method EncodeLinearSteps(out: seq<Byte>, steps: seq<LinearStep>) returns (bytes: seq<Byte>)
    ensures bytes == out + (Wrapped(|steps|, 2) + EncodeMany(LinearOf(), steps))
  {
    hide Wrapped, EncodeMany, MatchOf, LinearOf, EncodeAction;
    bytes := out + Wrapped(|steps|, 2);
    ghost var start := bytes;
    NoneEncoded(LinearOf(), steps);
    for i := 0 to |steps|
      invariant bytes == start + EncodeMany(LinearOf(), steps[..i])
    {
      ghost var before := bytes;
      var s := steps[i];
      bytes := EncodeMatch(bytes, s.matcher);
      bytes := bytes + EncodeAction(s.action);
      LinearBytes(s);
      Appends(before, MatchOf().enc(s.matcher), EncodeAction(s.action));
      ManyNext(LinearOf(), steps, i);
      Appends(start, EncodeMany(LinearOf(), steps[..i]), LinearOf().enc(s));
    }
    assert steps[..|steps|] == steps;
    Appends(out, Wrapped(|steps|, 2), EncodeMany(LinearOf(), steps));
  }

  method EncodeDagSteps(out: seq<Byte>, steps: seq<DagStep>) returns (bytes: seq<Byte>)
    ensures bytes == out + (Wrapped(|steps|, 2) + EncodeMany(DagOf(), steps))
  {
    hide Wrapped, EncodeMany, MatchOf, DagOf, EncodeAction;
    bytes := out + Wrapped(|steps|, 2);
    ghost var start := bytes;
    NoneEncoded(DagOf(), steps);
    for i := 0 to |steps|
      invariant bytes == start + EncodeMany(DagOf(), steps[..i])
    {
      ghost var before := bytes;
      var s := steps[i];
      bytes := bytes + Wrapped(s.bit, 1);
      bytes := bytes + Wrapped(s.prereq, 8);
      ghost var words := bytes;
      bytes := EncodeMatch(bytes, s.matcher);
      bytes := bytes + EncodeAction(s.action);
      DagBytes(s);
      Appends(before, Wrapped(s.bit, 1), Wrapped(s.prereq, 8));
      Appends(words, MatchOf().enc(s.matcher), EncodeAction(s.action));
      Appends(before, Wrapped(s.bit, 1) + Wrapped(s.prereq, 8), MatchOf().enc(s.matcher) + EncodeAction(s.action));
      ManyNext(DagOf(), steps, i);
      Appends(start, EncodeMany(DagOf(), steps[..i]), DagOf().enc(s));
    }
    assert steps[..|steps|] == steps;
    Appends(out, Wrapped(|steps|, 2), EncodeMany(DagOf(), steps));
  }

  method Encode(patterns: seq<Pattern<LinearStep>>) returns (out: seq<Byte>)
    ensures out == Encoded(MAGIC, LinearOf(), patterns) == WireLayout.LinearBytes(patterns)
  {
    WireLayout.LinearFormat(patterns);
    hide WireLayout.LinearBytes;
    hide Wrapped, EncodeMany, LinearOf, PatternOf, Encoded;
    out := MAGIC;
    out := out + Wrapped(|patterns|, 2);
    ghost var w, start := PatternOf(LinearOf()), out;
    NoneEncoded(w, patterns);
    for i := 0 to |patterns|
      invariant out == start + EncodeMany(w, patterns[..i])
    {
      ghost var before := out;
      var p := patterns[i];
      out := out + Wrapped(|p.name|, 2);
      out := out + p.name;
      out := EncodeLinearSteps(out, p.steps);
      PatternAppended(LinearOf(), p, before);
      ManyNext(w, patterns, i);
      Appends(start, EncodeMany(w, patterns[..i]), w.enc(p));
    }
    assert patterns[..|patterns|] == patterns;
    RulesBytes(MAGIC, LinearOf(), patterns);
    Appends(MAGIC, Wrapped(|patterns|, 2), EncodeMany(w, patterns));
  }

  lemma PatternAppended<S(!new)>(step: Wire<S>, p: Pattern<S>, out: seq<Byte>)
    ensures out + Wrapped(|p.name|, 2) + p.name + (Wrapped(|p.steps|, 2) + EncodeMany(step,
        p.steps)) == out + PatternOf(step).enc(p)
  {
    hide Wrapped, EncodeMany, PatternOf;
    PatternBytes(step, p);
    Appends(out, Wrapped(|p.name|, 2), p.name);
    Appends(out, Wrapped(|p.name|, 2) + p.name, Wrapped(|p.steps|, 2) + EncodeMany(step, p.steps));
  }

  method EncodeDag(patterns: seq<Pattern<DagStep>>) returns (out: seq<Byte>)
    ensures out == Encoded(MAGIC_DAG, DagOf(), patterns) == WireLayout.DagBytes(patterns)
  {
    WireLayout.DagFormat(patterns);
    hide WireLayout.DagBytes;
    hide Wrapped, EncodeMany, DagOf, PatternOf, Encoded;
    out := MAGIC_DAG;
    out := out + Wrapped(|patterns|, 2);
    ghost var w, start := PatternOf(DagOf()), out;
    NoneEncoded(w, patterns);
    for i := 0 to |patterns|
      invariant out == start + EncodeMany(w, patterns[..i])
    {
      ghost var before := out;
      var p := patterns[i];
      out := out + Wrapped(|p.name|, 2);
      out := out + p.name;
      out := EncodeDagSteps(out, p.steps);
      PatternAppended(DagOf(), p, before);
      ManyNext(w, patterns, i);
      Appends(start, EncodeMany(w, patterns[..i]), w.enc(p));
    }
    assert patterns[..|patterns|] == patterns;
    RulesBytes(MAGIC_DAG, DagOf(), patterns);
    Appends(MAGIC_DAG, Wrapped(|patterns|, 2), EncodeMany(w, patterns));
  }

  // ----- decoding -----

  // An error met part of the way is the error of the whole run.
  lemma {:induction false} ManyStops<T>(w: Wire<T>, s: seq<Byte>, i: nat, count: nat)
    requires i <= count && ReadMany(w, s, i).Err?
    ensures ReadMany(w, s, count) == ReadMany(w, s, i)
    decreases count
  {
    if i < count {
      ManyStops(w, s, i, count - 1);
    }
  }

  class Reader {
    const bytes: seq<Byte>
    var pos: nat

    ghost predicate Valid()
      reads this
    {
      pos <= |bytes|
    }

    ghost function Rest(): seq<Byte>
      reads this
      requires Valid()
    {
      bytes[pos..]
    }

    constructor (bytes: seq<Byte>)
      ensures Valid() && this.bytes == bytes && pos == 0
    {
      this.bytes := bytes;
      pos := 0;
    }

    method Take(n: nat) returns (r: Outcome<seq<Byte>>)
      requires Valid()
      modifies this
      ensures Valid() && Follows(ReadBytes(old(Rest()), n), r, Rest())
    {
      assert pos + n <= |bytes| ==> Rest()[..n] == bytes[pos..pos + n] && Rest()[n..] == bytes[pos + n..];
      if pos + n > |bytes| {
        return Lost(Truncated);
      }
      r := Got(bytes[pos..pos + n]);
      pos := pos + n;
    }

    method Number(n: nat) returns (r: Outcome<nat>)
      requires Valid()
      modifies this
      ensures Valid() && Follows(ReadWord(old(Rest()), n), r, Rest())
    {
      var s :- Take(n);
      return Got(Word(s));
    }

    method ReadMatch() returns (r: Outcome<Match>)
      requires Valid()
      modifies this
      ensures Valid() && Follows(MatchOf().read(old(Rest())), r, Rest())
    {
      hide ReadWord;
      ghost var before := Rest();
      var ops :- Number(4);
      var count :- Number(1);
      ghost var start := Rest();
      assert ReadPair(WordOf(4), Counted(1, WordOf(4)), before) ==
        match ReadMany(WordOf(4), start, count) case Err(e) => Err(e) case Ok(vs, rest) => Ok((ops, vs), rest);
      var ttps := [];
      for i := 0 to count
        invariant Valid() && ReadMany(WordOf(4), start, i) == Ok(ttps, Rest())
      {
        var t := Number(4);
        if t.Lost? {
          ManyStops(WordOf(4), start, i + 1, count);
          return Lost(t.error);
        }
        ttps := ttps + [t.value];
      }
      return Got(Match(ops, ttps));
    }

    method Action() returns (r: Outcome<Action>)
      requires Valid()
      modifies this
      ensures Valid() && Follows(ReadAction(old(Rest())), r, Rest())
    {
      ghost var before := Rest();
      var s :- Take(1);
      assert before != [] && s[0] == before[0] && Rest() == before[1..];
      if s[0] == 0 {
        return Got(NoAction);
      } else if s[0] == 1 {
        return Got(Block);
      } else if s[0] == 2 {
        var ops :- Number(4);
        return Got(Disarm(ops));
      } else {
        return Lost(BadAction(s[0]));
      }
    }

    method LinearStep() returns (r: Outcome<LinearStep>)
      requires Valid()
      modifies this
      ensures Valid() && Follows(LinearOf().read(old(Rest())), r, Rest())
    {
      hide MatchOf, WireFormat.ReadAction;
      var m :- ReadMatch();
      var a :- Action();
      return Got(WireFormat.LinearStep(m, a));
    }

    method DagStep() returns (r: Outcome<DagStep>)
      requires Valid()
      modifies this
      ensures Valid() && Follows(DagOf().read(old(Rest())), r, Rest())
    {
      hide MatchOf, WireFormat.ReadAction, ReadWord;
      var bit :- Number(1);
      var prereq :- Number(8);
      var m :- ReadMatch();
      var a :- Action();
      return Got(WireFormat.DagStep(bit, prereq, m, a));
    }

    method LinearSteps(count: nat) returns (r: Outcome<seq<LinearStep>>)
      requires Valid()
      modifies this
      ensures Valid() && Follows(ReadMany(LinearOf(), old(Rest()), count), r, Rest())
    {
      hide LinearOf;
      ghost var start := Rest();
      var steps := [];
      for i := 0 to count
        invariant Valid() && ReadMany(LinearOf(), start, i) == Ok(steps, Rest())
      {
        var s := LinearStep();
        if s.Lost? {
          ManyStops(LinearOf(), start, i + 1, count);
          return Lost(s.error);
        }
        steps := steps + [s.value];
      }
      return Got(steps);
    }

    method DagSteps(count: nat) returns (r: Outcome<seq<DagStep>>)
      requires Valid()
      modifies this
      ensures Valid() && Follows(ReadMany(DagOf(), old(Rest()), count), r, Rest())
    {
      hide DagOf;
      ghost var start := Rest();
      var steps := [];
      for i := 0 to count
        invariant Valid() && ReadMany(DagOf(), start, i) == Ok(steps, Rest())
      {
        var s := DagStep();
        if s.Lost? {
          ManyStops(DagOf(), start, i + 1, count);
          return Lost(s.error);
        }
        steps := steps + [s.value];
      }
      return Got(steps);
    }

    method Name() returns (r: Outcome<seq<Byte>>)
      requires Valid()
      modifies this
      ensures Valid() && Follows(ReadName(old(Rest())), r, Rest())
    {
      hide Utf8, ReadWord, ReadBytes;
      var n :- Number(2);
      var name :- Take(n);
      if !Utf8(name) {
        return Lost(BadUtf8);
      }
      return Got(name);
    }

    method LinearPattern() returns (r: Outcome<Pattern<LinearStep>>)
      requires Valid()
      modifies this
      ensures Valid() && Follows(PatternOf(LinearOf()).read(old(Rest())), r, Rest())
    {
      hide LinearOf, ReadName, ReadWord, ReadMany;
      var name :- Name();
      var count :- Number(2);
      var steps :- LinearSteps(count);
      return Got(Pattern(name, steps));
    }

    method LinearRules(magic: seq<Byte>) returns (r: Decoded<LinearStep>)
      requires Valid() && pos == 0 && |magic| == 4
      modifies this
      ensures r == WireFormat.Decode(magic, LinearOf(), bytes)
    {
      hide LinearOf, PatternOf, ReadWord;
      assert Rest() == bytes;
      var m := Take(4);
      if m.Lost? {
        return Failed(Truncated);
      } else if m.value != magic {
        return Failed(BadMagic);
      }
      assert Rest() == bytes[4..];
      var count := Number(2);
      if count.Lost? {
        return Failed(count.error);
      }
      ghost var w, start := PatternOf(LinearOf()), Rest();
      var patterns := [];
      for i := 0 to count.value
        invariant Valid() && ReadMany(w, start, i) == Ok(patterns, Rest())
      {
        var p := LinearPattern();
        if p.Lost? {
          ManyStops(w, start, i + 1, count.value);
          return Failed(p.error);
        }
        patterns := patterns + [p.value];
      }
      if pos != |bytes| {
        return Failed(TrailingBytes);
      }
      return Rules(patterns);
    }

    method DagPattern() returns (r: Outcome<Pattern<DagStep>>)
      requires Valid()
      modifies this
      ensures Valid() && Follows(PatternOf(DagOf()).read(old(Rest())), r, Rest())
    {
      hide DagOf, ReadName, ReadWord, ReadMany;
      var name :- Name();
      var count :- Number(2);
      var steps :- DagSteps(count);
      return Got(Pattern(name, steps));
    }

    method DagRules(magic: seq<Byte>) returns (r: Decoded<DagStep>)
      requires Valid() && pos == 0 && |magic| == 4
      modifies this
      ensures r == WireFormat.Decode(magic, DagOf(), bytes)
    {
      hide DagOf, PatternOf, ReadWord;
      assert Rest() == bytes;
      var m := Take(4);
      if m.Lost? {
        return Failed(Truncated);
      } else if m.value != magic {
        return Failed(BadMagic);
      }
      assert Rest() == bytes[4..];
      var count := Number(2);
      if count.Lost? {
        return Failed(count.error);
      }
      ghost var w, start := PatternOf(DagOf()), Rest();
      var patterns := [];
      for i := 0 to count.value
        invariant Valid() && ReadMany(w, start, i) == Ok(patterns, Rest())
      {
        var p := DagPattern();
        if p.Lost? {
          ManyStops(w, start, i + 1, count.value);
          return Failed(p.error);
        }
        patterns := patterns + [p.value];
      }
      if pos != |bytes| {
        return Failed(TrailingBytes);
      }
      return Rules(patterns);
    }
  }

  method Decode(bytes: seq<Byte>) returns (r: Decoded<LinearStep>)
    ensures r == WireFormat.Decode(MAGIC, LinearOf(), bytes)
  {
    var reader := new Reader(bytes);
    r := reader.LinearRules(MAGIC);
  }

  method DecodeDag(bytes: seq<Byte>) returns (r: Decoded<DagStep>)
    ensures r == WireFormat.Decode(MAGIC_DAG, DagOf(), bytes)
  {
    var reader := new Reader(bytes);
    r := reader.DagRules(MAGIC_DAG);
  }
}

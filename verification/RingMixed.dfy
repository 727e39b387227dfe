/** Frames of several lengths: when TotalSize can be trusted as the commit flag, and when it cannot. */
module RingMixed {
  import opened LittleEndian
  import opened RingLayout
  import opened RingSteps
  import opened RingSafety
  import opened RingProof
  import opened RingRuns
  import opened RingOneLength
  import opened RingReach

  // For every reservation not yet released, a zero TotalSize means uncommitted and nothing else does.
  ghost predicate ZeroMeansUncommitted(c: Config, s: State)
    requires c.size > 0
  {
    forall i | Live(s.log, s.consumed, i) ::
      Off(c, s.log[i].pos) + 4 <= |s.mem| && (Total(s.mem, Off(c, s.log[i].pos)) == 0 <==> !s.log[i].committed)
  }

  lemma InvTellsCommits(c: Config, s: State)
    requires ConfigOk(c) && Inv(c, s)
    ensures ZeroMeansUncommitted(c, s)
  {
    hide LogOk, Window, Each, Exclusive, Attended, ConsumerOk, History, Off, Total;
  }

  // A reservation that is not clean breaks it at once.
  lemma StaleTellsWrong(c: Config, s: State, p: nat, s': State)
    requires ConfigOk(c) && Inv(c, s) && p < |s.producers| && CasWins(c, s, p, s') && !CleanReservation(c, s, p)
    ensures !ZeroMeansUncommitted(c, s')
  {
    hide Inv, Reserve, FrameOk, Off, Total;
    InvConsumed(c, s);
    var Reserving(f, prio, h, t) := s.producers[p];
    StaleEntry(c, s.mem, s.log, s.consumed, Entries(h, Reserve(h, t, c.size, prio, |f|).pad, f));
  }

  lemma InvConsumed(c: Config, s: State)
    requires ConfigOk(c) && Inv(c, s)
    ensures s.consumed <= |s.log|
  {
    hide LogOk, Cells, Each, Exclusive, Attended, ConsumerOk, History;
  }

  lemma StaleEntry(c: Config, mem: seq<Byte>, log: seq<Entry>, consumed: nat, es: seq<Entry>)
    requires c.size > 0 && consumed <= |log| && !CleanEntries(c, mem, es) && forall e | e in es :: !e.committed
    ensures var log' := log + es;
      exists i :: Live(log', consumed, i) && !log'[i].committed && !ReadsZero(c, mem, log'[i].pos)
  {
    hide ReadsZero;
    var e :| e in es && !ReadsZero(c, mem, e.pos);
    var k :| 0 <= k < |es| && es[k] == e;
    assert (log + es)[|log| + k] == e && Live(log + es, consumed, |log| + k);
  }

  // ----- a stale reservation, for any two lengths -----

  // A frame whose body is all ones.
  ghost function Ones(n: nat): seq<Byte>
    requires 8 <= n < Range(4)
  {
    Le(n, 4) + seq(n - 4, _ => 1)
  }

  lemma OnesOk(c: Config, n: nat)
    requires ConfigOk(c) && n in c.lengths
    ensures 8 <= n <= c.size && n % 8 == 0 && n < Range(4)
    ensures var f := Ones(n); |f| == n && FrameOk(c, f) && forall j | 4 <= j < n :: f[j] == 1
  {
    assert n < Range(4);
    var f := Ones(n);
    assert f[..4] == Le(n, 4) && f[4] == 1 && f[4..6][0] == 1;
  }

  // In the first lap, behind a frame of length `b` at offset zero whose body still holds ones at `a`;
  // everything from the head on is untouched.
  ghost predicate Scene(c: Config, a: nat, b: nat, s: State)
    requires c.size > 0
  {
    && Quiet(s) && |s.mem| == c.size && b <= s.head <= c.size
    && OnesAt(s.mem, a) && ZeroFrom(s.mem, 0, 4) && ZeroFrom(s.mem, s.head, c.size)
  }

  ghost predicate OnesAt(mem: seq<Byte>, a: nat) {
    a + 4 <= |mem| && forall j | a <= j < a + 4 :: mem[j] == 1
  }

  ghost predicate ZeroFrom(mem: seq<Byte>, lo: nat, hi: nat) {
    hi <= |mem| && forall j | lo <= j < hi :: mem[j] == 0
  }

  lemma ZeroReadsZero(c: Config, mem: seq<Byte>, pos: nat, hi: nat)
    requires c.size > 0 && ZeroFrom(mem, Off(c, pos), hi) && Off(c, pos) + 4 <= hi
    ensures ReadsZero(c, mem, pos)
  {
    ZeroWord(mem[Off(c, pos)..Off(c, pos) + 4]);
  }

  lemma WordIsZero(mem: seq<Byte>, off: nat)
    requires off + 4 <= |mem| && Total(mem, off) == 0
    ensures ZeroFrom(mem, off, off + 4)
  {
    ZeroWord(mem[off..off + 4]);
    forall j | off <= j < off + 4
      ensures mem[j] == 0
    {
      assert mem[j] == mem[off..off + 4][j - off];
    }
  }

  lemma OnesReadNonZero(mem: seq<Byte>, a: nat)
    requires OnesAt(mem, a)
    ensures Total(mem, a) != 0
  {
    ZeroWord(mem[a..a + 4]);
    assert mem[a..a + 4][0] == mem[a];
  }

  lemma OffInFirstLap(c: Config, pos: nat)
    requires c.size > 0
    ensures pos < c.size ==> Off(c, pos) == pos
    ensures c.size <= pos < 2 * c.size ==> Off(c, pos) == pos - c.size
  {
  }

  // Where a frame of `n` bytes goes from an empty ring, with enforcement's budget.
  lemma ReserveFrom(c: Config, head: nat, n: nat)
    requires ConfigOk(c) && 8 <= n <= c.size && head < 2 * c.size
    ensures head < WORD64
    ensures var o := if head < c.size then head else head - c.size;
      Reserve(head, head, c.size, Enforce, n) ==
        if o + n <= c.size then Reserved(o, 0, head + n)
        else if c.size - o + n <= c.size then Reserved(0, c.size - o, head + (c.size - o) + n)
        else Dropped
  {
    Ranges();
    OffInFirstLap(c, head);
  }

  // The longer frame first, at offset zero.
  lemma LongFrameFirst(c: Config, a: nat, b: nat) returns (s: State)
    requires ConfigOk(c) && a in c.lengths && b in c.lengths && a < b
    ensures Reachable(c, s) && Scene(c, a, b, s)
  {
    hide Reachable, FrameOk, Reserve, Round;
    OnesOk(c, a);
    OnesOk(c, b);
    var s0 := State(seq(c.size, _ => 0), 0, 0, 0, 0, [Idle], Polling, 0, [], 0, 0, [], multiset{});
    StartReachable(c, s0);
    ReserveFrom(c, 0, b);
    OffInFirstLap(c, 0);
    ZeroReadsZero(c, s0.mem, 0, c.size);
    s := OneRound(c, s0, Ones(b));
    FirstRound(c, a, b, s0, s);
  }

  // A round read off with the reservation known: offsets `off` of the pad and `at` of the frame.
  ghost predicate RoundAt(c: Config, s: State, f: seq<Byte>, s': State, off: nat, pad: nat, at: nat) {
    && Quiet(s') && |s'.mem| == |s.mem| == c.size && at + |f| <= c.size && at + 4 <= |s'.mem|
    && Total(s'.mem, at) == 0
    && (forall j | 4 <= j < |f| :: s'.mem[at + j] == f[j])
    && forall j | 0 <= j < |s.mem| && Outside(off, off + pad, j) && Outside(at, at + |f|, j) :: s'.mem[j] == s.mem[j]
  }

  lemma RoundIsAt(c: Config, s: State, f: seq<Byte>, s': State, pad: nat)
    requires ConfigOk(c) && s.head < WORD64 && Round(c, s, f, s')
    requires pad == Reserve(s.head, s.head, c.size, Enforce, |f|).pad
    ensures RoundAt(c, s, f, s', Off(c, s.head), pad, Off(c, s.head + pad))
    ensures s'.head == Reserve(s.head, s.head, c.size, Enforce, |f|).newHead
  {
    hide Reserve, Off, Total;
  }

  lemma FirstRound(c: Config, a: nat, b: nat, s0: State, s: State)
    requires ConfigOk(c) && a in c.lengths && b in c.lengths && a < b && 8 <= b < Range(4)
    requires s0.head == 0 && ZeroFrom(s0.mem, 0, c.size) && Round(c, s0, Ones(b), s)
    ensures Scene(c, a, b, s)
  {
    hide FrameOk, Reserve, Total, Round, Ones, Off;
    OnesOk(c, a);
    OnesOk(c, b);
    ReserveFrom(c, 0, b);
    OffInFirstLap(c, 0);
    RoundIsAt(c, s0, Ones(b), s, 0);
    WordIsZero(s.mem, 0);
    BodyIsOnes(s.mem, Ones(b), a);
    hide RoundAt;
    UntouchedAfter(c, s0, Ones(b), s, 0);
  }

  lemma BodyIsOnes(mem: seq<Byte>, f: seq<Byte>, a: nat)
    requires 4 <= a && a + 4 <= |f| <= |mem| && (forall j | 4 <= j < |f| :: mem[0 + j] == f[j] == 1)
    ensures OnesAt(mem, a)
  {
    forall j | a <= j < a + 4
      ensures mem[j] == 1
    {
      assert mem[0 + j] == f[j];
    }
  }

  // Zeros behind the new head stay zeros.
  lemma UntouchedAfter(c: Config, s: State, f: seq<Byte>, s': State, at: nat)
    requires RoundAt(c, s, f, s', at, 0, at) && ZeroFrom(s.mem, at, c.size)
    ensures ZeroFrom(s'.mem, at + |f|, c.size)
  {
    hide Quiet, Total;
  }

  // One more short frame in the first lap.
  lemma ShortFrameNext(c: Config, a: nat, b: nat, s: State) returns (s': State)
    requires ConfigOk(c) && a in c.lengths && b in c.lengths && a < b
    requires Reachable(c, s) && Scene(c, a, b, s) && s.head + a <= c.size
    ensures Reachable(c, s') && Scene(c, a, b, s') && s'.head == s.head + a
  {
    hide Reachable, FrameOk, Reserve, Round, Ones, Off, Total;
    OnesOk(c, a);
    OnesOk(c, b);
    ReserveFrom(c, s.head, a);
    OffInFirstLap(c, s.head);
    ZeroReadsZero(c, s.mem, s.head, c.size);
    s' := OneRound(c, s, Ones(a));
    RoundIsAt(c, s, Ones(a), s', 0);
    UntouchedAfter(c, s, Ones(a), s', s.head);
  }

  lemma {:induction false} FillsFirstLap(c: Config, a: nat, b: nat, s: State) returns (s': State)
    requires ConfigOk(c) && a in c.lengths && b in c.lengths && a < b && Reachable(c, s) && Scene(c, a, b, s)
    ensures Reachable(c, s') && Scene(c, a, b, s') && s'.head + a > c.size
    decreases c.size - s.head
  {
    hide Reachable, FrameOk, Scene;
    SceneBounds(c, a, b, s);
    if s.head + a > c.size {
      s' := s;
    } else {
      var s1 := ShortFrameNext(c, a, b, s);
      s' := FillsFirstLap(c, a, b, s1);
    }
  }

  lemma SceneBounds(c: Config, a: nat, b: nat, s: State)
    requires ConfigOk(c) && a in c.lengths && Scene(c, a, b, s)
    ensures b <= s.head <= c.size && a >= 8
  {
  }

  // The short frame wraps to offset zero, and the head stops in the middle of the old body.
  lemma ShortFrameWraps(c: Config, a: nat, b: nat, s: State) returns (s': State)
    requires ConfigOk(c) && a in c.lengths && b in c.lengths && a < b
    requires Reachable(c, s) && Scene(c, a, b, s) && s.head + a > c.size
    ensures Reachable(c, s') && Quiet(s') && s'.head == c.size + a && |s'.mem| == c.size && OnesAt(s'.mem, a)
  {
    hide Reachable, FrameOk, Reserve, Round, Ones, Off, Total;
    OnesOk(c, a);
    OnesOk(c, b);
    ReserveFrom(c, s.head, a);
    OffInFirstLap(c, s.head);
    OffInFirstLap(c, c.size);
    ZeroReadsZero(c, s.mem, c.size, 4);
    if s.head < c.size {
      HeadAligned(c, s);
      ZeroReadsZero(c, s.mem, s.head, c.size);
    }
    s' := OneRound(c, s, Ones(a));
    RoundIsAt(c, s, Ones(a), s', c.size - s.head);
  }

  lemma HeadAligned(c: Config, s: State)
    requires ConfigOk(c) && Reachable(c, s) && s.head < c.size
    ensures s.head + 8 <= c.size
  {
    hide Reachable, Inv;
    ReachableInv(c, s);
    HeadPlace(c, s);
    NextMultiple(s.head, c.size);
  }

  lemma NextMultiple(x: nat, y: nat)
    requires x % 8 == 0 && y % 8 == 0 && x < y
    ensures x + 8 <= y
  {
  }

  // Any two lengths lead to a reservation whose TotalSize word reads as a commit.
  lemma TwoLengthsGoStale(c: Config, a: nat, b: nat) returns (s: State, s': State)
    requires ConfigOk(c) && a in c.lengths && b in c.lengths && a < b
    ensures Reachable(c, s) && |s.producers| == 1 && CasWins(c, s, 0, s') && !CleanReservation(c, s, 0)
  {
    hide Reachable, FrameOk, Reserve, Scene, Ones, Off;
    OnesOk(c, a);
    var s0 := LongFrameFirst(c, a, b);
    var s1 := FillsFirstLap(c, a, b, s0);
    var s2 := ShortFrameWraps(c, a, b, s1);
    ReserveFrom(c, s2.head, a);
    OnesOk(c, b);
    s := Prepares(c, s2, Ones(a));
    s' := AfterCas(c, s2, Ones(a));
    assert CasWins(c, s, 0, s');
    LandsOnOnes(c, s2, Ones(a), a);
  }

  lemma LandsOnOnes(c: Config, s: State, f: seq<Byte>, a: nat)
    requires ConfigOk(c) && s.head == c.size + a && a < c.size && s.head < WORD64
    requires |s.mem| == c.size && OnesAt(s.mem, a)
    ensures var r := Reserve(s.head, s.head, c.size, Enforce, |f|);
      r.Reserved? ==> !CleanEntries(c, s.mem, Entries(s.head, r.pad, f))
  {
    hide Reserve, Total;
    OffInFirstLap(c, s.head);
    OnesReadNonZero(s.mem, a);
    var r := Reserve(s.head, s.head, c.size, Enforce, |f|);
    if r.Reserved? {
      var es := Entries(s.head, r.pad, f);
      assert es[0].pos == s.head && es[0] in es;
    }
  }

  // ----- exactly one length -----

  // Whether a zero TotalSize means "not committed", and nothing else does, in every state of every run.
  ghost predicate FlagCanBeTrusted(c: Config)
    requires c.size > 0
  {
    forall run: seq<State>, i: nat | IsRun(c, run) && i < |run| :: ZeroMeansUncommitted(c, run[i])
  }

  // It can be trusted exactly when no two frames have different lengths.
  lemma TrustedIffOneLength(c: Config)
    requires ConfigOk(c)
    ensures FlagCanBeTrusted(c) <==> |c.lengths| <= 1
  {
    if |c.lengths| <= 1 {
      forall run: seq<State>, i: nat | IsRun(c, run) && i < |run|
        ensures ZeroMeansUncommitted(c, run[i])
      {
        OneLengthIsClean(c, run, i);
        RunKeepsInv(c, run, i);
        InvTellsCommits(c, run[i]);
      }
    } else {
      var a, b := TwoOf(c.lengths);
      var s, s' := TwoLengthsGoStale(c, a, b);
      MistrustedRun(c, s, s');
    }
  }

  lemma TwoOf(s: set<nat>) returns (a: nat, b: nat)
    requires |s| > 1
    ensures a in s && b in s && a < b
  {
    var x :| x in s;
    assert |s - {x}| == |s| - 1;
    var y :| y in s - {x};
    a, b := if x < y then x else y, if x < y then y else x;
  }

  lemma MistrustedRun(c: Config, s: State, s': State)
    requires ConfigOk(c) && Reachable(c, s) && |s.producers| == 1 && CasWins(c, s, 0, s') && !CleanReservation(c, s, 0)
    ensures !FlagCanBeTrusted(c)
  {
    ReachableInv(c, s);
    StaleTellsWrong(c, s, 0, s');
    hide CasWins, CleanReservation, ZeroMeansUncommitted, Inv, Clean, IsRun;
    var run :| |run| > 0 && IsRun(c, run) && Clean(c, run, |run| - 1) && run[|run| - 1] == s;
    assert ProducerStep(c, s, 0, s');
    assert Next(c, s, s');
    Extend(c, run, s');
    assert (run + [s'])[|run|] == s';
  }
}

/** Frames of one length: every lap starts its entries at the same offsets, so no reservation ever lands on
    old body bytes. */
module RingOneLength {
  import opened LittleEndian
  import opened Modular
  import opened RingLayout
  import opened RingSteps
  import opened RingSafety
  import opened RingProof
  import opened RingRuns

  ghost predicate OneLength(c: Config, n: nat) {
    FRAME_HEADER <= n <= c.size && forall m | m in c.lengths :: m == n
  }

  ghost predicate IsSlot(c: Config, n: nat, off: nat)
    requires n > 0
  {
    off < c.size && off % n == 0
  }

  // Entries start at multiples of the length; a pad is shorter.
  ghost predicate AtSlot(c: Config, n: nat, e: Entry)
    requires n > 0 && c.size > 0
  {
    IsSlot(c, n, Off(c, e.pos)) && e.len <= n
  }

  ghost predicate Slots(c: Config, n: nat, log: seq<Entry>, head: nat)
    requires n > 0 && c.size > 0
  {
    IsSlot(c, n, Off(c, head)) && forall i | 0 <= i < |log| :: AtSlot(c, n, log[i])
  }

  ghost predicate LiveAt(c: Config, log: seq<Entry>, consumed: nat, off: nat)
    requires c.size > 0
  {
    exists i :: Live(log, consumed, i) && Off(c, log[i].pos) == off
  }

  // No stale TotalSize: a slot nobody holds reads as uncommitted.
  ghost predicate Blank(c: Config, n: nat, mem: seq<Byte>, log: seq<Entry>, consumed: nat)
    requires n > 0 && c.size > 0
  {
    forall o: nat | IsSlot(c, n, o) && o + 4 <= |mem| && !LiveAt(c, log, consumed, o) :: Total(mem, o) == 0
  }

  ghost predicate Tidy(c: Config, n: nat, s: State)
    requires n > 0 && c.size > 0
  {
    Slots(c, n, s.log, s.head) && Blank(c, n, s.mem, s.log, s.consumed)
  }

  lemma SlotsApart(c: Config, n: nat, a: nat, b: nat)
    requires n > 0 && IsSlot(c, n, a) && IsSlot(c, n, b) && a < b
    ensures a + n <= b
  {
    var x, y := a / n, b / n;
    assert a == x * n && b == y * n;
    if x >= y {
      MulMonotone(y, x, n);
    } else {
      MulMonotone(x + 1, y, n);
      assert (x + 1) * n == x * n + n;
    }
  }

  lemma MulMonotone(x: nat, y: nat, n: nat)
    requires x <= y
    ensures x * n <= y * n
  {
  }

  // ----- reserving -----

  lemma SlotAfter(c: Config, n: nat, off: nat)
    requires n > 0 && IsSlot(c, n, off) && off + n < c.size
    ensures IsSlot(c, n, off + n)
  {
    ModUnique(off + n, off / n + 1, 0, n);
  }

  lemma ZeroSlot(c: Config, n: nat)
    requires n > 0 && c.size > 0
    ensures IsSlot(c, n, 0)
  {
  }

  lemma FrameEnds(c: Config, n: nat, at: nat)
    requires ConfigOk(c) && n > 0 && IsSlot(c, n, Off(c, at)) && Off(c, at) + n <= c.size
    ensures IsSlot(c, n, Off(c, at + n))
  {
    hide Off, IsSlot;
    ZeroSlot(c, n);
    OffMoves(c, at, n);
    if Off(c, at) + n < c.size {
      SlotAfter(c, n, Off(c, at));
    }
  }

  lemma EntriesAtSlots(c: Config, n: nat, head: nat, tail: nat, prio: Priority, f: seq<Byte>)
    requires ConfigOk(c) && OneLength(c, n) && FrameOk(c, f) && head % 8 == 0 && tail <= head < WORD64
    requires IsSlot(c, n, Off(c, head)) && Reserve(head, tail, c.size, prio, |f|).Reserved?
    ensures var Reserved(_, pad, head') := Reserve(head, tail, c.size, prio, |f|);
      && IsSlot(c, n, Off(c, head'))
      && forall e <- Entries(head, pad, f) :: AtSlot(c, n, e) && head <= e.pos && e.pos + e.len <= tail + c.size
  {
    hide IsSlot, Budget, Reserve;
    var Reserved(_, pad, head') := Reserve(head, tail, c.size, prio, |f|);
    ReserveStaysInside(head, tail, c.size, prio, |f|);
    ZeroSlot(c, n);
    if pad > 0 {
      PadEnds(c, head, pad);
    }
    FrameEnds(c, n, head + pad);
    hide Off;
  }

  // A slot the reservation takes is held by no live entry, so it reads zero.
  lemma FreeSlot(c: Config, n: nat, s: State, e: Entry)
    requires ConfigOk(c) && n > 0 && Inv(c, s) && Tidy(c, n, s) && AtSlot(c, n, e)
    requires s.head <= e.pos && e.pos + e.len <= s.ctail + c.size && Off(c, e.pos) + 4 <= c.size && e.len > 0
    ensures ReadsZero(c, s.mem, e.pos)
  {
    hide Cells, Each, Exclusive, Attended, ConsumerOk, History, IsSlot, Slots, FrameOk;
    assert !LiveAt(c, s.log, s.consumed, Off(c, e.pos)) by {
      forall i | Live(s.log, s.consumed, i)
        ensures Off(c, s.log[i].pos) != Off(c, e.pos)
      {
        StartsOrdered(c, s.log, s.head, s.consumed, i);
        LaterStartsLater(c, s.log, s.head, i, |s.log|);
        assert Shape(c, s.log[i]);
        LapDistinct(s.log[i].pos, e.pos, c.size);
      }
    }
  }

  lemma CasWinsIsClean(c: Config, n: nat, s: State, p: nat, s': State)
    requires ConfigOk(c) && OneLength(c, n) && Inv(c, s) && Tidy(c, n, s) && p < |s.producers| && CasWins(c, s, p, s')
    ensures CleanReservation(c, s, p) && Tidy(c, n, s')
  {
    hide Inv, Blank, Reserve, FrameOk, Off, IsSlot, ReadsZero, Shape, AtSlot;
    var Reserving(f, prio, h, t) := s.producers[p];
    var pad := Reserve(h, t, c.size, prio, |f|).pad;
    InvParts(c, s, p);
    EntriesAtSlots(c, n, h, t, prio, f);
    EntriesShape(c, h, t, prio, f);
    forall e | e in Entries(h, pad, f)
      ensures ReadsZero(c, s.mem, e.pos)
    {
      ShapeRoom(c, e);
      FreeSlot(c, n, s, e);
    }
    BlankGrows(c, n, s.mem, s.log, s.consumed, Entries(h, pad, f));
  }

  lemma InvParts(c: Config, s: State, p: nat)
    requires ConfigOk(c) && Inv(c, s) && p < |s.producers|
    ensures ProducerOk(c, s.log, s.consumed, s.mirrored, s.head, s.tail, s.producers[p])
    ensures s.head % 8 == 0 && s.tail <= s.ctail <= s.head
  {
    EachAt(c, s, p);
    HeadPlace(c, s);
    hide LogOk, Each, Cells, Exclusive, Attended, ConsumerOk, History, ProducerOk;
  }

  lemma ShapeRoom(c: Config, e: Entry)
    requires ConfigOk(c) && Shape(c, e)
    ensures Off(c, e.pos) + 4 <= c.size && e.len > 0
  {
    hide Off, FrameOk;
  }

  lemma BlankGrows(c: Config, n: nat, mem: seq<Byte>, log: seq<Entry>, consumed: nat, es: seq<Entry>)
    requires n > 0 && c.size > 0 && Blank(c, n, mem, log, consumed)
    ensures Blank(c, n, mem, log + es, consumed)
  {
    hide IsSlot, Off, Total;
    forall o: nat | IsSlot(c, n, o) && o + 4 <= |mem| && !LiveAt(c, log + es, consumed, o)
      ensures Total(mem, o) == 0
    {
      assert !LiveAt(c, log, consumed, o) by {
        forall i | Live(log, consumed, i)
          ensures Off(c, log[i].pos) != o
        {
          assert Live(log + es, consumed, i) && Off(c, (log + es)[i].pos) != o;
        }
      }
    }
  }

  // ----- writing and releasing -----

  lemma WriteKeepsBlank(c: Config, n: nat, mem: seq<Byte>, log: seq<Entry>, consumed: nat, i: nat, mem': seq<Byte>,
                        e: Entry)
    requires ConfigOk(c) && n > 0 && Blank(c, n, mem, log, consumed) && Live(log, consumed, i) && Progress(c, log, i, e)
    requires Within(c, mem, mem', e) && AtSlot(c, n, e)
    ensures Blank(c, n, mem', log[i := e], consumed)
  {
    hide IsSlot, FrameOk, Written;
    var log', off := log[i := e], Off(c, e.pos);
    forall o: nat | IsSlot(c, n, o) && o + 4 <= |mem'| && !LiveAt(c, log', consumed, o)
      ensures Total(mem', o) == 0
    {
      assert Live(log', consumed, i) && o != off;
      assert !LiveAt(c, log, consumed, o) by {
        forall k | Live(log, consumed, k)
          ensures Off(c, log[k].pos) != o
        {
          assert Live(log', consumed, k) && Off(c, log'[k].pos) != o;
        }
      }
      if o < off {
        SlotsApart(c, n, o, off);
      } else {
        SlotsApart(c, n, off, o);
      }
      assert mem'[o..o + 4] == mem[o..o + 4];
    }
  }

  lemma WritingStaysTidy(c: Config, n: nat, s: State, p: nat, s': State)
    requires ConfigOk(c) && n >= FRAME_HEADER && Inv(c, s) && Tidy(c, n, s)
    requires p < |s.producers| && WritingStep(c, s, p, s')
    ensures Tidy(c, n, s')
  {
    hide Inv, WritingStep, Cell, Within, Shape, Blank, Owns, ProducerOk, IsSlot, Off;
    var i, e, pr := WhatIsWritten(c, s, p, s');
    WriteKeepsBlank(c, n, s.mem, s.log, s.consumed, i, s'.mem, e);
  }

  // Zeroing TotalSize is what leaves no stale commit behind for the next lap.
  lemma ReleaseStaysTidy(c: Config, n: nat, s: State, s': State)
    requires ConfigOk(c) && n >= FRAME_HEADER && Inv(c, s) && Tidy(c, n, s) && Release(c, s, s')
    ensures Tidy(c, n, s')
  {
    ReleaseWindow(c, s, s');
    assert AtSlot(c, n, s.log[s.consumed]);
    hide Inv, Shape, Blank, IsSlot, Off, SetTotal;
    ReleaseKeepsBlank(c, n, s.mem, s.log, s.consumed);
  }

  lemma ReleaseKeepsBlank(c: Config, n: nat, mem: seq<Byte>, log: seq<Entry>, consumed: nat)
    requires ConfigOk(c) && n >= FRAME_HEADER && consumed < |log| && AtSlot(c, n, log[consumed])
    requires Blank(c, n, mem, log, consumed) && Off(c, log[consumed].pos) + 4 <= |mem| && 0 < Range(4)
    ensures Blank(c, n, SetTotal(mem, Off(c, log[consumed].pos), 0), log, consumed + 1)
  {
    hide Off, IsSlot, Total, SetTotal;
    var off := Off(c, log[consumed].pos);
    var mem' := SetTotal(mem, off, 0);
    TotalStored(mem, off, 0);
    forall o: nat | IsSlot(c, n, o) && o + 4 <= |mem'| && !LiveAt(c, log, consumed + 1, o)
      ensures Total(mem', o) == 0
    {
      if o != off {
        assert !LiveAt(c, log, consumed, o) by {
          forall k | Live(log, consumed, k)
            ensures Off(c, log[k].pos) != o
          {
            assert k != consumed ==> Live(log, consumed + 1, k);
          }
        }
        if o < off {
          SlotsApart(c, n, o, off);
        } else {
          SlotsApart(c, n, off, o);
        }
        ZeroedElsewhere(mem, off, o);
      }
    }
  }

  lemma ZeroedElsewhere(mem: seq<Byte>, off: nat, at: nat)
    requires off + 4 <= |mem| && at + 4 <= |mem| && (at + 4 <= off || off + 4 <= at) && 0 < Range(4)
    ensures Total(SetTotal(mem, off, 0), at) == Total(mem, at)
  {
    TotalElsewhere(mem, off, Le(0, 4), at);
  }

  // ----- runs -----

  lemma StartsTidy(c: Config, n: nat, s: State)
    requires ConfigOk(c) && n > 0 && Init(c, s)
    ensures Tidy(c, n, s)
  {
    hide Total;
    forall o: nat | IsSlot(c, n, o) && o + 4 <= |s.mem|
      ensures Total(s.mem, o) == 0
    {
      ZeroTotal(s.mem, o);
    }
  }

  lemma ZeroTotal(mem: seq<Byte>, o: nat)
    requires o + 4 <= |mem| && forall i | 0 <= i < |mem| :: mem[i] == 0
    ensures Total(mem, o) == 0
  {
    ZeroWord(mem[o..o + 4]);
  }

  // The steps that touch neither memory nor the log.
  lemma QuietStaysTidy(c: Config, n: nat, s: State, s': State)
    requires ConfigOk(c) && n > 0 && Tidy(c, n, s)
    requires s'.mem == s.mem && s'.log == s.log && s'.head == s.head && s'.consumed == s.consumed
    ensures Tidy(c, n, s')
  {
  }

  lemma StepStaysTidy(c: Config, n: nat, s: State, s': State)
    requires ConfigOk(c) && OneLength(c, n) && Inv(c, s) && Tidy(c, n, s) && Next(c, s, s')
    ensures Tidy(c, n, s')
    ensures forall p: nat | p < |s.producers| && CasWins(c, s, p, s') :: CleanReservation(c, s, p)
  {
    hide Inv, Tidy, CleanReservation, CasWins, ConsumerStep, ProducerStep;
    forall p: nat | p < |s.producers| && CasWins(c, s, p, s')
      ensures CleanReservation(c, s, p)
    {
      CasWinsIsClean(c, n, s, p, s');
    }
    if ConsumerStep(c, s, s') {
      ConsumerStaysTidy(c, n, s, s');
    } else {
      var p: nat :| p < |s.producers| && ProducerStep(c, s, p, s');
      ProducerStaysTidy(c, n, s, p, s');
    }
  }

  lemma ConsumerStaysTidy(c: Config, n: nat, s: State, s': State)
    requires ConfigOk(c) && OneLength(c, n) && Inv(c, s) && Tidy(c, n, s) && ConsumerStep(c, s, s')
    ensures Tidy(c, n, s')
  {
    hide Inv, Tidy, Off, Total, SetTotal;
    if Release(c, s, s') {
      ReleaseStaysTidy(c, n, s, s');
    } else {
      QuietStaysTidy(c, n, s, s');
    }
  }

  lemma ProducerStaysTidy(c: Config, n: nat, s: State, p: nat, s': State)
    requires ConfigOk(c) && OneLength(c, n) && Inv(c, s) && Tidy(c, n, s)
    requires p < |s.producers| && ProducerStep(c, s, p, s')
    ensures Tidy(c, n, s')
  {
    hide Inv, Tidy, FrameOk, Reserve, CasWins, WritePadVersion, CommitPad, CopyByte, Commit;
    if CasWins(c, s, p, s') {
      CasWinsIsClean(c, n, s, p, s');
    } else if WritingStep(c, s, p, s') {
      WritingStaysTidy(c, n, s, p, s');
    } else {
      QuietStaysTidy(c, n, s, s');
    }
  }

  lemma {:induction false} RunStaysTidy(c: Config, n: nat, run: seq<State>, i: nat)
    requires ConfigOk(c) && OneLength(c, n) && IsRun(c, run) && i < |run|
    ensures Tidy(c, n, run[i]) && Clean(c, run, i)
  {
    hide Tidy, Next, Init, CasWins, CleanReservation;
    if i == 0 {
      StartsTidy(c, n, run[0]);
    } else {
      RunStaysTidy(c, n, run, i - 1);
      RunKeepsInv(c, run, i - 1);
      hide Inv;
      assert Next(c, run[i - 1], run[i - 1 + 1]);
      StepStaysTidy(c, n, run[i - 1], run[i]);
    }
  }

  // With at most one frame length, no run ever reserves stale bytes.
  lemma OneLengthIsClean(c: Config, run: seq<State>, i: nat)
    requires ConfigOk(c) && |c.lengths| <= 1 && IsRun(c, run) && i < |run|
    ensures Clean(c, run, i)
  {
    hide IsRun, Clean;
    var n := FRAME_HEADER;
    if m :| m in c.lengths {
      n := m;
      forall k | k in c.lengths
        ensures k == m
      {
        OnlyOne(c.lengths, m, k);
      }
    }
    RunStaysTidy(c, n, run, i);
  }

  lemma OnlyOne(s: set<nat>, x: nat, y: nat)
    requires |s| <= 1 && x in s && y in s
    ensures x == y
  {
    if x != y {
      assert {x, y} <= s;
      SubsetSize({x, y}, s);
    }
  }

  lemma {:induction false} SubsetSize(a: set<nat>, b: set<nat>)
    requires a <= b
    ensures |a| <= |b|
  {
    if a != {} {
      var x :| x in a;
      SubsetSize(a - {x}, b - {x});
    }
  }
}

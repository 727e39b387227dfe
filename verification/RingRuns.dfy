/** The consumer's steps, and the invariant over whole runs. */
module RingRuns {
  import opened LittleEndian
  import opened RingLayout
  import opened RingSteps
  import opened RingSafety
  import opened RingProof

  // ----- consumer steps -----

  // The entry the consumer is looking at.
  lemma AtTail(c: Config, s: State)
    requires ConfigOk(c) && Inv(c, s) && s.consumed < s.mirrored
    ensures s.consumed < |s.log| && s.log[s.consumed].pos == s.ctail && Live(s.log, s.consumed, s.consumed)
    ensures Shape(c, s.log[s.consumed]) && Cell(c, s.mem, s.log[s.consumed])
    ensures s.ctail + s.log[s.consumed].len == Start(s.log, s.head, s.consumed + 1)
  {
    hide Shape, Cell, Each, Exclusive, Attended, ConsumerOk, History, Off;
    assert Live(s.log, s.consumed, s.consumed);
    AbutsAt(c, s.log, s.head, s.consumed);
  }

  lemma OnlyLooks(c: Config, s: State, x: Consumer)
    requires ConfigOk(c) && Inv(c, s) && !s.consumer.Releasing? && !x.Releasing?
    requires ConsumerOk(x, s.log, s.consumed, s.mirrored)
    ensures Inv(c, s.(consumer := x))
  {
    hide LogOk, Cells, Each, Exclusive, Attended, ConsumerOk, History;
  }

  lemma Looking(c: Config, s: State)
    requires ConfigOk(c) && Inv(c, s)
    ensures ConsumerOk(s.consumer, s.log, s.consumed, s.mirrored) && Window(c, s)
  {
    hide LogOk, Cells, Each, Exclusive, Attended, ConsumerOk, History, Window;
  }

  lemma LoadMirrorKeeps(c: Config, s: State, s': State)
    requires ConfigOk(c) && Inv(c, s) && LoadMirror(s, s')
    ensures Inv(c, s')
  {
    hide Inv;
    Looking(c, s);
    OnlyLooks(c, s, s'.consumer);
  }

  // A non-zero TotalSize is a commit, and it is the entry's length.
  lemma LoadTotalKeeps(c: Config, s: State, s': State)
    requires ConfigOk(c) && Inv(c, s) && LoadTotal(c, s, s')
    ensures Inv(c, s')
  {
    hide Inv, Shape, Off, Total;
    Looking(c, s);
    AtTail(c, s);
    OnlyLooks(c, s, s'.consumer);
  }

  lemma LoadVersionKeeps(c: Config, s: State, s': State)
    requires ConfigOk(c) && Inv(c, s) && LoadVersion(c, s, s')
    ensures Inv(c, s')
  {
    hide Inv, Shape, Off, Cell;
    Looking(c, s);
    AtTail(c, s);
    VersionTells(c, s.mem, s.log[s.consumed]);
    OnlyLooks(c, s, s'.consumer);
  }

  lemma VersionTells(c: Config, mem: seq<Byte>, e: Entry)
    requires ConfigOk(c) && Shape(c, e) && Cell(c, mem, e)
    ensures Off(c, e.pos) + 6 <= |mem|
    ensures e.committed ==> (mem[Off(c, e.pos) + 4..Off(c, e.pos) + 6] == [0, 0] <==> e.pad)
  {
    hide Off, Total;
    var off := Off(c, e.pos);
    if e.committed && !e.pad {
      assert mem[off + 4] == e.bytes[4] && mem[off + 5] == e.bytes[5];
      assert e.bytes[4..6] == [e.bytes[4], e.bytes[5]];
    }
  }

  lemma ReadByteKeeps(c: Config, s: State, s': State)
    requires ConfigOk(c) && Inv(c, s) && ReadByte(c, s, s')
    ensures Inv(c, s')
  {
    hide Inv, Shape, Off, Cell;
    Looking(c, s);
    AtTail(c, s);
    CommittedBytes(c, s.mem, s.log[s.consumed]);
    OnlyLooks(c, s, s'.consumer);
  }

  // A committed frame stands in memory whole.
  lemma CommittedBytes(c: Config, mem: seq<Byte>, e: Entry)
    requires ConfigOk(c) && Shape(c, e) && Cell(c, mem, e)
    ensures e.committed && !e.pad ==>
      var off := Off(c, e.pos);
      |e.bytes| == e.len && off + e.len <= |mem| && forall j | 0 <= j < e.len :: mem[off + j] == e.bytes[j]
  {
    hide Off;
    if e.committed && !e.pad {
      var off := Off(c, e.pos);
      LeOfWord(mem[off..off + 4]);
      assert mem[off..off + 4] == e.bytes[..4];
      forall j | 0 <= j < e.len
        ensures mem[off + j] == e.bytes[j]
      {
        if j < 4 {
          assert mem[off..off + 4][j] == e.bytes[..4][j];
        }
      }
    }
  }

  lemma ReleaseCells(c: Config, mem: seq<Byte>, log: seq<Entry>, head: nat, consumed: nat)
    requires ConfigOk(c) && LogOk(c, log, head) && consumed < |log| && head <= Start(log, head, consumed) + c.size
    requires Cells(c, mem, log, consumed) && |mem| == c.size && Off(c, log[consumed].pos) + 4 <= |mem| && 0 < Range(4)
    ensures Cells(c, SetTotal(mem, Off(c, log[consumed].pos), 0), log, consumed + 1)
  {
    hide Cell, Off, FrameOk, SetTotal;
    var off := Off(c, log[consumed].pos);
    TotalStored(mem, off, 0);
    forall k | Live(log, consumed + 1, k)
      ensures Cell(c, SetTotal(mem, off, 0), log[k])
    {
      assert Live(log, consumed, k) && Live(log, consumed, consumed);
      LiveApart(c, log, head, consumed, consumed, k);
      assert Shape(c, log[k]) && Shape(c, log[consumed]);
      CellElsewhere(c, mem, SetTotal(mem, off, 0), log[k]);
    }
  }

  lemma ReleaseProducers(c: Config, s: State)
    requires ConfigOk(c) && s.consumed < |s.log| && s.log[s.consumed].committed
    requires Each(c, s.log, s.consumed, s.mirrored, s.head, s.tail, s.producers)
    requires Attended(s.log, s.consumed, s.mirrored, s.producers)
    ensures Each(c, s.log, s.consumed + 1, s.mirrored, s.head, s.tail, s.producers)
    ensures Attended(s.log, s.consumed + 1, s.mirrored, s.producers)
  {
    hide ProducerOk, Owns, Owned, MirrorPending;
    forall q | 0 <= q < |s.producers|
      ensures ProducerOk(c, s.log, s.consumed + 1, s.mirrored, s.head, s.tail, s.producers[q])
    {
      EachAt(c, s, q);
      forall k | 0 <= k < |s.log| && Owns(s.producers[q], k)
        ensures Live(s.log, s.consumed + 1, k)
      {
        OwnedIsOpen(c, s.producers[q], s.log, s.consumed, s.mirrored, s.head, s.tail, k);
      }
      ProducerKept(c, s.producers[q], s.log, s.consumed, s.mirrored, s.head, s.tail,
                   s.log, s.consumed + 1, s.mirrored, s.head, s.tail);
    }
    forall k | Live(s.log, s.consumed + 1, k) && !s.log[k].committed
      ensures Owned(s.producers, k)
    {
      assert Live(s.log, s.consumed, k);
    }
  }

  lemma FramesNext(log: seq<Entry>, n: nat)
    requires n < |log|
    ensures FramesOf(log[..n + 1]) == FramesOf(log[..n]) + if log[n].pad then [] else [log[n].bytes]
  {
    assert log[..n + 1][..n] == log[..n];
  }

  lemma ReleaseHistory(c: Config, s: State, s': State)
    requires ConfigOk(c) && Inv(c, s) && Release(c, s, s')
    ensures History(s'.log, s'.consumed, s'.out, s'.done)
  {
    hide LogOk, Cells, Each, Exclusive, Attended, Shape, Off, SetTotal, Cell, FramesOf, Committed;
    AtTail(c, s);
    CommittedBytes(c, s.mem, s.log[s.consumed]);
    FramesNext(s.log, s.consumed);
    assert s.consumer.Reading? ==> s.consumer.buf == s.log[s.consumed].bytes;
    assert s'.out == FramesOf(s.log[..s.consumed + 1]);
  }

  lemma ReleaseWindow(c: Config, s: State, s': State)
    requires ConfigOk(c) && Inv(c, s) && Release(c, s, s')
    ensures Window(c, s') && s.consumed < s.mirrored && s.log[s.consumed].committed && s.log[s.consumed].pos == s.ctail
  {
    hide Inv, Shape, Off, Cell, SetTotal;
    Looking(c, s);
    AtTail(c, s);
  }

  lemma ReleaseKeeps(c: Config, s: State, s': State)
    requires ConfigOk(c) && Inv(c, s) && Release(c, s, s')
    ensures Inv(c, s')
  {
    hide LogOk, Cells, Each, Exclusive, Attended, History, Shape, Off, SetTotal, Cell, Start;
    WindowStart(c, s);
    ReleaseHistory(c, s, s');
    ReleaseWindow(c, s, s');
    TotalStored(s.mem, Off(c, s.ctail), 0);
    ReleaseCells(c, s.mem, s.log, s.head, s.consumed);
    ReleaseProducers(c, s);
  }

  lemma PublishTailKeeps(c: Config, s: State, s': State)
    requires ConfigOk(c) && Inv(c, s) && PublishTail(s, s')
    ensures Inv(c, s')
  {
    hide LogOk, Cells, Exclusive, Attended, History, ProducerOk;
    forall q | 0 <= q < |s.producers|
      ensures ProducerOk(c, s.log, s.consumed, s.mirrored, s.head, s'.tail, s.producers[q])
    {
      EachAt(c, s, q);
      forall k | 0 <= k < |s.log| && Owns(s.producers[q], k)
        ensures Live(s.log, s.consumed, k)
      {
        OwnedIsOpen(c, s.producers[q], s.log, s.consumed, s.mirrored, s.head, s.tail, k);
      }
      ProducerKept(c, s.producers[q], s.log, s.consumed, s.mirrored, s.head, s.tail,
                   s.log, s.consumed, s.mirrored, s.head, s'.tail);
    }
  }

  // ----- every step, every run -----

  lemma LocalSteps(c: Config, s: State, p: nat, s': State)
    requires ConfigOk(c) && Inv(c, s) && p < |s.producers|
    requires Begin(c, s, p, s') || LoadHead(s, p, s') || LoadTail(c, s, p, s') || CasFails(s, p, s')
    ensures Inv(c, s')
  {
    hide LogOk, Cells, Each, Exclusive, Attended, History, ConsumerOk, FrameOk, Reserve;
    EachAt(c, s, p);
    LocalStep(c, s, s', p, s'.producers[p]);
  }

  lemma ProducerKeeps(c: Config, s: State, p: nat, s': State)
    requires ConfigOk(c) && Inv(c, s) && p < |s.producers| && ProducerStep(c, s, p, s')
    requires CasWins(c, s, p, s') ==> CleanReservation(c, s, p)
    ensures Inv(c, s')
  {
    hide Inv, CleanReservation, Begin, LoadHead, LoadTail, CasFails, CasWins, RaiseMirror;
    hide WritePadVersion, CommitPad, CopyByte, Commit;
    if CasWins(c, s, p, s') {
      CasWinsKeepsIffClean(c, s, p, s');
    } else if RaiseMirror(s, p, s') {
      RaiseMirrorKeeps(c, s, p, s');
    } else if WritingStep(c, s, p, s') {
      WritingKeeps(c, s, p, s');
    } else {
      LocalSteps(c, s, p, s');
    }
  }

  lemma ConsumerKeeps(c: Config, s: State, s': State)
    requires ConfigOk(c) && Inv(c, s) && ConsumerStep(c, s, s')
    ensures Inv(c, s')
  {
    hide Inv, LoadMirror, LoadTotal, LoadVersion, ReadByte, Release, PublishTail;
    if LoadMirror(s, s') {
      LoadMirrorKeeps(c, s, s');
    } else if LoadTotal(c, s, s') {
      LoadTotalKeeps(c, s, s');
    } else if LoadVersion(c, s, s') {
      LoadVersionKeeps(c, s, s');
    } else if ReadByte(c, s, s') {
      ReadByteKeeps(c, s, s');
    } else if Release(c, s, s') {
      ReleaseKeeps(c, s, s');
    } else {
      PublishTailKeeps(c, s, s');
    }
  }

  lemma InitKeeps(c: Config, s: State)
    requires ConfigOk(c) && Init(c, s)
    ensures Inv(c, s)
  {
    hide FrameOk;
  }

  lemma StepKeeps(c: Config, s: State, s': State)
    requires ConfigOk(c) && Inv(c, s) && Next(c, s, s')
    requires forall p: nat | p < |s.producers| && CasWins(c, s, p, s') :: CleanReservation(c, s, p)
    ensures Inv(c, s')
  {
    hide Inv, ConsumerStep, ProducerStep, CasWins, CleanReservation;
    if ConsumerStep(c, s, s') {
      ConsumerKeeps(c, s, s');
    } else {
      var p: nat :| p < |s.producers| && ProducerStep(c, s, p, s');
      ProducerKeeps(c, s, p, s');
    }
  }

  // Frames of any lengths, any number of producers, any interleaving: the invariant holds as long as no
  // reservation has landed on bytes that read as a commit.
  lemma {:induction false} RunKeepsInv(c: Config, run: seq<State>, i: nat)
    requires ConfigOk(c) && IsRun(c, run) && i < |run| && Clean(c, run, i)
    ensures Inv(c, run[i])
  {
    hide Inv, Next, Init, CasWins, CleanReservation;
    if i == 0 {
      InitKeeps(c, run[0]);
    } else {
      RunKeepsInv(c, run, i - 1);
      assert Next(c, run[i - 1], run[i - 1 + 1]);
      StepKeeps(c, run[i - 1], run[i]);
    }
  }
}

/** Each step of the ring protocol keeps the invariant. */
module RingProof {
  import opened LittleEndian
  import opened Modular
  import opened RingLayout
  import opened RingSteps
  import opened RingSafety

  // ----- producers beside the one that moves -----

  lemma ProducerKept(c: Config, pr: Producer, log: seq<Entry>, consumed: nat, mirrored: nat, head: nat, tail: nat,
                     log': seq<Entry>, consumed': nat, mirrored': nat, head': nat, tail': nat)
    requires ProducerOk(c, log, consumed, mirrored, head, tail, pr)
    requires mirrored <= mirrored' && head <= head' && tail <= tail'
    requires forall i | 0 <= i < |log| && Owns(pr, i) :: Live(log', consumed', i) && log'[i] == log[i]
    ensures ProducerOk(c, log', consumed', mirrored', head', tail', pr)
  {
    hide FrameOk;
    match pr
    case Mirroring(idx, hasPad) => assert Owns(pr, idx) && (hasPad ==> Owns(pr, idx - 1));
    case PadVersion(idx) => assert Owns(pr, idx) && Owns(pr, idx - 1);
    case PadCommit(idx) => assert Owns(pr, idx) && Owns(pr, idx - 1);
    case Copying(idx) => assert Owns(pr, idx);
    case _ =>
  }

  lemma OwnedIsOpen(c: Config, pr: Producer, log: seq<Entry>, consumed: nat, mirrored: nat, head: nat, tail: nat,
      i: int)
    requires ProducerOk(c, log, consumed, mirrored, head, tail, pr) && Owns(pr, i)
    ensures Live(log, consumed, i) && !log[i].committed
  {
    hide FrameOk;
  }

  // Producer `p` moves to `pr`, owning no entry it did not own before.
  ghost predicate Moves(prs: seq<Producer>, p: nat, pr: Producer) {
    p < |prs| && forall i :: Owns(pr, i) ==> Owns(prs[p], i)
  }

  lemma MovesKeepsExclusive(prs: seq<Producer>, p: nat, pr: Producer)
    requires Exclusive(prs) && Moves(prs, p, pr)
    ensures Exclusive(prs[p := pr])
  {
    hide Owns;
    var prs' := prs[p := pr];
    forall x, y, i | 0 <= x < |prs'| && 0 <= y < |prs'| && Owns(prs'[x], i) && Owns(prs'[y], i)
      ensures x == y
    {
      assert Owns(prs[x], i) && Owns(prs[y], i);
    }
  }

  lemma StillOwned(prs: seq<Producer>, p: nat, pr: Producer, i: int)
    requires p < |prs| && Owned(prs, i) && (Owns(prs[p], i) ==> Owns(pr, i))
    ensures Owned(prs[p := pr], i)
  {
    hide Owns;
    var q :| 0 <= q < |prs| && Owns(prs[q], i);
    assert Owns(prs[p := pr][q], i);
  }

  lemma StillPending(prs: seq<Producer>, p: nat, pr: Producer, i: int)
    requires p < |prs| && MirrorPending(prs, i) && (IsMirroring(prs[p], i) ==> IsMirroring(pr, i))
    ensures MirrorPending(prs[p := pr], i)
  {
    var q :| 0 <= q < |prs| && IsMirroring(prs[q], i);
    assert IsMirroring(prs[p := pr][q], i);
  }

  // ----- steps that touch no entry -----

  ghost predicate Idling(pr: Producer) {
    pr.Idle? || pr.Started? || pr.HeadLoaded? || pr.Reserving?
  }

  lemma LocalStep(c: Config, s: State, s': State, p: nat, pr: Producer)
    requires ConfigOk(c) && Inv(c, s) && p < |s.producers| && Idling(s.producers[p]) && Idling(pr)
    requires s' == s.(producers := s.producers[p := pr], dropped := s'.dropped)
    requires ProducerOk(c, s.log, s.consumed, s.mirrored, s.head, s.tail, pr)
    ensures Inv(c, s')
  {
    hide LogOk, Cells, ProducerOk, History, ConsumerOk;
    MovesKeepsExclusive(s.producers, p, pr);
    forall i | Live(s.log, s.consumed, i) && !s.log[i].committed
      ensures Owned(s'.producers, i)
    {
      StillOwned(s.producers, p, pr, i);
    }
    forall i | Live(s.log, s.mirrored, i) && !s.log[i].pad
      ensures MirrorPending(s'.producers, i)
    {
      StillPending(s.producers, p, pr, i);
    }
  }

  lemma RaiseMirrorKeeps(c: Config, s: State, p: nat, s': State)
    requires ConfigOk(c) && Inv(c, s) && p < |s.producers| && RaiseMirror(s, p, s')
    ensures Inv(c, s')
  {
    hide LogOk, Each, Cells, History, Exclusive, FrameOk;
    var Mirroring(idx, hasPad) := s.producers[p];
    var pr := if hasPad then PadVersion(idx) else Copying(idx);
    EachAt(c, s, p);
    AbutsAt(c, s.log, s.head, idx);
    StartsOrdered(c, s.log, s.head, s.mirrored, idx + 1);
    MovesKeepsExclusive(s.producers, p, pr);
    RaisedEach(c, s.log, s.consumed, s.mirrored, s'.mirrored, s.head, s.tail, s.producers, p, pr);
    RaisedAttended(s.log, s.consumed, s.mirrored, s'.mirrored, s.producers, p, pr);
  }

  lemma AbutsAt(c: Config, log: seq<Entry>, head: nat, i: nat)
    requires ConfigOk(c) && LogOk(c, log, head) && i < |log|
    ensures log[i].pos + log[i].len == Start(log, head, i + 1)
  {
    hide Shape, Off;
    assert Abuts(log, head, i);
  }

  lemma RaisedEach(c: Config, log: seq<Entry>, consumed: nat, mirrored: nat, mirrored': nat, head: nat, tail: nat,
                   prs: seq<Producer>, p: nat, pr: Producer)
    requires p < |prs| && Each(c, log, consumed, mirrored, head, tail, prs) && mirrored <= mirrored'
    requires ProducerOk(c, log, consumed, mirrored', head, tail, pr)
    ensures Each(c, log, consumed, mirrored', head, tail, prs[p := pr])
  {
    hide FrameOk, OpenFrame, OpenPad;
    var prs' := prs[p := pr];
    forall q | 0 <= q < |prs'|
      ensures ProducerOk(c, log, consumed, mirrored', head, tail, prs'[q])
    {
      assert q == p || ProducerOk(c, log, consumed, mirrored, head, tail, prs[q]);
    }
  }

  lemma RaisedAttended(log: seq<Entry>, consumed: nat, mirrored: nat, mirrored': nat, prs: seq<Producer>, p: nat,
      pr: Producer)
    requires p < |prs| && prs[p].Mirroring?
    requires pr == if prs[p].hasPad then PadVersion(prs[p].idx) else Copying(prs[p].idx)
    requires mirrored' == FetchMax(mirrored, prs[p].idx + 1) && Attended(log, consumed, mirrored, prs)
    ensures Attended(log, consumed, mirrored', prs[p := pr])
  {
    forall i | Live(log, consumed, i) && !log[i].committed
      ensures Owned(prs[p := pr], i)
    {
      StillOwned(prs, p, pr, i);
    }
    forall i | Live(log, mirrored', i) && !log[i].pad
      ensures MirrorPending(prs[p := pr], i)
    {
      StillPending(prs, p, pr, i);
    }
  }

  // ----- steps that write the moving producer's own entry -----

  lemma NothingCounted(e: Entry)
    ensures !e.committed ==> Counted(e) == multiset{}
  {
  }

  lemma {:induction false} CommittedUpdate(log: seq<Entry>, i: nat, e: Entry)
    requires i < |log| && !log[i].committed
    ensures Committed(log[i := e]) == Committed(log) + Counted(e)
    decreases |log|
  {
    hide Counted;
    var n := |log| - 1;
    if i == n {
      NothingCounted(log[n]);
      assert log[i := e][..n] == log[..n];
    } else {
      CommittedUpdate(log[..n], i, e);
      assert log[i := e][..n] == log[..n][i := e];
      Rearrange(Committed(log[..n]), Counted(e), Counted(log[n]));
    }
  }

  lemma Rearrange<T>(a: multiset<T>, b: multiset<T>, c: multiset<T>)
    ensures (a + b) + c == (a + c) + b
  {
  }

  // Producer `p` writes part of its entry `i`, now recorded as `e`, and moves to `pr`.
  ghost predicate Writes(c: Config, s: State, s': State, p: nat, i: nat, e: Entry, pr: Producer)
    requires ConfigOk(c)
  {
    && p < |s.producers| && Live(s.log, s.consumed, i) && Owns(s.producers[p], i) && Progress(c, s.log, i, e)
    && Cell(c, s'.mem, e) && Within(c, s.mem, s'.mem, e)
    && s' == s.(mem := s'.mem, log := s.log[i := e], producers := s.producers[p := pr], done := s'.done)
    && !s.producers[p].Mirroring? && !pr.Mirroring? && Moves(s.producers, p, pr)
    && (forall k | Owns(s.producers[p], k) && !Owns(pr, k) :: k == i && e.committed)
    && ProducerOk(c, s'.log, s'.consumed, s'.mirrored, s'.head, s'.tail, pr)
    && s'.done == s.done + Counted(e)
  }

  lemma WritesKeepsProducers(c: Config, s: State, s': State, p: nat, i: nat, e: Entry, pr: Producer)
    requires ConfigOk(c) && Inv(c, s) && Writes(c, s, s', p, i, e, pr)
    ensures Each(c, s'.log, s'.consumed, s'.mirrored, s'.head, s'.tail, s'.producers) && Exclusive(s'.producers)
    ensures Attended(s'.log, s'.consumed, s'.mirrored, s'.producers)
  {
    hide LogOk, Cells, History, ConsumerOk, Cell, Within, ProducerOk, Shape, Owns;
    MovesKeepsExclusive(s.producers, p, pr);
    forall q | 0 <= q < |s'.producers|
      ensures ProducerOk(c, s'.log, s'.consumed, s'.mirrored, s'.head, s'.tail, s'.producers[q])
    {
      if q != p {
        forall k | 0 <= k < |s.log| && Owns(s.producers[q], k)
          ensures Live(s'.log, s'.consumed, k) && s'.log[k] == s.log[k]
        {
          OwnedIsOpen(c, s.producers[q], s.log, s.consumed, s.mirrored, s.head, s.tail, k);
        }
        ProducerKept(c, s.producers[q], s.log, s.consumed, s.mirrored, s.head, s.tail,
                     s'.log, s'.consumed, s'.mirrored, s'.head, s'.tail);
      }
    }
    forall k | Live(s'.log, s'.consumed, k) && !s'.log[k].committed
      ensures Owned(s'.producers, k)
    {
      OwnedIsOpen(c, s.producers[p], s.log, s.consumed, s.mirrored, s.head, s.tail, i);
      assert Live(s.log, s.consumed, k) && !s.log[k].committed;
      StillOwned(s.producers, p, pr, k);
    }
    forall k | Live(s'.log, s'.mirrored, k) && !s'.log[k].pad
      ensures MirrorPending(s'.producers, k)
    {
      assert Live(s.log, s.mirrored, k) && !s.log[k].pad;
      StillPending(s.producers, p, pr, k);
    }
  }

  lemma WritesKeepsHistory(c: Config, s: State, s': State, i: nat, e: Entry)
    requires ConfigOk(c) && Live(s.log, s.consumed, i) && !s.log[i].committed && Progress(c, s.log, i, e)
    requires s'.log == s.log[i := e] && s'.consumed == s.consumed && s'.out == s.out && s'.done == s.done + Counted(e)
    requires History(s.log, s.consumed, s.out, s.done) && ConsumerOk(s.consumer, s.log, s.consumed, s.mirrored)
    ensures History(s'.log, s'.consumed, s'.out, s'.done) && ConsumerOk(s.consumer, s'.log, s'.consumed, s.mirrored)
  {
    hide Shape, Committed, FramesOf;
    CommittedUpdate(s.log, i, e);
    assert s'.log[..s.consumed] == s.log[..s.consumed];
  }

  lemma WritesKeepsInv(c: Config, s: State, s': State, p: nat, i: nat, e: Entry, pr: Producer)
    requires ConfigOk(c) && Inv(c, s) && Writes(c, s, s', p, i, e, pr)
    ensures Inv(c, s')
  {
    hide LogOk, Cells, Each, Exclusive, Attended, Cell, Within, Shape, Owns, ProducerOk, History,
        ConsumerOk, Progress;
    WritesKeepsProducers(c, s, s', p, i, e, pr);
    EachAt(c, s, p);
    OwnedIsOpen(c, s.producers[p], s.log, s.consumed, s.mirrored, s.head, s.tail, i);
    ProgressKeepsLog(c, s.log, s.head, i, e);
    WithinKeepsSize(c, s.mem, s'.mem, e);
    OwnWriteKeepsCells(c, s.mem, s.log, s.head, s.consumed, i, s'.mem, e);
    WritesKeepsHistory(c, s, s', i, e);
  }

  lemma EachAt(c: Config, s: State, p: nat)
    requires p < |s.producers| && Each(c, s.log, s.consumed, s.mirrored, s.head, s.tail, s.producers)
    ensures ProducerOk(c, s.log, s.consumed, s.mirrored, s.head, s.tail, s.producers[p])
  {
  }

  lemma WithinKeepsSize(c: Config, mem: seq<Byte>, mem': seq<Byte>, e: Entry)
    requires c.size > 0 && Within(c, mem, mem', e)
    ensures |mem'| == |mem|
  {
  }

  // What the producer's own entry looks like before it writes.
  lemma OwnEntry(c: Config, s: State, p: nat, i: nat)
    requires ConfigOk(c) && Inv(c, s) && p < |s.producers| && Owns(s.producers[p], i)
    ensures ProducerOk(c, s.log, s.consumed, s.mirrored, s.head, s.tail, s.producers[p])
    ensures Live(s.log, s.consumed, i) && !s.log[i].committed && Shape(c, s.log[i]) && Cell(c, s.mem, s.log[i])
        && |s.mem| == c.size
  {
    hide Cell, Shape, Owns, ProducerOk;
    EachAt(c, s, p);
    OwnedIsOpen(c, s.producers[p], s.log, s.consumed, s.mirrored, s.head, s.tail, i);
  }

  // ----- what one write does to its entry -----

  lemma PadVersionCell(c: Config, mem: seq<Byte>, e: Entry)
    requires ConfigOk(c) && Cell(c, mem, e) && Shape(c, e) && e.pad && !e.committed
    ensures var mem', e' := Put(mem, Off(c, e.pos) + 4, [0, 0, 0, 0]), e.(written := 1);
      Cell(c, mem', e') && Within(c, mem, mem', e') && Shape(c, e')
  {
    hide Off, FrameOk;
    var off := Off(c, e.pos);
    TotalElsewhere(mem, off + 4, [0, 0, 0, 0], off);
  }

  // The commit, of a pad or of a frame.
  lemma CommitCell(c: Config, mem: seq<Byte>, e: Entry)
    requires ConfigOk(c) && Cell(c, mem, e) && Shape(c, e) && Written(e)
    ensures Off(c, e.pos) + 4 <= |mem| && e.len < Range(4)
    ensures var mem', e' := SetTotal(mem, Off(c, e.pos), e.len), e.(committed := true);
      Cell(c, mem', e') && Within(c, mem, mem', e') && Shape(c, e')
  {
    hide Off, FrameOk, Total, SetTotal;
    TotalStored(mem, Off(c, e.pos), e.len);
  }

  // Storing TotalSize changes that word and no other byte.
  lemma TotalStored(mem: seq<Byte>, off: nat, v: nat)
    requires off + 4 <= |mem| && v < Range(4)
    ensures |SetTotal(mem, off, v)| == |mem| && Total(SetTotal(mem, off, v), off) == v
    ensures forall j | 0 <= j < |mem| && (j < off || off + 4 <= j) :: SetTotal(mem, off, v)[j] == mem[j]
  {
    TotalSet(mem, off, v);
  }

  lemma CopyCell(c: Config, mem: seq<Byte>, e: Entry)
    requires ConfigOk(c) && Cell(c, mem, e) && Shape(c, e) && !e.pad && !e.committed && 4 + e.written < |e.bytes|
    ensures var mem', e' := Put(mem, Off(c, e.pos) + 4 + e.written, [e.bytes[4 + e.written]]),
        e.(written := e.written + 1);
      Cell(c, mem', e') && Within(c, mem, mem', e') && Shape(c, e')
  {
    FrameLength(c, e);
    hide Off, FrameOk;
    var off := Off(c, e.pos);
    TotalElsewhere(mem, off + 4 + e.written, [e.bytes[4 + e.written]], off);
  }

  lemma FrameLength(c: Config, e: Entry)
    requires ConfigOk(c) && Shape(c, e) && !e.pad
    ensures |e.bytes| == e.len
  {
  }

  // ----- the four writing steps -----

  ghost predicate WritingStep(c: Config, s: State, p: nat, s': State)
    requires p < |s.producers| && c.size > 0
  {
    WritePadVersion(c, s, p, s') || CommitPad(c, s, p, s') || CopyByte(c, s, p, s') || Commit(c, s, p, s')
  }

  lemma WritePadVersionWrites(c: Config, s: State, p: nat, s': State) returns (i: nat, e: Entry, pr: Producer)
    requires ConfigOk(c) && Inv(c, s) && p < |s.producers| && WritePadVersion(c, s, p, s')
    ensures Writes(c, s, s', p, i, e, pr)
  {
    hide Inv, Off, Cell, Shape, Within, Put, FrameOk;
    var idx := s.producers[p].idx;
    OwnEntry(c, s, p, idx - 1);
    PadVersionCell(c, s.mem, s.log[idx - 1]);
    i, e, pr := idx - 1, s.log[idx - 1].(written := 1), PadCommit(idx);
  }

  lemma CommitPadWrites(c: Config, s: State, p: nat, s': State) returns (i: nat, e: Entry, pr: Producer)
    requires ConfigOk(c) && Inv(c, s) && p < |s.producers| && CommitPad(c, s, p, s')
    ensures Writes(c, s, s', p, i, e, pr)
  {
    hide Inv, Off, Cell, Shape, Within, SetTotal, FrameOk;
    var idx := s.producers[p].idx;
    OwnEntry(c, s, p, idx - 1);
    CommitCell(c, s.mem, s.log[idx - 1]);
    i, e, pr := idx - 1, s.log[idx - 1].(committed := true), Copying(idx);
  }

  lemma CopyByteWrites(c: Config, s: State, p: nat, s': State) returns (i: nat, e: Entry, pr: Producer)
    requires ConfigOk(c) && Inv(c, s) && p < |s.producers| && CopyByte(c, s, p, s')
    ensures Writes(c, s, s', p, i, e, pr)
  {
    hide Inv, Off, Cell, Shape, Within, Put, FrameOk;
    var idx := s.producers[p].idx;
    OwnEntry(c, s, p, idx);
    CopyCell(c, s.mem, s.log[idx]);
    i, e, pr := idx, s.log[idx].(written := s.log[idx].written + 1), Copying(idx);
  }

  lemma CommitWrites(c: Config, s: State, p: nat, s': State) returns (i: nat, e: Entry, pr: Producer)
    requires ConfigOk(c) && Inv(c, s) && p < |s.producers| && Commit(c, s, p, s')
    ensures Writes(c, s, s', p, i, e, pr)
  {
    hide Inv, Off, Cell, Shape, Within, SetTotal, FrameOk;
    var idx := s.producers[p].idx;
    OwnEntry(c, s, p, idx);
    FrameLength(c, s.log[idx]);
    CommitCell(c, s.mem, s.log[idx]);
    i, e, pr := idx, s.log[idx].(committed := true), Idle;
  }

  // The pad's Version, the pad's TotalSize, a body byte, or the frame's TotalSize.
  lemma WhatIsWritten(c: Config, s: State, p: nat, s': State) returns (i: nat, e: Entry, pr: Producer)
    requires ConfigOk(c) && Inv(c, s) && p < |s.producers| && WritingStep(c, s, p, s')
    ensures Writes(c, s, s', p, i, e, pr)
  {
    hide Inv, WritePadVersion, CommitPad, CopyByte, Commit, Writes;
    if WritePadVersion(c, s, p, s') {
      i, e, pr := WritePadVersionWrites(c, s, p, s');
    } else if CommitPad(c, s, p, s') {
      i, e, pr := CommitPadWrites(c, s, p, s');
    } else if CopyByte(c, s, p, s') {
      i, e, pr := CopyByteWrites(c, s, p, s');
    } else {
      i, e, pr := CommitWrites(c, s, p, s');
    }
  }

  // A producer writes only its own entry, in order, TotalSize last.
  lemma WritingKeeps(c: Config, s: State, p: nat, s': State)
    requires ConfigOk(c) && Inv(c, s) && p < |s.producers| && WritingStep(c, s, p, s')
    ensures Inv(c, s')
  {
    hide Inv, WritingStep, Writes;
    var i, e, pr := WhatIsWritten(c, s, p, s');
    WritesKeepsInv(c, s, s', p, i, e, pr);
  }

  // ----- a reservation -----

  lemma OffMoves(c: Config, pos: nat, k: nat)
    requires c.size > 0 && Off(c, pos) + k <= c.size
    ensures Off(c, pos + k) == if Off(c, pos) + k < c.size then Off(c, pos) + k else 0
  {
    if Off(c, pos) + k < c.size {
      ModInside(pos, k, c.size);
    } else {
      ModWrap(pos, k, c.size);
    }
  }

  lemma OffAligned(c: Config, pos: nat)
    requires c.size > 0 && c.size % 8 == 0 && pos % 8 == 0
    ensures Off(c, pos) % 8 == 0
  {
    OffsetAligned(pos, c.size);
  }

  // A pad runs from an aligned position to the end of the data, so what follows it starts at offset zero.
  lemma PadEnds(c: Config, head: nat, pad: nat)
    requires ConfigOk(c) && head % 8 == 0 && Off(c, head) + pad == c.size
    ensures Off(c, head + pad) == 0 && pad % 8 == 0
  {
    hide Off;
    OffAligned(c, head);
    OffMoves(c, head, pad);
  }

  lemma StaysAligned(head: nat, pad: nat, frame: nat)
    requires head % 8 == 0 && pad % 8 == 0 && frame % 8 == 0
    ensures (head + pad + frame) % 8 == 0
  {
  }

  lemma FrameFacts(c: Config, f: seq<Byte>)
    requires ConfigOk(c) && FrameOk(c, f)
    ensures FRAME_HEADER <= |f| <= c.size && |f| % 8 == 0
  {
  }

  // A producer that wins the CAS reserved from the real head, so its stale tail only makes it careful.
  lemma EntriesShape(c: Config, head: nat, tail: nat, prio: Priority, f: seq<Byte>)
    requires ConfigOk(c) && FrameOk(c, f) && head % 8 == 0 && tail <= head < WORD64
    requires Reserve(head, tail, c.size, prio, |f|).Reserved?
    ensures var Reserved(_, pad, head') := Reserve(head, tail, c.size, prio, |f|);
      && head' == head + pad + |f| <= tail + c.size && head' % 8 == 0
      && forall e <- Entries(head, pad, f) :: Shape(c, e)
  {
    hide FrameOk, Budget, Entries, Shape, Reserve;
    FrameFacts(c, f);
    var Reserved(_, pad, head') := Reserve(head, tail, c.size, prio, |f|);
    ReserveStaysInside(head, tail, c.size, prio, |f|);
    if pad > 0 {
      PadEnds(c, head, pad);
      PadShape(c, Entry(head, pad, true, [], 0, false));
    }
    StaysAligned(head, pad, |f|);
    FrameShape(c, head + pad, f);
    EntriesAre(c, head, pad, f);
  }

  lemma PadShape(c: Config, e: Entry)
    requires ConfigOk(c) && 0 < e.len && e.len % 8 == 0 && Off(c, e.pos) + e.len == c.size
    requires e.pad && e.written == 0 && !e.committed
    ensures Shape(c, e)
  {
    hide Off;
  }

  lemma FrameShape(c: Config, at: nat, f: seq<Byte>)
    requires ConfigOk(c) && FrameOk(c, f) && Off(c, at) + |f| <= c.size
    ensures Shape(c, Entry(at, |f|, false, f, 0, false))
  {
    hide Off;
  }

  lemma EntriesAre(c: Config, head: nat, pad: nat, f: seq<Byte>)
    requires ConfigOk(c) && (pad > 0 ==> Shape(c, Entry(head, pad, true, [], 0, false)))
    requires Shape(c, Entry(head + pad, |f|, false, f, 0, false))
    ensures forall e <- Entries(head, pad, f) :: Shape(c, e)
  {
    hide Shape;
  }

  lemma OffsetAligned(pos: nat, size: nat)
    requires size > 0 && size % 8 == 0 && pos % 8 == 0
    ensures pos % size % 8 == 0
  {
    ModUnique(pos % size, pos / 8 - pos / size * (size / 8), 0, 8);
  }

  lemma AppendLog(c: Config, log: seq<Entry>, head: nat, pad: nat, f: seq<Byte>)
    requires ConfigOk(c) && LogOk(c, log, head) && forall e <- Entries(head, pad, f) :: Shape(c, e)
    requires (head + pad + |f|) % 8 == 0
    ensures LogOk(c, log + Entries(head, pad, f), head + pad + |f|)
    ensures forall k: nat | k <= |log| :: Start(log + Entries(head, pad, f), head + pad + |f|, k) == Start(log, head, k)
  {
    hide Shape, Off;
    var log', head' := log + Entries(head, pad, f), head + pad + |f|;
    forall k: nat | k < |log'|
      ensures Abuts(log', head', k) && PadFollowed(log', k)
    {
      assert k < |log| ==> Abuts(log, head, k) && PadFollowed(log, k);
    }
  }

  // A new entry, nothing of it written, matches memory exactly when its TotalSize reads zero.
  lemma FreshCell(c: Config, mem: seq<Byte>, e: Entry)
    requires ConfigOk(c) && |mem| == c.size && Shape(c, e) && e.written == 0 && !e.committed
    ensures Cell(c, mem, e) <==> ReadsZero(c, mem, e.pos)
  {
    hide Off, Total;
  }

  lemma AppendCells(c: Config, mem: seq<Byte>, log: seq<Entry>, consumed: nat, es: seq<Entry>)
    requires ConfigOk(c) && Cells(c, mem, log, consumed) && |mem| == c.size && consumed <= |log|
    requires forall e <- es :: Shape(c, e) && e.written == 0 && !e.committed
    ensures Cells(c, mem, log + es, consumed) <==> CleanEntries(c, mem, es)
  {
    hide Cell, Shape, Off, ReadsZero;
    var log' := log + es;
    forall e | e in es
      ensures Cell(c, mem, e) <==> ReadsZero(c, mem, e.pos)
    {
      FreshCell(c, mem, e);
    }
    if CleanEntries(c, mem, es) {
      forall k | Live(log', consumed, k)
        ensures Cell(c, mem, log'[k])
      {
        assert if k < |log| then Live(log, consumed, k) else log'[k] in es;
      }
    }
    if Cells(c, mem, log', consumed) {
      forall e | e in es
        ensures ReadsZero(c, mem, e.pos)
      {
        var k :| 0 <= k < |es| && es[k] == e;
        assert Live(log', consumed, |log| + k);
      }
    }
  }

  lemma AppendProducers(c: Config, s: State, head': nat, p: nat, pad: nat, f: seq<Byte>)
    requires ConfigOk(c) && p < |s.producers| && Idling(s.producers[p]) && s.head <= head'
        && s.mirrored <= |s.log| && s.consumed <= |s.log|
    requires Each(c, s.log, s.consumed, s.mirrored, s.head, s.tail, s.producers) && Exclusive(s.producers)
    requires Attended(s.log, s.consumed, s.mirrored, s.producers)
    ensures var log' := s.log + Entries(s.head, pad, f);
      var prs' := s.producers[p := Mirroring(|log'| - 1, pad > 0)];
      && Each(c, log', s.consumed, s.mirrored, head', s.tail, prs') && Exclusive(prs')
      && Attended(log', s.consumed, s.mirrored, prs')
  {
    hide ProducerOk, FrameOk;
    var log' := s.log + Entries(s.head, pad, f);
    var pr := Mirroring(|log'| - 1, pad > 0);
    AppendEach(c, s, head', p, pad, f);
    forall q, k | 0 <= q < |s.producers| && Owns(s.producers[q], k)
      ensures k < |s.log|
    {
      EachAt(c, s, q);
      OwnedIsOpen(c, s.producers[q], s.log, s.consumed, s.mirrored, s.head, s.tail, k);
    }
    AppendExclusive(s.producers, p, pr, |s.log|);
    AppendAttended(s.log, s.consumed, s.mirrored, s.head, s.producers, p, pad, f);
  }

  lemma AppendEach(c: Config, s: State, head': nat, p: nat, pad: nat, f: seq<Byte>)
    requires ConfigOk(c) && p < |s.producers| && s.head <= head' && s.consumed <= |s.log|
    requires Each(c, s.log, s.consumed, s.mirrored, s.head, s.tail, s.producers)
    ensures var log' := s.log + Entries(s.head, pad, f);
      Each(c, log', s.consumed, s.mirrored, head', s.tail, s.producers[p := Mirroring(|log'| - 1, pad > 0)])
  {
    hide FrameOk, Owns, ProducerOk;
    var log' := s.log + Entries(s.head, pad, f);
    var pr := Mirroring(|log'| - 1, pad > 0);
    var prs' := s.producers[p := pr];
    forall q | 0 <= q < |prs'|
      ensures ProducerOk(c, log', s.consumed, s.mirrored, head', s.tail, prs'[q])
    {
      if q == p {
        NewProducer(c, s, head', pad, f);
      } else {
        EachAt(c, s, q);
        forall k | 0 <= k < |s.log| && Owns(s.producers[q], k)
          ensures Live(log', s.consumed, k) && log'[k] == s.log[k]
        {
          OwnedIsOpen(c, s.producers[q], s.log, s.consumed, s.mirrored, s.head, s.tail, k);
        }
        ProducerKept(c, s.producers[q], s.log, s.consumed, s.mirrored, s.head, s.tail,
                     log', s.consumed, s.mirrored, head', s.tail);
      }
    }
  }

  lemma NewProducer(c: Config, s: State, head': nat, pad: nat, f: seq<Byte>)
    requires s.consumed <= |s.log|
    ensures var log' := s.log + Entries(s.head, pad, f);
      ProducerOk(c, log', s.consumed, s.mirrored, head', s.tail, Mirroring(|log'| - 1, pad > 0))
  {
  }

  lemma AppendExclusive(prs: seq<Producer>, p: nat, pr: Producer, n: nat)
    requires p < |prs| && Exclusive(prs)
    requires forall i :: Owns(pr, i) ==> i >= n
    requires forall q, i | 0 <= q < |prs| && Owns(prs[q], i) :: i < n
    ensures Exclusive(prs[p := pr])
  {
    hide Owns;
  }

  lemma AppendAttended(log: seq<Entry>, consumed: nat, mirrored: nat, head: nat, prs: seq<Producer>, p: nat,
      pad: nat, f: seq<Byte>)
    requires p < |prs| && Idling(prs[p]) && Attended(log, consumed, mirrored, prs)
    ensures var log' := log + Entries(head, pad, f);
      Attended(log', consumed, mirrored, prs[p := Mirroring(|log'| - 1, pad > 0)])
  {
    var log' := log + Entries(head, pad, f);
    var pr := Mirroring(|log'| - 1, pad > 0);
    var prs' := prs[p := pr];
    forall i | Live(log', consumed, i) && !log'[i].committed
      ensures Owned(prs', i)
    {
      if i < |log| {
        assert Live(log, consumed, i);
        StillOwned(prs, p, pr, i);
      } else {
        assert Owns(prs'[p], i);
      }
    }
    forall i | Live(log', mirrored, i) && !log'[i].pad
      ensures MirrorPending(prs', i)
    {
      if i < |log| {
        assert Live(log, mirrored, i);
        StillPending(prs, p, pr, i);
      } else {
        assert IsMirroring(prs'[p], i);
      }
    }
  }

  lemma {:induction false} CommittedAppend(log: seq<Entry>, es: seq<Entry>)
    requires forall e <- es :: !e.committed
    ensures Committed(log + es) == Committed(log)
    decreases |es|
  {
    if es == [] {
      assert log + es == log;
    } else {
      var n := |es| - 1;
      assert (log + es)[..|log + es| - 1] == log + es[..n];
      CommittedAppend(log, es[..n]);
    }
  }

  lemma AppendHistory(log: seq<Entry>, consumed: nat, mirrored: nat, out: seq<seq<Byte>>, done: multiset<seq<Byte>>,
                      consumer: Consumer, es: seq<Entry>)
    requires History(log, consumed, out, done) && ConsumerOk(consumer, log, consumed, mirrored)
    requires forall e <- es :: !e.committed
    ensures History(log + es, consumed, out, done) && ConsumerOk(consumer, log + es, consumed, mirrored)
  {
    hide FramesOf, Committed;
    CommittedAppend(log, es);
    assert (log + es)[..consumed] == log[..consumed];
  }

  // A reservation keeps the invariant exactly when none of its entries lands on a word that reads as a
  // commit. Memory before it is all the test looks at.
  lemma CasWinsKeepsIffClean(c: Config, s: State, p: nat, s': State)
    requires ConfigOk(c) && Inv(c, s) && p < |s.producers| && CasWins(c, s, p, s')
    ensures Inv(c, s') <==> CleanReservation(c, s, p)
  {
    CasWinsRest(c, s, p, s');
    hide LogOk, Window, Each, Cells, Exclusive, Attended, History, ConsumerOk, Reserve, FrameOk, CleanEntries;
  }

  lemma CasWinsRest(c: Config, s: State, p: nat, s': State)
    requires ConfigOk(c) && Inv(c, s) && p < |s.producers| && CasWins(c, s, p, s')
    ensures LogOk(c, s'.log, s'.head) && Window(c, s') && |s'.mem| == c.size
    ensures Each(c, s'.log, s'.consumed, s'.mirrored, s'.head, s'.tail, s'.producers) && Exclusive(s'.producers)
    ensures Attended(s'.log, s'.consumed, s'.mirrored, s'.producers)
    ensures ConsumerOk(s'.consumer, s'.log, s'.consumed, s'.mirrored)
    ensures History(s'.log, s'.consumed, s'.out, s'.done)
    ensures Cells(c, s'.mem, s'.log, s'.consumed) <==> CleanReservation(c, s, p)
  {
    hide Each, Cells, Exclusive, Attended, History, ConsumerOk, LogOk, Reserve, FrameOk, Off, Shape, CleanEntries;
    var Reserving(f, prio, h, t) := s.producers[p];
    var pad := Reserve(h, t, c.size, prio, |f|).pad;
    EachAt(c, s, p);
    HeadPlace(c, s);
    EntriesShape(c, h, t, prio, f);
    WindowStart(c, s);
    AppendLog(c, s.log, s.head, pad, f);
    AppendCells(c, s.mem, s.log, s.consumed, Entries(h, pad, f));
    AppendProducers(c, s, s'.head, p, pad, f);
    AppendHistory(s.log, s.consumed, s.mirrored, s.out, s.done, s.consumer, Entries(h, pad, f));
  }

  lemma HeadPlace(c: Config, s: State)
    requires ConfigOk(c) && Inv(c, s)
    ensures s.head % 8 == 0 && s.tail <= s.head && s.ctail <= s.head
  {
    hide Each, Cells, Exclusive, Attended, History, ConsumerOk, Off, Shape;
    StartsOrdered(c, s.log, s.head, s.consumed, |s.log|);
  }

  lemma WindowStart(c: Config, s: State)
    requires ConfigOk(c) && Window(c, s)
    ensures s.consumed <= s.mirrored <= |s.log| && s.tail <= Start(s.log, s.head, s.consumed)
  {
  }
}

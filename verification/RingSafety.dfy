/** What every interleaving of the ring protocol keeps, and what it hands out. */
module RingSafety {
  import opened LittleEndian
  import opened Modular
  import opened RingLayout
  import opened RingSteps

  ghost predicate Written(e: Entry) {
    if e.pad then e.written == 1 else 4 + e.written == e.len
  }

  // An entry never straddles the end of the data; a pad reaches exactly to it.
  ghost predicate Shape(c: Config, e: Entry)
    requires ConfigOk(c)
  {
    && Off(c, e.pos) + e.len <= c.size && FRAME_HEADER <= e.len
    && (if e.pad then e.written <= 1 && Off(c, e.pos) + e.len == c.size
        else FrameOk(c, e.bytes) && e.len == |e.bytes| && 4 + e.written <= e.len)
    && (e.committed ==> Written(e))
  }

  // Where entry `i` starts, or the head when there is no such entry yet.
  ghost function Start(log: seq<Entry>, head: nat, i: nat): nat {
    if i < |log| then log[i].pos else head
  }

  ghost predicate Abuts(log: seq<Entry>, head: nat, i: nat)
    requires i < |log|
  {
    log[i].pos + log[i].len == Start(log, head, i + 1)
  }

  ghost predicate PadFollowed(log: seq<Entry>, i: nat)
    requires i < |log|
  {
    log[i].pad ==> i + 1 < |log| && !log[i + 1].pad
  }

  // The reservations cover the positions up to the head without gap or overlap.
  ghost predicate LogOk(c: Config, log: seq<Entry>, head: nat)
    requires ConfigOk(c)
  {
    && Start(log, head, 0) == 0 && head % 8 == 0
    && (forall i | 0 <= i < |log| :: Shape(c, log[i]))
    && (forall i: nat | i < |log| :: Abuts(log, head, i))
    && (forall i: nat | i < |log| :: PadFollowed(log, i))
  }

  ghost predicate Window(c: Config, s: State) {
    && s.consumed <= s.mirrored <= |s.log|
    && s.ctail == Start(s.log, s.head, s.consumed) && s.mirror == Start(s.log, s.head, s.mirrored)
    && s.tail <= s.ctail && s.head <= s.tail + c.size && s.head < WORD64
    && (s.consumer != Releasing ==> s.tail == s.ctail)
  }

  ghost predicate Live(log: seq<Entry>, consumed: nat, i: int) {
    consumed <= i < |log|
  }

  // What memory holds of entry `e`: its length once committed, zero before, and the part written so far.
  ghost predicate Cell(c: Config, mem: seq<Byte>, e: Entry)
    requires c.size > 0
  {
    var off := Off(c, e.pos);
    && off + e.len <= |mem| == c.size && FRAME_HEADER <= e.len
    && Total(mem, off) == (if e.committed then e.len else 0)
    && (if e.pad then e.written == 1 ==> mem[off + 4] == 0 && mem[off + 5] == 0
        else && |e.bytes| == e.len && 4 + e.written <= e.len
             && forall j | off + 4 <= j < off + 4 + e.written :: mem[j] == e.bytes[j - off])
  }

  ghost predicate Cells(c: Config, mem: seq<Byte>, log: seq<Entry>, consumed: nat)
    requires c.size > 0
  {
    forall i | Live(log, consumed, i) :: Cell(c, mem, log[i])
  }

  // A word that reads as uncommitted.
  ghost predicate ReadsZero(c: Config, mem: seq<Byte>, pos: nat)
    requires c.size > 0
  {
    Off(c, pos) + 4 <= |mem| && Total(mem, Off(c, pos)) == 0
  }

  // Every entry the reservation makes starts on a zero TotalSize.
  ghost predicate CleanEntries(c: Config, mem: seq<Byte>, es: seq<Entry>)
    requires c.size > 0
  {
    forall e | e in es :: ReadsZero(c, mem, e.pos)
  }

  ghost predicate CleanReservation(c: Config, s: State, p: nat)
    requires c.size > 0 && p < |s.producers|
  {
    s.producers[p].Reserving? && s.producers[p].h < WORD64 && s.producers[p].t < WORD64 ==>
      var Reserving(f, prio, h, t) := s.producers[p];
      var r := Reserve(h, t, c.size, prio, |f|);
      r.Reserved? ==> CleanEntries(c, s.mem, Entries(h, r.pad, f))
  }

  // Up to `n`, no reservation of the run landed on bytes that read as a commit.
  ghost predicate Clean(c: Config, run: seq<State>, n: nat)
    requires c.size > 0 && n < |run|
  {
    forall i, p: nat | 0 <= i < n && p < |run[i].producers| && CasWins(c, run[i], p, run[i + 1]) ::
      CleanReservation(c, run[i], p)
  }

  // The entries a producer is still writing.
  ghost predicate Owns(pr: Producer, i: int) {
    match pr
    case Mirroring(idx, hasPad) => i == idx || (hasPad && i + 1 == idx)
    case PadVersion(idx) => i == idx || i + 1 == idx
    case PadCommit(idx) => i == idx || i + 1 == idx
    case Copying(idx) => i == idx
    case _ => false
  }

  ghost predicate OpenFrame(log: seq<Entry>, consumed: nat, i: nat) {
    Live(log, consumed, i) && !log[i].pad && !log[i].committed
  }

  ghost predicate OpenPad(log: seq<Entry>, consumed: nat, idx: nat, written: nat) {
    idx > 0 && Live(log, consumed, idx - 1) && log[idx - 1].pad && !log[idx - 1].committed
        && log[idx - 1].written == written
  }

  ghost predicate ProducerOk(c: Config, log: seq<Entry>, consumed: nat, mirrored: nat, head: nat, tail: nat,
      pr: Producer) {
    match pr
    case Idle => true
    case Started(f, prio) => FrameOk(c, f)
    case HeadLoaded(f, prio, h) => FrameOk(c, f) && h <= head
    case Reserving(f, prio, h, t) => FrameOk(c, f) && h <= head && t <= tail
    case Mirroring(idx, hasPad) =>
      OpenFrame(log, consumed, idx) && log[idx].written == 0 && (hasPad ==> OpenPad(log, consumed, idx, 0))
    case PadVersion(idx) =>
      OpenFrame(log, consumed, idx) && log[idx].written == 0 && OpenPad(log, consumed, idx, 0) && idx < mirrored
    case PadCommit(idx) =>
      OpenFrame(log, consumed, idx) && log[idx].written == 0 && OpenPad(log, consumed, idx, 1) && idx < mirrored
    case Copying(idx) => OpenFrame(log, consumed, idx) && idx < mirrored
  }

  ghost predicate Each(c: Config, log: seq<Entry>, consumed: nat, mirrored: nat, head: nat, tail: nat,
      prs: seq<Producer>) {
    forall p | 0 <= p < |prs| :: ProducerOk(c, log, consumed, mirrored, head, tail, prs[p])
  }

  // No entry has two writers.
  ghost predicate Exclusive(prs: seq<Producer>) {
    forall p, q, i | 0 <= p < |prs| && 0 <= q < |prs| && Owns(prs[p], i) && Owns(prs[q], i) :: p == q
  }

  ghost predicate Owned(prs: seq<Producer>, i: int) {
    exists p | 0 <= p < |prs| :: Owns(prs[p], i)
  }

  ghost predicate IsMirroring(pr: Producer, i: int) {
    pr.Mirroring? && pr.idx == i
  }

  ghost predicate MirrorPending(prs: seq<Producer>, i: int) {
    exists p | 0 <= p < |prs| :: IsMirroring(prs[p], i)
  }

  // Every open entry is in some producer's hands, and every frame not yet mirrored is about to be.
  ghost predicate Attended(log: seq<Entry>, consumed: nat, mirrored: nat, prs: seq<Producer>) {
    && (forall i | Live(log, consumed, i) && !log[i].committed :: Owned(prs, i))
    && (forall i | Live(log, mirrored, i) && !log[i].pad :: MirrorPending(prs, i))
  }

  // The entry at the consumer's tail is committed, and `total` is its length.
  ghost predicate Current(log: seq<Entry>, consumed: nat, mirrored: nat, total: nat) {
    consumed < mirrored <= |log| && log[consumed].committed && total == log[consumed].len
  }

  ghost predicate ConsumerOk(consumer: Consumer, log: seq<Entry>, consumed: nat, mirrored: nat) {
    match consumer
    case Polling => true
    case Pending => consumed < mirrored
    case Seen(total) => Current(log, consumed, mirrored, total)
    case Skipping(total) => Current(log, consumed, mirrored, total) && log[consumed].pad
    case Reading(total, buf) =>
      Current(log, consumed, mirrored, total) && !log[consumed].pad && buf <= log[consumed].bytes
    case Releasing => true
  }

  ghost function FramesOf(log: seq<Entry>): seq<seq<Byte>> {
    if log == [] then [] else
    FramesOf(log[..|log| - 1]) + if log[|log| - 1].pad then [] else [log[|log| - 1].bytes]
  }

  ghost function Committed(log: seq<Entry>): multiset<seq<Byte>> {
    if log == [] then multiset{} else
    Committed(log[..|log| - 1]) + Counted(log[|log| - 1])
  }

  ghost function Counted(e: Entry): multiset<seq<Byte>> {
    if e.committed && !e.pad then multiset{e.bytes} else multiset{}
  }

  // Handed out: the frames of the released entries. Reported published: the frames of the committed ones.
  ghost predicate History(log: seq<Entry>, consumed: nat, out: seq<seq<Byte>>, done: multiset<seq<Byte>>) {
    && consumed <= |log| && out == FramesOf(log[..consumed])
    && (forall i | 0 <= i < consumed :: log[i].committed)
    && done == Committed(log)
  }

  ghost predicate Inv(c: Config, s: State)
    requires ConfigOk(c)
  {
    && LogOk(c, s.log, s.head) && Window(c, s)
    && |s.mem| == c.size && Cells(c, s.mem, s.log, s.consumed)
    && Each(c, s.log, s.consumed, s.mirrored, s.head, s.tail, s.producers) && Exclusive(s.producers)
    && Attended(s.log, s.consumed, s.mirrored, s.producers)
    && ConsumerOk(s.consumer, s.log, s.consumed, s.mirrored)
    && History(s.log, s.consumed, s.out, s.done)
  }

  // ----- geometry -----

  lemma {:induction false} LaterStartsLater(c: Config, log: seq<Entry>, head: nat, i: nat, j: nat)
    requires ConfigOk(c) && LogOk(c, log, head) && i < j <= |log|
    ensures log[i].pos + log[i].len <= Start(log, head, j)
    decreases j
  {
    hide Shape, Off;
    if i < j - 1 {
      LaterStartsLater(c, log, head, i, j - 1);
    }
    assert Abuts(log, head, j - 1);
  }

  lemma StartsOrdered(c: Config, log: seq<Entry>, head: nat, i: nat, j: nat)
    requires ConfigOk(c) && LogOk(c, log, head) && i <= |log| && j <= |log|
    ensures i <= j <==> Start(log, head, i) <= Start(log, head, j)
  {
    if i < j {
      LaterStartsLater(c, log, head, i, j);
      assert Shape(c, log[i]);
    } else if j < i {
      LaterStartsLater(c, log, head, j, i);
      assert Shape(c, log[j]);
    }
  }

  // Ranges less than a lap apart that do not straddle the end do not overlap in memory.
  lemma RangesApart(p: nat, m: nat, q: nat, n: nat, size: nat)
    requires size > 0 && m > 0 && n > 0 && p + m <= q && q + n <= p + size
    requires p % size + m <= size && q % size + n <= size
    ensures var a, b := p % size, q % size; a + m <= b || b + n <= a
  {
    var a, d := p % size, q - p;
    if a + d < size {
      ModInside(p, d, size);
    } else {
      ModUnique(q, p / size + 1, a + d - size, size);
    }
  }

  // Two live entries never overlap in memory.
  lemma LiveApart(c: Config, log: seq<Entry>, head: nat, consumed: nat, i: nat, j: nat)
    requires ConfigOk(c) && LogOk(c, log, head) && consumed <= |log| && head <= Start(log, head, consumed) + c.size
    requires Live(log, consumed, i) && Live(log, consumed, j) && i < j
    ensures var a, b := Off(c, log[i].pos), Off(c, log[j].pos);
      a + log[i].len <= b || b + log[j].len <= a
  {
    hide FrameOk, Written;
    StartsOrdered(c, log, head, consumed, i);
    LaterStartsLater(c, log, head, i, j);
    LaterStartsLater(c, log, head, j, |log|);
    assert Shape(c, log[i]) && Shape(c, log[j]);
    RangesApart(log[i].pos, log[i].len, log[j].pos, log[j].len, c.size);
  }

  lemma CellElsewhere(c: Config, mem: seq<Byte>, mem': seq<Byte>, e: Entry)
    requires c.size > 0 && Cell(c, mem, e) && |mem'| == |mem|
    requires forall j | Off(c, e.pos) <= j < Off(c, e.pos) + e.len :: mem'[j] == mem[j]
    ensures Cell(c, mem', e)
  {
    var off := Off(c, e.pos);
    assert mem'[off..off + 4] == mem[off..off + 4];
  }

  // `e` is entry `i` with more of it written.
  ghost predicate Progress(c: Config, log: seq<Entry>, i: nat, e: Entry)
    requires ConfigOk(c)
  {
    i < |log| && e.pos == log[i].pos && e.len == log[i].len && e.pad == log[i].pad && e.bytes == log[i].bytes
        && Shape(c, e)
  }

  lemma ProgressKeepsLog(c: Config, log: seq<Entry>, head: nat, i: nat, e: Entry)
    requires ConfigOk(c) && LogOk(c, log, head) && Progress(c, log, i, e)
    ensures LogOk(c, log[i := e], head)
    ensures forall k: nat :: Start(log[i := e], head, k) == Start(log, head, k)
  {
    hide Shape, Off;
    var log' := log[i := e];
    forall k: nat | k < |log'|
      ensures Abuts(log', head, k) && PadFollowed(log', k)
    {
      assert Abuts(log, head, k) && PadFollowed(log, k);
    }
  }

  // Memory changes only inside entry `e`.
  ghost predicate Within(c: Config, mem: seq<Byte>, mem': seq<Byte>, e: Entry)
    requires c.size > 0
  {
    && |mem'| == |mem|
    && forall j | 0 <= j < |mem| && (j < Off(c, e.pos) || Off(c, e.pos) + e.len <= j) :: mem'[j] == mem[j]
  }

  lemma OwnWriteKeepsCells(c: Config, mem: seq<Byte>, log: seq<Entry>, head: nat, consumed: nat, i: nat,
      mem': seq<Byte>, e: Entry)
    requires ConfigOk(c) && LogOk(c, log, head) && consumed <= |log| && head <= Start(log, head, consumed) + c.size
    requires |mem| == c.size && Cells(c, mem, log, consumed) && Live(log, consumed, i) && Progress(c, log, i, e)
    requires Cell(c, mem', e) && Within(c, mem, mem', e)
    ensures Cells(c, mem', log[i := e], consumed)
  {
    hide Cell, FrameOk, Off, Written;
    var log' := log[i := e];
    forall k | Live(log', consumed, k)
      ensures Cell(c, mem', log'[k])
    {
      if k != i {
        assert Live(log, consumed, k) && Shape(c, log[k]);
        if k < i {
          LiveApart(c, log, head, consumed, k, i);
        } else {
          LiveApart(c, log, head, consumed, i, k);
        }
        CellElsewhere(c, mem, mem', log[k]);
      }
    }
  }
}

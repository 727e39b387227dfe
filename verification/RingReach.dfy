/** Driving the ring step by step: from a reachable quiet state, one frame published and consumed. */
module RingReach {
  import opened LittleEndian
  import opened RingLayout
  import opened RingSteps
  import opened RingSafety
  import opened RingProof
  import opened RingRuns

  // The last state of a run in which every reservation was clean.
  ghost predicate Reachable(c: Config, s: State)
    requires c.size > 0
  {
    exists run :: |run| > 0 && IsRun(c, run) && Clean(c, run, |run| - 1) && run[|run| - 1] == s
  }

  lemma StartReachable(c: Config, s: State)
    requires c.size > 0 && Init(c, s)
    ensures Reachable(c, s)
  {
    hide Init, CasWins;
    var run := [s];
    assert IsRun(c, run) && Clean(c, run, |run| - 1);
  }

  lemma ReachableInv(c: Config, s: State)
    requires ConfigOk(c) && Reachable(c, s)
    ensures Inv(c, s)
  {
    hide Inv, IsRun, Clean;
    var run :| |run| > 0 && IsRun(c, run) && Clean(c, run, |run| - 1) && run[|run| - 1] == s;
    RunKeepsInv(c, run, |run| - 1);
  }

  lemma Extend(c: Config, run: seq<State>, s': State)
    requires |run| > 0 && IsRun(c, run) && Next(c, run[|run| - 1], s')
    ensures IsRun(c, run + [s'])
  {
    hide Next, Init;
    var r := run + [s'];
    forall i | 0 <= i < |r| - 1
      ensures Next(c, r[i], r[i + 1])
    {
      assert i < |run| - 1 ==> Next(c, run[i], run[i + 1]);
    }
  }

  lemma Goes(c: Config, s: State, s': State)
    requires c.size > 0 && Reachable(c, s) && Next(c, s, s')
    requires forall p: nat | p < |s.producers| && CasWins(c, s, p, s') :: CleanReservation(c, s, p)
    ensures Reachable(c, s')
  {
    hide IsRun, Next, CasWins, CleanReservation;
    var run :| |run| > 0 && IsRun(c, run) && Clean(c, run, |run| - 1) && run[|run| - 1] == s;
    Extend(c, run, s');
    var r := run + [s'];
    forall i, p: nat | 0 <= i < |r| - 1 && p < |r[i].producers| && CasWins(c, r[i], p, r[i + 1])
      ensures CleanReservation(c, r[i], p)
    {
      if i < |run| - 1 {
        assert CasWins(c, run[i], p, run[i + 1]);
      }
    }
    assert Clean(c, r, |r| - 1);
  }

  // A step that is no reservation.
  lemma ProducerGoes(c: Config, s: State, s': State)
    requires c.size > 0 && Reachable(c, s) && |s.producers| == 1 && ProducerStep(c, s, 0, s')
    requires !s.producers[0].Reserving? || CleanReservation(c, s, 0)
    ensures Reachable(c, s')
  {
    hide Reachable, CleanReservation, Reserve;
    assert Next(c, s, s');
    forall p: nat | p < |s.producers| && CasWins(c, s, p, s')
      ensures CleanReservation(c, s, p)
    {
    }
    hide ProducerStep, CasWins;
    Goes(c, s, s');
  }

  lemma ConsumerGoes(c: Config, s: State, s': State)
    requires c.size > 0 && Reachable(c, s) && ConsumerStep(c, s, s')
    ensures Reachable(c, s')
  {
    hide Reachable, CleanReservation, Reserve;
    ReservesNothing(c, s, s');
    hide CasWins;
    assert Next(c, s, s');
    Goes(c, s, s');
  }

  // A step of the consumer extends no log.
  lemma ReservesNothing(c: Config, s: State, s': State)
    requires c.size > 0 && ConsumerStep(c, s, s')
    ensures forall p: nat | p < |s.producers| :: !CasWins(c, s, p, s')
  {
    hide Reserve, Total, SetTotal, Off;
    assert s'.log == s.log;
  }

  // ----- the consumer takes one entry -----

  ghost predicate Waiting(s: State) {
    s.consumer.Polling? && s.consumed < s.mirrored && s.consumed < |s.log| && s.log[s.consumed].committed
  }

  ghost function Consumed(c: Config, s: State, mem: seq<Byte>): State
    requires s.consumed < |s.log|
  {
    var e := s.log[s.consumed];
    s.(mem := mem, ctail := s.ctail + e.len, tail := s.ctail + e.len, consumed := s.consumed + 1,
       out := if e.pad then s.out else s.out + [e.bytes])
  }

  // It finds, reads or skips, zeroes and releases it; only the entry's TotalSize word changes.
  lemma Consumes(c: Config, s: State) returns (s': State)
    requires ConfigOk(c) && Reachable(c, s) && Waiting(s)
    ensures Reachable(c, s') && s' == Consumed(c, s, s'.mem) && |s'.mem| == |s.mem| == c.size
    ensures Off(c, s.ctail) + 4 <= c.size && Total(s'.mem, Off(c, s.ctail)) == 0
    ensures forall j | 0 <= j < |s.mem| && !(Off(c, s.ctail) <= j < Off(c, s.ctail) + 4) :: s'.mem[j] == s.mem[j]
  {
    hide Reachable, Inv, Shape, Cell, Total, SetTotal, FrameOk, Off;
    var s1 := FindsEntry(c, s);
    var s2 := HandlesEntry(c, s, s1);
    ReachableInv(c, s2);
    TailRoom(c, s);
    InvSize(c, s);
    InvSize(c, s2);
    TotalStored(s.mem, Off(c, s.ctail), 0);
    var s3 := s2.(mem := SetTotal(s2.mem, Off(c, s2.ctail), 0), ctail := s2.ctail + s2.consumer.total,
                  consumed := s2.consumed + 1, consumer := Releasing,
                  out := if s2.consumer.Reading? then s2.out + [s2.consumer.buf] else s2.out);
    assert Release(c, s2, s3);
    ConsumerGoes(c, s2, s3);
    s' := s3.(tail := s3.ctail, consumer := Polling);
    assert PublishTail(s3, s');
    ConsumerGoes(c, s3, s');
  }

  lemma InvSize(c: Config, s: State)
    requires ConfigOk(c) && Inv(c, s)
    ensures |s.mem| == c.size
  {
    hide LogOk, Window, Cells, Each, Exclusive, Attended, ConsumerOk, History;
  }

  lemma TailRoom(c: Config, s: State)
    requires ConfigOk(c) && Reachable(c, s) && Waiting(s)
    ensures Inv(c, s) && Off(c, s.ctail) + 6 <= |s.mem| && 0 < Range(4)
  {
    hide Reachable, Inv, Shape, Cell, Off;
    ReachableInv(c, s);
    AtTail(c, s);
    VersionTells(c, s.mem, s.log[s.consumed]);
  }

  // head_mirror is ahead, and TotalSize is the entry's length.
  lemma FindsEntry(c: Config, s: State) returns (s': State)
    requires ConfigOk(c) && Reachable(c, s) && Waiting(s)
    ensures Reachable(c, s') && s' == s.(consumer := Seen(s.log[s.consumed].len))
  {
    hide Reachable, Inv, Shape, Off, Total;
    TailRoom(c, s);
    Looking(c, s);
    AtTail(c, s);
    MirrorAhead(c, s);
    var s1 := s.(consumer := Pending);
    assert LoadMirror(s, s1);
    ConsumerGoes(c, s, s1);
    s' := s.(consumer := Seen(s.log[s.consumed].len));
    assert LoadTotal(c, s1, s');
    ConsumerGoes(c, s1, s');
  }

  lemma MirrorAhead(c: Config, s: State)
    requires ConfigOk(c) && Inv(c, s) && s.consumed < s.mirrored
    ensures s.mirror != s.ctail
  {
    hide Cells, Each, Exclusive, Attended, ConsumerOk, History, Shape;
    StartsOrdered(c, s.log, s.head, s.mirrored, s.consumed);
  }

  lemma HandlesEntry(c: Config, s: State, s1: State) returns (s2: State)
    requires ConfigOk(c) && Reachable(c, s) && Waiting(s)
    requires Reachable(c, s1) && s1 == s.(consumer := Seen(s.log[s.consumed].len))
    ensures Reachable(c, s2)
    ensures var e := s.log[s.consumed];
      && s2 == s.(consumer := if e.pad then Skipping(e.len) else Reading(e.len, e.bytes))
      && (!e.pad ==> |e.bytes| == e.len)
  {
    hide Reachable, Inv, Shape, Off, Cell;
    TailRoom(c, s);
    AtTail(c, s);
    var e := s.log[s.consumed];
    VersionTells(c, s.mem, e);
    CommittedBytes(c, s.mem, e);
    s2 := s.(consumer := if e.pad then Skipping(e.len) else Reading(e.len, []));
    assert LoadVersion(c, s1, s2);
    ConsumerGoes(c, s1, s2);
    if !e.pad {
      s2 := ReadsRest(c, s, s2, 0);
    }
  }

  lemma {:induction false} ReadsRest(c: Config, s: State, s1: State, k: nat) returns (s2: State)
    requires ConfigOk(c) && Reachable(c, s) && Waiting(s) && !s.log[s.consumed].pad && k <= |s.log[s.consumed].bytes|
    requires var e := s.log[s.consumed];
      Reachable(c, s1) && s1 == s.(consumer := Reading(e.len, e.bytes[..k]))
    ensures Reachable(c, s2)
    ensures var e := s.log[s.consumed]; |e.bytes| == e.len && s2 == s.(consumer := Reading(e.len, e.bytes))
    decreases |s.log[s.consumed].bytes| - k
  {
    hide Reachable, Inv, Shape, Off, Cell;
    var e := s.log[s.consumed];
    TailRoom(c, s);
    AtTail(c, s);
    CommittedBytes(c, s.mem, e);
    if k == |e.bytes| {
      assert e.bytes[..k] == e.bytes;
      s2 := s1;
    } else {
      assert e.bytes[..k + 1] == e.bytes[..k] + [e.bytes[k]];
      var next := s.(consumer := Reading(e.len, e.bytes[..k + 1]));
      assert ReadByte(c, s1, next);
      ConsumerGoes(c, s1, next);
      s2 := ReadsRest(c, s, next, k + 1);
    }
  }

  // ----- the one producer publishes -----

  // Nothing under way, nothing waiting.
  ghost predicate Quiet(s: State) {
    && s.producers == [Idle] && s.consumer.Polling?
    && s.consumed == s.mirrored == |s.log| && s.tail == s.ctail == s.mirror == s.head
  }

  ghost predicate Outside(lo: nat, hi: nat, j: int) {
    j < lo || hi <= j
  }

  // From a quiet state to the point of the CAS, with enforcement's budget.
  lemma Prepares(c: Config, s: State, f: seq<Byte>) returns (s': State)
    requires ConfigOk(c) && Reachable(c, s) && Quiet(s) && FrameOk(c, f)
    requires s.head < WORD64 && Reserve(s.head, s.head, c.size, Enforce, |f|).Reserved?
    ensures Reachable(c, s') && s' == s.(producers := [Reserving(f, Enforce, s.head, s.head)])
  {
    hide Reachable, Reserve, FrameOk, Off;
    var s1, s2 := s.(producers := [Started(f, Enforce)]), s.(producers := [HeadLoaded(f, Enforce, s.head)]);
    s' := s.(producers := [Reserving(f, Enforce, s.head, s.head)]);
    assert Begin(c, s, 0, s1);
    ProducerGoes(c, s, s1);
    assert LoadHead(s1, 0, s2);
    ProducerGoes(c, s1, s2);
    assert LoadTail(c, s2, 0, s');
    ProducerGoes(c, s2, s');
  }

  ghost function AfterCas(c: Config, s: State, f: seq<Byte>): State
    requires c.size > 0 && s.head < WORD64 && Reserve(s.head, s.head, c.size, Enforce, |f|).Reserved?
  {
    var r := Reserve(s.head, s.head, c.size, Enforce, |f|);
    var log' := s.log + Entries(s.head, r.pad, f);
    s.(head := r.newHead, log := log', producers := [Mirroring(|log'| - 1, r.pad > 0)])
  }

  lemma Reserves(c: Config, s: State, f: seq<Byte>) returns (s': State)
    requires ConfigOk(c) && Reachable(c, s) && Quiet(s) && CanPublish(c, s, f)
    ensures Reachable(c, s') && s' == AfterCas(c, s, f)
  {
    hide Reachable, Reserve, FrameOk, CleanEntries, Off;
    var s1 := Prepares(c, s, f);
    s' := AfterCas(c, s, f);
    assert CasWins(c, s1, 0, s');
    ProducerGoes(c, s1, s');
  }

  ghost predicate CanPublish(c: Config, s: State, f: seq<Byte>)
    requires c.size > 0
  {
    && s.head < WORD64 && FrameOk(c, f)
    && var r := Reserve(s.head, s.head, c.size, Enforce, |f|);
       r.Reserved? && r.newHead < WORD64 && CleanEntries(c, s.mem, Entries(s.head, r.pad, f))
  }

  // Bytes outside `[lo, hi)` are as before.
  ghost predicate OnlyWithin(mem: seq<Byte>, mem': seq<Byte>, lo: nat, hi: nat) {
    |mem'| == |mem| && forall j | 0 <= j < |mem| && Outside(lo, hi, j) :: mem'[j] == mem[j]
  }

  ghost function Done(e: Entry): Entry {
    e.(written := if e.pad then 1 else if |e.bytes| >= 4 then |e.bytes| - 4 else 0, committed := true)
  }

  lemma PadBefore(c: Config, s: State, idx: nat)
    requires ConfigOk(c) && Inv(c, s) && s.producers == [PadVersion(idx)]
    ensures idx > 0
  {
    EachAt(c, s, 0);
    hide LogOk, Cells, Exclusive, Attended, ConsumerOk, History;
  }

  lemma FillsPad(c: Config, s: State, idx: nat) returns (s': State)
    requires ConfigOk(c) && Reachable(c, s) && s.producers == [PadVersion(idx)]
    ensures Reachable(c, s') && 0 < idx < |s.log|
    ensures s' == s.(mem := s'.mem, log := s.log[idx - 1 := Done(s.log[idx - 1])], producers := [Copying(idx)])
    ensures var off := Off(c, s.log[idx - 1].pos); OnlyWithin(s.mem, s'.mem, off, off + s.log[idx - 1].len)
  {
    hide Reachable, Inv, Cell, Off, SetTotal, FrameOk;
    ReachableInv(c, s);
    PadBefore(c, s, idx);
    OwnEntry(c, s, 0, idx - 1);
    var e, off := s.log[idx - 1], Off(c, s.log[idx - 1].pos);
    var s1 := s.(mem := Put(s.mem, off + 4, [0, 0, 0, 0]), log := s.log[idx - 1 := e.(written := 1)],
                 producers := [PadCommit(idx)]);
    assert WritePadVersion(c, s, 0, s1);
    ProducerGoes(c, s, s1);
    TotalStored(s1.mem, off, e.len);
    s' := s1.(mem := SetTotal(s1.mem, off, e.len), log := s.log[idx - 1 := Done(e)], producers := [Copying(idx)]);
    assert s1.log[idx - 1 := Done(e)] == s'.log;
    assert CommitPad(c, s1, 0, s');
    ProducerGoes(c, s1, s');
  }

  lemma {:induction false} Copies(c: Config, s: State, idx: nat) returns (s': State)
    requires ConfigOk(c) && Reachable(c, s) && s.producers == [Copying(idx)]
    ensures Reachable(c, s') && idx < |s.log| && |s.log[idx].bytes| == s.log[idx].len >= 8
    ensures s' == s.(mem := s'.mem, log := s.log[idx := s.log[idx].(written := |s.log[idx].bytes| - 4)])
    ensures var off := Off(c, s.log[idx].pos); OnlyWithin(s.mem, s'.mem, off, off + s.log[idx].len)
    decreases if idx < |s.log| then |s.log[idx].bytes| - s.log[idx].written else 0
  {
    hide Reachable, Inv, Cell, Off, FrameOk;
    ReachableInv(c, s);
    OwnEntry(c, s, 0, idx);
    var e, off := s.log[idx], Off(c, s.log[idx].pos);
    if 4 + e.written == |e.bytes| {
      s' := s;
      assert s.log[idx := e] == s.log;
    } else {
      var next := e.(written := e.written + 1);
      var s1 := s.(mem := Put(s.mem, off + 4 + e.written, [e.bytes[4 + e.written]]), log := s.log[idx := next]);
      assert s.producers[0 := Copying(idx)] == s.producers;
      assert CopyByte(c, s, 0, s1);
      ProducerGoes(c, s, s1);
      s' := Copies(c, s1, idx);
      assert s1.log[idx := next.(written := |e.bytes| - 4)] == s.log[idx := e.(written := |e.bytes| - 4)];
    }
  }

  lemma FillsFrame(c: Config, s: State, idx: nat) returns (s': State)
    requires ConfigOk(c) && Reachable(c, s) && s.producers == [Copying(idx)]
    ensures Reachable(c, s') && idx < |s.log|
    ensures s' == s.(mem := s'.mem, log := s.log[idx := Done(s.log[idx])], producers := [Idle], done := s'.done)
    ensures var off := Off(c, s.log[idx].pos); OnlyWithin(s.mem, s'.mem, off, off + s.log[idx].len)
  {
    hide Reachable, Inv, Cell, Off, SetTotal, FrameOk;
    ReachableInv(c, s);
    OwnEntry(c, s, 0, idx);
    var s1 := Copies(c, s, idx);
    var e, off := s1.log[idx], Off(c, s.log[idx].pos);
    TotalRange(c, e.len);
    TotalStored(s1.mem, off, e.len);
    s' := s1.(mem := SetTotal(s1.mem, off, e.len), log := s.log[idx := Done(s.log[idx])], producers := [Idle],
              done := s1.done + multiset{e.bytes});
    assert s1.log[idx := e.(committed := true)] == s'.log;
    assert s1.producers[0 := Idle] == [Idle];
    assert Commit(c, s1, 0, s');
    ProducerGoes(c, s1, s');
  }

  lemma TotalRange(c: Config, n: nat)
    requires ConfigOk(c) && n <= c.size
    ensures n < Range(4)
  {
  }

  // ----- a whole round -----

  ghost function DoneAll(es: seq<Entry>): seq<Entry> {
    seq(|es|, i requires 0 <= i < |es| => Done(es[i]))
  }

  // The frame (and its pad) reserved, announced, written and committed; nothing consumed yet.
  ghost predicate Published(c: Config, s: State, f: seq<Byte>, s': State)
    requires c.size > 0 && s.head < WORD64
  {
    var r := Reserve(s.head, s.head, c.size, Enforce, |f|);
    && r.Reserved?
    && s' == s.(mem := s'.mem, head := r.newHead, mirror := r.newHead, mirrored := |s'.log|, done := s'.done,
                log := s.log + DoneAll(Entries(s.head, r.pad, f)))
    && |s'.mem| == |s.mem|
    && forall j | 0 <= j < |s.mem| && Outside(Off(c, s.head), Off(c, s.head) + r.pad, j)
         && Outside(Off(c, s.head + r.pad), Off(c, s.head + r.pad) + |f|, j) :: s'.mem[j] == s.mem[j]
  }

  lemma Publishes(c: Config, s: State, f: seq<Byte>) returns (s': State)
    requires ConfigOk(c) && Reachable(c, s) && Quiet(s) && CanPublish(c, s, f)
    ensures Reachable(c, s') && Published(c, s, f, s')
  {
    hide Reachable, Reserve, FrameOk, CleanEntries, Off, ReadsZero;
    var r := Reserve(s.head, s.head, c.size, Enforce, |f|);
    FrameFacts(c, f);
    ReserveGrows(s.head, c.size, |f|);
    var s1 := Reserves(c, s, f);
    var es, n := Entries(s.head, r.pad, f), |s1.log| - 1;
    var s2 := s1.(mirror := s1.head, mirrored := |s1.log|,
                  producers := [if r.pad > 0 then PadVersion(n) else Copying(n)]);
    assert RaiseMirror(s1, 0, s2);
    ProducerGoes(c, s1, s2);
    if r.pad > 0 {
      var s3 := FillsPad(c, s2, n);
      s' := FillsFrame(c, s3, n);
      assert s'.log == s.log + DoneAll(es);
    } else {
      s' := FillsFrame(c, s2, n);
      assert s'.log == s.log + DoneAll(es);
    }
  }

  lemma ReserveGrows(head: nat, size: nat, len: nat)
    requires 0 < len && 0 < size && head < WORD64
    ensures var r := Reserve(head, head, size, Enforce, len); r.Reserved? ==> r.newHead == head + r.pad + len
  {
  }

  // What the round leaves behind: the words it used are zero again, the body stays, all else is as before.
  ghost predicate Round(c: Config, s: State, f: seq<Byte>, s': State)
    requires c.size > 0 && s.head < WORD64
  {
    var r := Reserve(s.head, s.head, c.size, Enforce, |f|);
    && r.Reserved? && Quiet(s') && s'.head == r.newHead && |s'.mem| == |s.mem| == c.size
    && var off, at := Off(c, s.head), Off(c, s.head + r.pad);
       && at + |f| <= c.size && |f| >= 8
       && Total(s'.mem, at) == 0
       && (forall j | 4 <= j < |f| :: s'.mem[at + j] == f[j])
       && forall j | 0 <= j < |s.mem| && Outside(off, off + r.pad, j) && Outside(at, at + |f|, j) ::
            s'.mem[j] == s.mem[j]
  }

  lemma OneRound(c: Config, s: State, f: seq<Byte>) returns (s': State)
    requires ConfigOk(c) && Reachable(c, s) && Quiet(s) && CanPublish(c, s, f)
    ensures Reachable(c, s') && Round(c, s, f, s')
  {
    hide Reachable, Inv, Reserve, FrameOk, CleanEntries, Off, ReadsZero, Total;
    var r := Reserve(s.head, s.head, c.size, Enforce, |f|);
    var s1 := Publishes(c, s, f);
    ReachableInv(c, s);
    InvSize(c, s);
    FrameFacts(c, f);
    ReserveGrows(s.head, c.size, |f|);
    ReachableInv(c, s1);
    FramePlaced(c, s, f, s1, r.pad);
    if r.pad > 0 {
      assert Waiting(s1);
      var s2 := Consumes(c, s1);
      assert Waiting(s2);
      s' := Consumes(c, s2);
    } else {
      assert Waiting(s1);
      s' := Consumes(c, s1);
    }
  }

  // A frame stands in memory at `at`, clear of the pad at `off`.
  ghost predicate StandsAt(c: Config, mem: seq<Byte>, f: seq<Byte>, at: nat, off: nat, pad: nat) {
    && |mem| == c.size && at + |f| <= c.size && |f| >= 8
    && (forall j | 0 <= j < |f| :: mem[at + j] == f[j])
    && (pad > 0 ==> pad >= 8 && Outside(at, at + |f|, off) && Outside(at, at + |f|, off + 3))
  }

  lemma LoggedLast(c: Config, s: State, f: seq<Byte>, s1: State, pad: nat)
    requires ConfigOk(c) && Quiet(s) && s.head < WORD64 && Published(c, s, f, s1)
    requires pad == Reserve(s.head, s.head, c.size, Enforce, |f|).pad
    ensures var n := |s1.log| - 1;
      && Live(s1.log, s1.consumed, n) && s1.log[n].bytes == f && s1.log[n].pos == s.head + pad
      && s1.log[n].len == |f| && s1.log[n].committed && !s1.log[n].pad
      && (pad > 0 ==> Live(s1.log, s1.consumed, n - 1) && s1.log[n - 1].pos == s.head && s1.log[n - 1].len == pad)
  {
    hide Reserve, Off;
  }

  lemma FramePlaced(c: Config, s: State, f: seq<Byte>, s1: State, pad: nat)
    requires ConfigOk(c) && Inv(c, s1) && Quiet(s) && FrameOk(c, f) && s.head < WORD64 && Published(c, s, f, s1)
    requires pad == Reserve(s.head, s.head, c.size, Enforce, |f|).pad
    ensures StandsAt(c, s1.mem, f, Off(c, s.head + pad), Off(c, s.head), pad)
  {
    hide Inv, Reserve, Off, Shape, Cell, Quiet, FrameOk, Published;
    InvSize(c, s1);
    LoggedLast(c, s, f, s1, pad);
    var n := |s1.log| - 1;
    EntryInPlace(c, s1, n);
    CommittedBytes(c, s1.mem, s1.log[n]);
    FrameFacts(c, f);
    if pad > 0 {
      EntryInPlace(c, s1, n - 1);
      EntriesApart(c, s1, n - 1, n);
    }
  }

  lemma EntryInPlace(c: Config, s: State, i: nat)
    requires ConfigOk(c) && Inv(c, s) && Live(s.log, s.consumed, i)
    ensures Shape(c, s.log[i]) && Cell(c, s.mem, s.log[i]) && s.log[i].len >= 8
  {
    hide Cell, FrameOk, Each, Exclusive, Attended, ConsumerOk, History, Off;
  }

  lemma EntriesApart(c: Config, s: State, i: nat, j: nat)
    requires ConfigOk(c) && Inv(c, s) && Live(s.log, s.consumed, i) && Live(s.log, s.consumed, j) && i < j
    ensures var a, b := Off(c, s.log[i].pos), Off(c, s.log[j].pos);
      a + s.log[i].len <= b || b + s.log[j].len <= a
  {
    hide Cells, LogOk, Each, Exclusive, Attended, ConsumerOk, History, Off, Start;
    WindowStart(c, s);
    WindowReach(c, s);
    LiveApart(c, s.log, s.head, s.consumed, i, j);
  }

  lemma WindowReach(c: Config, s: State)
    requires ConfigOk(c) && Window(c, s)
    ensures s.head <= Start(s.log, s.head, s.consumed) + c.size
  {
  }

  // A producer whose compare-and-swap lost, or failed for no reason, starts over.
  lemma LosersRetry(c: Config, s: State, p: nat)
    requires c.size > 0 && p < |s.producers| && s.producers[p].Reserving?
    ensures Next(c, s, s.(producers := s.producers[p := Started(s.producers[p].f, s.producers[p].prio)]))
  {
    var s' := s.(producers := s.producers[p := Started(s.producers[p].f, s.producers[p].prio)]);
    assert CasFails(s, p, s') && ProducerStep(c, s, p, s');
  }
}

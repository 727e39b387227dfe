/** What every run of the ring protocol guarantees, for any number of producers and any interleaving. */
module RingGuarantees {
  import opened RingLayout
  import opened RingSteps
  import opened RingSafety
  import opened RingProof
  import opened RingRuns
  import opened RingOneLength

  // All frames have one length, or no reservation so far has landed on bytes that read as a commit.
  ghost predicate Trusted(c: Config, run: seq<State>, i: nat)
    requires c.size > 0 && i < |run|
  {
    |c.lengths| <= 1 || Clean(c, run, i)
  }

  lemma TrustedInv(c: Config, run: seq<State>, i: nat)
    requires ConfigOk(c) && IsRun(c, run) && i < |run| && Trusted(c, run, i)
    ensures Inv(c, run[i])
  {
    hide IsRun, Clean, Inv;
    if |c.lengths| <= 1 {
      OneLengthIsClean(c, run, i);
    }
    RunKeepsInv(c, run, i);
  }

  // ----- what a run hands out -----

  lemma {:induction false} FramesPrefix(log: seq<Entry>, n: nat)
    requires n <= |log|
    ensures FramesOf(log[..n]) <= FramesOf(log)
    decreases |log| - n
  {
    if n == |log| {
      assert log[..n] == log;
    } else {
      FramesNext(log, n);
      FramesPrefix(log, n + 1);
    }
  }

  // Frames handed out are frames whose commit was made, none of them twice.
  lemma {:induction false} CommittedCoversFrames(log: seq<Entry>, n: nat)
    requires n <= |log| && forall i | 0 <= i < n :: log[i].committed
    ensures multiset(FramesOf(log[..n])) <= Committed(log)
    ensures n == |log| ==> multiset(FramesOf(log)) == Committed(log)
    decreases |log|
  {
    hide FramesOf, Committed;
    if log == [] {
      NothingCommitted();
    } else {
      var m := |log| - 1;
      FramesNext(log, m);
      CommittedLast(log);
      assert log[..m + 1] == log;
      if n == |log| {
        CommittedCoversFrames(log[..m], m);
        assert log[..m][..m] == log[..m] && log[..n] == log;
      } else {
        CommittedCoversFrames(log[..m], n);
        assert log[..m][..n] == log[..n];
      }
    }
  }

  lemma NothingCommitted()
    ensures FramesOf([]) == [] && Committed([]) == multiset{}
  {
  }

  lemma CommittedLast(log: seq<Entry>)
    requires log != []
    ensures Committed(log) == Committed(log[..|log| - 1]) + Counted(log[|log| - 1])
  {
  }

  // In every state of every run: the consumer has handed out, whole and in the order of their
  // reservations, a prefix of the frames reserved, each of them committed and none twice; and the three
  // cursors keep their order within one ring's length.
  lemma Safety(c: Config, run: seq<State>, i: nat)
    requires ConfigOk(c) && IsRun(c, run) && i < |run| && Trusted(c, run, i)
    ensures var s := run[i];
      && s.out <= FramesOf(s.log) && multiset(s.out) <= s.done
      && s.tail <= s.mirror <= s.head <= s.tail + c.size
  {
    hide Cells, Each, Exclusive, Attended, ConsumerOk, FramesOf, Committed, IsRun;
    var s := run[i];
    TrustedInv(c, run, i);
    FramesPrefix(s.log, s.consumed);
    CommittedCoversFrames(s.log, s.consumed);
    StartsOrdered(c, s.log, s.head, s.mirrored, |s.log|);
    StartsOrdered(c, s.log, s.head, s.consumed, s.mirrored);
  }

  ghost predicate SameFrames(log: seq<Entry>, log': seq<Entry>) {
    |log| <= |log'| && forall k | 0 <= k < |log| :: log'[k].pad == log[k].pad && log'[k].bytes == log[k].bytes
  }

  lemma {:induction false} SameFramesPrefix(log: seq<Entry>, log': seq<Entry>)
    requires SameFrames(log, log')
    ensures FramesOf(log) <= FramesOf(log')
    decreases |log'|
  {
    if |log| == |log'| && log != [] {
      var n := |log| - 1;
      SameFramesPrefix(log[..n], log'[..n]);
      SameFramesPrefix(log'[..n], log[..n]);
    } else if |log| < |log'| {
      SameFramesPrefix(log, log'[..|log'| - 1]);
    }
  }

  lemma StepAppends(c: Config, s: State, s': State)
    requires ConfigOk(c) && Next(c, s, s')
    ensures SameFrames(s.log, s'.log) && s.out <= s'.out
  {
    if ConsumerStep(c, s, s') {
      ConsumerAppends(c, s, s');
    } else {
      var p: nat :| p < |s.producers| && ProducerStep(c, s, p, s');
      ProducerAppends(c, s, p, s');
    }
    hide *;
  }

  lemma ConsumerAppends(c: Config, s: State, s': State)
    requires ConfigOk(c) && ConsumerStep(c, s, s')
    ensures s'.log == s.log && s.out <= s'.out
  {
    hide FrameOk, Off, Total, SetTotal, Put;
  }

  lemma ProducerAppends(c: Config, s: State, p: nat, s': State)
    requires ConfigOk(c) && p < |s.producers| && ProducerStep(c, s, p, s')
    ensures SameFrames(s.log, s'.log) && s.out == s'.out
  {
    hide FrameOk, Off, Total, SetTotal, Put, Reserve;
  }

  // What was handed out is never taken back, and a reservation keeps its place and its frame.
  lemma {:induction false} OnlyGrows(c: Config, run: seq<State>, i: nat, j: nat)
    requires ConfigOk(c) && IsRun(c, run) && i <= j < |run|
    ensures run[i].out <= run[j].out && FramesOf(run[i].log) <= FramesOf(run[j].log)
    decreases j
  {
    hide Next, Init, FramesOf;
    if i < j {
      OnlyGrows(c, run, i, j - 1);
      assert Next(c, run[j - 1], run[j]);
      StepAppends(c, run[j - 1], run[j]);
      SameFramesPrefix(run[j - 1].log, run[j].log);
    }
  }

  ghost predicate AllIdle(s: State) {
    forall p | 0 <= p < |s.producers| :: s.producers[p].Idle?
  }

  // When no producer is inside publish and the consumer finds nothing more, everything that was
  // published has been handed out: exactly the frames whose publish returned true, in reservation order.
  lemma Delivered(c: Config, run: seq<State>, i: nat)
    requires ConfigOk(c) && IsRun(c, run) && i < |run| && Trusted(c, run, i)
    requires AllIdle(run[i]) && run[i].consumer.Polling? && run[i].tail == run[i].mirror
    ensures run[i].out == FramesOf(run[i].log) && multiset(run[i].out) == run[i].done
    ensures run[i].mirror == run[i].head
  {
    hide Cells, Each, Exclusive, ConsumerOk, FramesOf, Committed, IsRun, Shape;
    var s := run[i];
    TrustedInv(c, run, i);
    AllMirrored(c, s);
    StartsOrdered(c, s.log, s.head, |s.log|, s.consumed);
    assert s.log[..s.consumed] == s.log;
    CommittedCoversFrames(s.log, s.consumed);
  }

  lemma UnmirroredIsPending(c: Config, s: State)
    requires ConfigOk(c) && Inv(c, s) && s.mirrored < |s.log|
    ensures exists n :: MirrorPending(s.producers, n)
  {
    hide Cells, Each, Exclusive, ConsumerOk, History, Shape, Off, MirrorPending;
    var k := s.mirrored;
    assert PadFollowed(s.log, k);
    var n := if s.log[k].pad then k + 1 else k;
    assert Live(s.log, s.mirrored, n);
  }

  lemma AllMirrored(c: Config, s: State)
    requires ConfigOk(c) && Inv(c, s) && AllIdle(s)
    ensures s.mirrored == |s.log| && forall k | Live(s.log, s.consumed, k) :: s.log[k].committed
  {
    hide LogOk, Cells, Each, Exclusive, ConsumerOk, History;
    if s.mirrored < |s.log| {
      UnmirroredIsPending(c, s);
      assert false;
    }
  }

  // The consumer is never wedged: once no producer is inside publish, what head_mirror announces is
  // committed, so the TotalSize it waits for is not zero.
  lemma NeverWedged(c: Config, run: seq<State>, i: nat)
    requires ConfigOk(c) && IsRun(c, run) && i < |run| && Trusted(c, run, i)
    requires AllIdle(run[i]) && run[i].consumer.Pending?
    ensures Off(c, run[i].ctail) + 4 <= |run[i].mem| && Total(run[i].mem, Off(c, run[i].ctail)) > 0
  {
    hide IsRun, Inv, Shape, Off, Total;
    var s := run[i];
    TrustedInv(c, run, i);
    Looking(c, s);
    AtTail(c, s);
    AllMirrored(c, s);
  }

  // A frame is dropped at the tail load exactly when the budget does not cover the frame and its pad, or
  // the tail has passed the head this producer loaded before (short of a whole 64-bit lap ahead).
  lemma DropsExactlyWhen(c: Config, s: State, p: nat, s': State)
    requires ConfigOk(c) && Inv(c, s) && p < |s.producers| && LoadTail(c, s, p, s')
    ensures var HeadLoaded(f, prio, h) := s.producers[p];
      s'.dropped == s.dropped + if Drops(c, prio, h, s.tail, |f|) then 1 else 0
  {
    hide LogOk, Cells, Each, Exclusive, Attended, ConsumerOk, History, Reserve, Drops, Start;
    EachAt(c, s, p);
    HeadPlace(c, s);
    var HeadLoaded(f, prio, h) := s.producers[p];
    ReserveDropsWhen(c, prio, h, s.tail, |f|);
  }

  // More than the budget: seven eighths of the ring for telemetry, all of it for enforcement.
  ghost predicate Over(size: nat, prio: Priority, bytes: int) {
    if prio == Telemetry then 8 * bytes > 7 * size else bytes > size
  }

  ghost predicate Drops(c: Config, prio: Priority, head: nat, tail: nat, len: nat)
    requires c.size > 0
  {
    var left := c.size - head % c.size;
    var need := if len <= left then len else left + len;
    if tail <= head then Over(c.size, prio, head - tail + need)
    else var used := head + 0x1_0000_0000_0000_0000 - tail; used > c.size || Over(c.size, prio, used + need)
  }

  lemma ReserveDropsWhen(c: Config, prio: Priority, head: nat, tail: nat, len: nat)
    requires 0 < len && 0 < c.size && head < WORD64 && tail < WORD64
    ensures Reserve(head, tail, c.size, prio, len) == Dropped <==> Drops(c, prio, head, tail, len)
  {
  }
}

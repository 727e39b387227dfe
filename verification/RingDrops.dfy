/** A frame dropped from an empty ring without tampering: the head a producer loaded can be older than the
    tail it loads next, and the wrapped difference reads as "more than full". */
module RingDrops {
  import opened LittleEndian
  import opened RingLayout
  import opened RingSteps
  import opened RingSafety
  import opened RingReach

  // Eight bytes of data, eight-byte frames, two producers.
  const C := Config(8, {8})
  const F: seq<Byte> := [8, 0, 0, 0, 1, 0, 0, 0]
  const BLANK: seq<Byte> := [0, 0, 0, 0, 0, 0, 0, 0]
  const BODY: seq<Byte> := [0, 0, 0, 0, 1, 0, 0, 0]

  ghost function Empty(first: Producer, second: Producer): State {
    State(BLANK, 0, 0, 0, 0, [first, second], Polling, 0, [], 0, 0, [], multiset{})
  }

  ghost function Filling(mirror: nat, written: nat): State {
    State(if written == 0 then BLANK else BODY, 8, mirror, 0, 0,
          [HeadLoaded(F, Enforce, 0), if mirror == 0 then Mirroring(0, false) else Copying(0)], Polling, 0,
          [Entry(0, 8, false, F, written, false)], if mirror == 0 then 0 else 1, 0, [], multiset{})
  }

  ghost function Published(consumer: Consumer): State {
    State(F, 8, 8, 0, 0, [HeadLoaded(F, Enforce, 0), Idle], consumer, 0, [Entry(0, 8, false, F, 4, true)], 1, 0,
        [], multiset{F})
  }

  ghost function Consumed(tail: nat, consumer: Consumer): State {
    State(BODY, 8, 8, tail, 0, [HeadLoaded(F, Enforce, 0), Idle], consumer, 8, [Entry(0, 8, false, F, 4, true)], 1,
        1, [F], multiset{F})
  }

  lemma Bytes()
    ensures FrameOk(C, F) && SetTotal(BODY, 0, 8) == F && Total(F, 0) == 8 && SetTotal(F, 0, 0) == BODY
    ensures Off(C, 0) == 0
  {
    FirstWords();
    hide Le, Word, Range;
    assert F[0..4] == F[..4] == Le(8, 4);
    assert F[4..6][0] == 1;
  }

  lemma FirstWords()
    ensures Range(4) == 0x1_0000_0000
    ensures Le(8, 4) == [8, 0, 0, 0] && Le(0, 4) == [0, 0, 0, 0] && Word(Le(8, 4)) == 8
  {
    Ranges();
    hide Range;
    WordOfLe(8, 4);
    assert Le(0, 3) == [0, 0, 0];
  }

  lemma Moves(s: State, p: nat, s': State)
    requires Reachable(C, s) && p < |s.producers| && ProducerStep(C, s, p, s') && |s'.log| == |s.log|
    ensures Reachable(C, s')
  {
    hide ProducerStep, Reachable;
    LogTells(s, s');
    hide CasWins;
    assert Next(C, s, s');
    Goes(C, s, s');
  }

  // A reservation lengthens the log.
  lemma LogTells(s: State, s': State)
    requires |s'.log| == |s.log|
    ensures forall q: nat | q < |s.producers| :: !CasWins(C, s, q, s')
  {
    hide Reserve;
  }

  lemma Consumes(s: State, s': State)
    requires Reachable(C, s) && ConsumerStep(C, s, s')
    ensures Reachable(C, s')
  {
    hide ConsumerStep, Reachable;
    ConsumerGoes(C, s, s');
  }

  // Both producers load the head; the second goes on.
  lemma FirstLoads()
    ensures Reachable(C, Empty(HeadLoaded(F, Enforce, 0), Idle))
  {
    Bytes();
    hide FrameOk, Reachable;
    var s0, s1, s2 := Empty(Idle, Idle), Empty(Started(F, Enforce), Idle), Empty(HeadLoaded(F, Enforce, 0), Idle);
    StartReachable(C, s0);
    assert Begin(C, s0, 0, s1);
    Moves(s0, 0, s1);
    assert LoadHead(s1, 0, s2);
    Moves(s1, 0, s2);
  }

  lemma BothBegin()
    ensures Reachable(C, Empty(HeadLoaded(F, Enforce, 0), Reserving(F, Enforce, 0, 0)))
  {
    Bytes();
    FirstLoads();
    hide FrameOk, Reachable;
    var s2 := Empty(HeadLoaded(F, Enforce, 0), Idle);
    var s3 := Empty(HeadLoaded(F, Enforce, 0), Started(F, Enforce));
    var s4 := Empty(HeadLoaded(F, Enforce, 0), HeadLoaded(F, Enforce, 0));
    assert Begin(C, s2, 1, s3);
    Moves(s2, 1, s3);
    assert LoadHead(s3, 1, s4);
    Moves(s3, 1, s4);
    assert LoadTail(C, s4, 1, Empty(HeadLoaded(F, Enforce, 0), Reserving(F, Enforce, 0, 0)));
    Moves(s4, 1, Empty(HeadLoaded(F, Enforce, 0), Reserving(F, Enforce, 0, 0)));
  }

  lemma SecondPublishes()
    ensures Reachable(C, Published(Polling))
  {
    Bytes();
    BothBegin();
    hide FrameOk, Reachable, Total, SetTotal;
    var s := Empty(HeadLoaded(F, Enforce, 0), Reserving(F, Enforce, 0, 0));
    SecondReserves(s);
    assert RaiseMirror(Filling(0, 0), 1, Filling(8, 0));
    Moves(Filling(0, 0), 1, Filling(8, 0));
    Copies(0);
    Copies(1);
    Copies(2);
    Copies(3);
    assert Commit(C, Filling(8, 4), 1, Published(Polling));
    Moves(Filling(8, 4), 1, Published(Polling));
  }

  lemma SecondReserves(s: State)
    requires s == Empty(HeadLoaded(F, Enforce, 0), Reserving(F, Enforce, 0, 0)) && Reachable(C, s)
    ensures Reachable(C, Filling(0, 0))
  {
    Bytes();
    hide Reachable, FrameOk, SetTotal, Total;
    FirstReservation();
    assert CasWins(C, s, 1, Filling(0, 0));
    assert !CasWins(C, s, 0, Filling(0, 0));
    StartsBlank(s);
    assert ProducerStep(C, s, 1, Filling(0, 0));
    hide ProducerStep, CasWins, CleanReservation;
    assert Next(C, s, Filling(0, 0));
    Goes(C, s, Filling(0, 0));
  }

  lemma FirstReservation()
    ensures Reserve(0, 0, 8, Enforce, |F|) == Reserved(0, 0, 8)
    ensures Entries(0, 0, F) == [Entry(0, 8, false, F, 0, false)]
  {
  }

  lemma StartsBlank(s: State)
    requires s == Empty(HeadLoaded(F, Enforce, 0), Reserving(F, Enforce, 0, 0))
    ensures CleanReservation(C, s, 1)
  {
    FirstReservation();
    hide Reserve, Entries;
    ZeroWord(BLANK[0..4]);
  }

  lemma Copies(n: nat)
    requires n < 4 && Reachable(C, Filling(8, n))
    ensures Reachable(C, Filling(8, n + 1))
  {
    hide Reachable;
    assert CopyByte(C, Filling(8, n), 1, Filling(8, n + 1));
    Moves(Filling(8, n), 1, Filling(8, n + 1));
  }

  lemma Reads(n: nat)
    requires n < 8 && Reachable(C, Published(Reading(8, F[..n])))
    ensures Reachable(C, Published(Reading(8, F[..n + 1])))
  {
    hide Reachable, Total, SetTotal;
    Bytes();
    var s, s' := Published(Reading(8, F[..n])), Published(Reading(8, F[..n + 1]));
    assert F[..n + 1] == F[..n] + [F[n]];
    assert ReadByte(C, s, s');
    Consumes(s, s');
  }

  lemma ConsumerFinds()
    ensures Reachable(C, Published(Reading(8, F[..0])))
  {
    Bytes();
    SecondPublishes();
    hide Reachable, Total, SetTotal;
    assert LoadMirror(Published(Polling), Published(Pending));
    Consumes(Published(Polling), Published(Pending));
    assert LoadTotal(C, Published(Pending), Published(Seen(8)));
    Consumes(Published(Pending), Published(Seen(8)));
    assert LoadVersion(C, Published(Seen(8)), Published(Reading(8, F[..0])));
    Consumes(Published(Seen(8)), Published(Reading(8, F[..0])));
  }

  lemma ConsumerReadsAll()
    ensures Reachable(C, Published(Reading(8, F)))
  {
    ConsumerFinds();
    hide Reachable;
    Reads(0);
    Reads(1);
    Reads(2);
    Reads(3);
    Reads(4);
    Reads(5);
    Reads(6);
    Reads(7);
    assert F[..8] == F;
  }

  lemma ConsumerCatchesUp()
    ensures Reachable(C, Consumed(8, Polling))
  {
    Bytes();
    ConsumerReadsAll();
    hide Reachable, Total, SetTotal;
    assert Release(C, Published(Reading(8, F)), Consumed(0, Releasing));
    Consumes(Published(Reading(8, F)), Consumed(0, Releasing));
    assert PublishTail(Consumed(0, Releasing), Consumed(8, Polling));
    Consumes(Consumed(0, Releasing), Consumed(8, Polling));
  }

  ghost predicate DropsFromEmpty(c: Config, s: State, s': State)
    requires c.size > 0
  {
    && s.head == s.mirror == s.tail
    && s'.dropped > s.dropped
    && exists p: nat :: p < |s.producers| && LoadTail(c, s, p, s') && s.producers[p].prio == Enforce
  }

  // The ring is empty, every party followed the protocol, and a frame that fits is dropped.
  lemma EmptyRingDrops()
    ensures exists c: Config, s: State, s': State :: ConfigOk(c) && Reachable(c, s) && DropsFromEmpty(c, s, s')
  {
    ConsumerCatchesUp();
    Ranges();
    hide Reachable;
    var s := Consumed(8, Polling);
    var s' := s.(producers := s.producers[0 := Idle], dropped := 1);
    assert LoadTail(C, s, 0, s');
    assert DropsFromEmpty(C, s, s');
  }
}

/** The lock-free protocol as a step system: any number of producers and one consumer, interleaved at the
    level of single loads, stores and byte copies. */
module RingSteps {
  import opened LittleEndian
  import opened RingLayout

  // `size` bytes of data; a frame may have any of the `lengths`.
  datatype Config = Config(size: nat, lengths: set<nat>)

  ghost predicate ConfigOk(c: Config) {
    && FRAME_HEADER <= c.size < Range(4) && c.size % 8 == 0
    && forall n | n in c.lengths :: FRAME_HEADER <= n <= c.size && n % 8 == 0
  }

  // A frame as it is handed to publish: own TotalSize in place, Version not the pad's.
  ghost predicate FrameOk(c: Config, f: seq<Byte>) {
    |f| in c.lengths && FRAME_HEADER <= |f| < Range(4) && f[..4] == Le(|f|, 4) && f[4..6] != [0, 0]
  }

  // One reserved range. `written` counts the body bytes (for a pad, the Version field) stored so far.
  datatype Entry = Entry(pos: nat, len: nat, pad: bool, bytes: seq<Byte>, written: nat, committed: bool)

  datatype Producer =
    | Idle
    | Started(f: seq<Byte>, prio: Priority)
    | HeadLoaded(f: seq<Byte>, prio: Priority, h: nat)
    | Reserving(f: seq<Byte>, prio: Priority, h: nat, t: nat)  // tail loaded, about to CAS
    | Mirroring(idx: nat, hasPad: bool)                        // reserved, about to raise head_mirror
    | PadVersion(idx: nat)                                     // about to write the pad's Version
    | PadCommit(idx: nat)                                      // about to store the pad's TotalSize
    | Copying(idx: nat)                                        // copying the body, then committing

  datatype Consumer =
    | Polling
    | Pending                              // head_mirror was ahead of tail
    | Seen(total: nat)                     // a non-zero TotalSize was loaded
    | Skipping(total: nat)                 // it is a pad
    | Reading(total: nat, buf: seq<Byte>)  // a frame, copied out so far
    | Releasing                            // TotalSize zeroed, about to publish tail

  /** The shared memory and the two cursors, each thread's program counter, and the history: `log` lists
      the reservations, `mirrored` and `consumed` count how many head_mirror covers and the consumer has
      released, `out` holds the frames handed out, `done` those whose publish has returned true. */
  datatype State = State(mem: seq<Byte>, head: nat, mirror: nat, tail: nat, dropped: nat,
                         producers: seq<Producer>, consumer: Consumer, ctail: nat,
                         log: seq<Entry>, mirrored: nat, consumed: nat,
                         out: seq<seq<Byte>>, done: multiset<seq<Byte>>)

  ghost predicate Init(c: Config, s: State) {
    && |s.mem| == c.size && (forall i | 0 <= i < |s.mem| :: s.mem[i] == 0)
    && s.head == s.mirror == s.tail == s.ctail == s.dropped == s.mirrored == s.consumed == 0
    && (forall p | 0 <= p < |s.producers| :: s.producers[p] == Idle)
    && s.consumer == Polling && s.log == [] && s.out == [] && s.done == multiset{}
  }

  function Off(c: Config, pos: nat): nat
    requires c.size > 0
  {
    pos % c.size
  }

  // ----- producer steps -----

  ghost predicate Begin(c: Config, s: State, p: nat, s': State)
    requires p < |s.producers|
  {
    && s.producers[p].Idle?
    && exists f, prio :: FrameOk(c, f) && s' == s.(producers := s.producers[p := Started(f, prio)])
  }

  ghost predicate LoadHead(s: State, p: nat, s': State)
    requires p < |s.producers|
  {
    && s.producers[p].Started?
    && s' == s.(producers := s.producers[p := HeadLoaded(s.producers[p].f, s.producers[p].prio, s.head)])
  }

  // Loads tail and decides: drop, or go on to the CAS.
  ghost predicate LoadTail(c: Config, s: State, p: nat, s': State)
    requires p < |s.producers| && c.size > 0
  {
    && s.producers[p].HeadLoaded?
    && var HeadLoaded(f, prio, h) := s.producers[p];
       h < WORD64 && s.tail < WORD64
       && s' == if Reserve(h, s.tail, c.size, prio, |f|) == Dropped
                then s.(producers := s.producers[p := Idle], dropped := s.dropped + 1)
                else s.(producers := s.producers[p := Reserving(f, prio, h, s.tail)])
  }

  // The CAS lost the race, or failed spuriously: start over.
  ghost predicate CasFails(s: State, p: nat, s': State)
    requires p < |s.producers|
  {
    && s.producers[p].Reserving?
    && s' == s.(producers := s.producers[p := Started(s.producers[p].f, s.producers[p].prio)])
  }

  // What one reservation adds to the log: the frame, behind a pad when it would not fit before the end.
  ghost function Entries(head: nat, pad: nat, f: seq<Byte>): seq<Entry> {
    (if pad > 0 then [Entry(head, pad, true, [], 0, false)] else []) + [Entry(head + pad, |f|, false, f, 0, false)]
  }

  ghost predicate CasWins(c: Config, s: State, p: nat, s': State)
    requires p < |s.producers| && c.size > 0
  {
    && s.producers[p].Reserving? && s.producers[p].h == s.head
    && var Reserving(f, prio, h, t) := s.producers[p];
       h < WORD64 && t < WORD64
       && var r := Reserve(h, t, c.size, prio, |f|);
          r.Reserved? && r.newHead < WORD64
          && var log := s.log + Entries(h, r.pad, f);
             s' == s.(head := r.newHead, log := log, producers := s.producers[p := Mirroring(|log| - 1, r.pad > 0)])
  }

  ghost predicate RaiseMirror(s: State, p: nat, s': State)
    requires p < |s.producers|
  {
    && s.producers[p].Mirroring? && s.producers[p].idx < |s.log|
    && var Mirroring(idx, hasPad) := s.producers[p];
       s' == s.(mirror := FetchMax(s.mirror, s.log[idx].pos + s.log[idx].len),
                mirrored := FetchMax(s.mirrored, idx + 1),
                producers := s.producers[p := if hasPad then PadVersion(idx) else Copying(idx)])
  }

  ghost predicate WritePadVersion(c: Config, s: State, p: nat, s': State)
    requires p < |s.producers| && c.size > 0
  {
    && s.producers[p].PadVersion? && 0 < s.producers[p].idx < |s.log|
    && var idx := s.producers[p].idx;
       var e, off := s.log[idx - 1], Off(c, s.log[idx - 1].pos);
       off + FRAME_HEADER <= |s.mem|
       && s' == s.(mem := Put(s.mem, off + 4, [0, 0, 0, 0]), log := s.log[idx - 1 := e.(written := 1)],
                   producers := s.producers[p := PadCommit(idx)])
  }

  ghost predicate CommitPad(c: Config, s: State, p: nat, s': State)
    requires p < |s.producers| && c.size > 0
  {
    && s.producers[p].PadCommit? && 0 < s.producers[p].idx < |s.log|
    && var idx := s.producers[p].idx;
       var e, off := s.log[idx - 1], Off(c, s.log[idx - 1].pos);
       off + 4 <= |s.mem| && e.len < Range(4)
       && s' == s.(mem := SetTotal(s.mem, off, e.len), log := s.log[idx - 1 := e.(committed := true)],
                   producers := s.producers[p := Copying(idx)])
  }

  // One body byte; the first four bytes of the frame are left to the commit.
  ghost predicate CopyByte(c: Config, s: State, p: nat, s': State)
    requires p < |s.producers| && c.size > 0
  {
    && s.producers[p].Copying? && s.producers[p].idx < |s.log|
    && var e := s.log[s.producers[p].idx];
       var at := Off(c, e.pos) + 4 + e.written;
       4 + e.written < |e.bytes| && at < |s.mem|
       && s' == s.(mem := Put(s.mem, at, [e.bytes[4 + e.written]]),
                   log := s.log[s.producers[p].idx := e.(written := e.written + 1)])
  }

  // The release store of TotalSize; publish returns true.
  ghost predicate Commit(c: Config, s: State, p: nat, s': State)
    requires p < |s.producers| && c.size > 0
  {
    && s.producers[p].Copying? && s.producers[p].idx < |s.log|
    && var e := s.log[s.producers[p].idx];
       var off := Off(c, e.pos);
       4 + e.written == |e.bytes| && off + 4 <= |s.mem| && e.len < Range(4)
       && s' == s.(mem := SetTotal(s.mem, off, e.len), log := s.log[s.producers[p].idx := e.(committed := true)],
                   producers := s.producers[p := Idle], done := s.done + multiset{e.bytes})
  }

  ghost predicate ProducerStep(c: Config, s: State, p: nat, s': State)
    requires p < |s.producers| && c.size > 0
  {
    || Begin(c, s, p, s') || LoadHead(s, p, s') || LoadTail(c, s, p, s') || CasFails(s, p, s') || CasWins(c, s, p, s')
    || RaiseMirror(s, p, s') || WritePadVersion(c, s, p, s') || CommitPad(c, s, p, s') || CopyByte(c, s, p, s')
    || Commit(c, s, p, s')
  }

  // ----- consumer steps -----

  ghost predicate LoadMirror(s: State, s': State) {
    s.consumer.Polling? && s' == s.(consumer := if s.mirror == s.ctail then Polling else Pending)
  }

  ghost predicate LoadTotal(c: Config, s: State, s': State)
    requires c.size > 0
  {
    && s.consumer.Pending? && Off(c, s.ctail) + 4 <= |s.mem|
    && var total := Total(s.mem, Off(c, s.ctail));
       s' == s.(consumer := if total == 0 then Polling else Seen(total))
  }

  ghost predicate LoadVersion(c: Config, s: State, s': State)
    requires c.size > 0
  {
    && s.consumer.Seen? && Off(c, s.ctail) + 6 <= |s.mem|
    && var off := Off(c, s.ctail);
       s' == s.(consumer := if s.mem[off + 4..off + 6] == [0, 0] then Skipping(s.consumer.total)
                            else Reading(s.consumer.total, []))
  }

  ghost predicate ReadByte(c: Config, s: State, s': State)
    requires c.size > 0
  {
    && s.consumer.Reading? && |s.consumer.buf| < s.consumer.total && Off(c, s.ctail) + |s.consumer.buf| < |s.mem|
    && s' == s.(consumer := Reading(s.consumer.total, s.consumer.buf + [s.mem[Off(c, s.ctail) + |s.consumer.buf|]]))
  }

  // Zeroes TotalSize before tail moves; a frame read in full is handed out.
  ghost predicate Release(c: Config, s: State, s': State)
    requires c.size > 0
  {
    && (s.consumer.Skipping? || (s.consumer.Reading? && |s.consumer.buf| == s.consumer.total))
    && Off(c, s.ctail) + 4 <= |s.mem| && 0 < Range(4)
    && s' == s.(mem := SetTotal(s.mem, Off(c, s.ctail), 0), ctail := s.ctail + s.consumer.total,
                consumed := s.consumed + 1, consumer := Releasing,
                out := if s.consumer.Reading? then s.out + [s.consumer.buf] else s.out)
  }

  ghost predicate PublishTail(s: State, s': State) {
    s.consumer.Releasing? && s' == s.(tail := s.ctail, consumer := Polling)
  }

  ghost predicate ConsumerStep(c: Config, s: State, s': State)
    requires c.size > 0
  {
    || LoadMirror(s, s') || LoadTotal(c, s, s') || LoadVersion(c, s, s') || ReadByte(c, s, s')
    || Release(c, s, s') || PublishTail(s, s')
  }

  ghost predicate Next(c: Config, s: State, s': State)
    requires c.size > 0
  {
    ConsumerStep(c, s, s') || exists p: nat | p < |s.producers| :: ProducerStep(c, s, p, s')
  }

  // Any interleaving from an empty ring.
  ghost predicate IsRun(c: Config, run: seq<State>) {
    && c.size > 0 && |run| > 0 && Init(c, run[0])
    && forall i | 0 <= i < |run| - 1 :: Next(c, run[i], run[i + 1])
  }
}

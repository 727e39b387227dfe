/** The ring with publish and consume as single steps: a bounded FIFO queue of frames of any lengths,
    across wraps and the pads they leave. */
module RingBuffer {
  import opened LittleEndian
  import opened Modular
  import opened RingLayout

  const RECORD_HEADER := 32
  const REQ_ID := 20

  datatype Entry = Frame(bytes: seq<Byte>) | Pad(size: nat) {
    function Len(): nat {
      match this
      case Frame(bytes) => |bytes|
      case Pad(size) => size
    }
  }

  ghost function Held(q: seq<Entry>): nat {
    if q == [] then 0 else q[0].Len() + Held(q[1..])
  }

  ghost function Frames(q: seq<Entry>): seq<seq<Byte>> {
    if q == [] then []
    else (if q[0].Frame? then [q[0].bytes] else []) + Frames(q[1..])
  }

  // What a sender must hand in: 8-aligned, its own TotalSize and a Version other than the pad's in place.
  ghost predicate WellFormed(frame: seq<Byte>) {
    && |frame| % 8 == 0 && |frame| < Range(4)
    && (|frame| >= FRAME_HEADER ==> frame[..4] == Le(|frame|, 4) && frame[4..6] != [0, 0])
  }

  // Entry `e` lies committed at offset `off`, in one piece.
  ghost predicate EntryAt(mem: seq<Byte>, off: nat, e: Entry) {
    && FRAME_HEADER <= e.Len() && e.Len() % 8 == 0 && off + e.Len() <= |mem| < Range(4)
    && Total(mem, off) == e.Len()
    && match e
       case Frame(bytes) => mem[off..off + |bytes|] == bytes && bytes[4..6] != [0, 0]
       case Pad(size) => mem[off + 4..off + 6] == [0, 0]
  }

  // The entries of `q` lie back to back from position `pos` on.
  ghost predicate Layout(mem: seq<Byte>, pos: nat, q: seq<Entry>)
    requires |mem| > 0
    decreases |q|
  {
    q == [] || (EntryAt(mem, pos % |mem|, q[0]) && Layout(mem, pos + q[0].Len(), q[1..]))
  }

  lemma EntryUnaffected(mem: seq<Byte>, mem': seq<Byte>, off: nat, e: Entry)
    requires |mem| == |mem'| && EntryAt(mem, off, e)
    requires forall j | off <= j < off + e.Len() :: mem'[j] == mem[j]
    ensures EntryAt(mem', off, e)
  {
    assert mem'[off..off + 4] == mem[off..off + 4] && mem'[off + 4..off + 6] == mem[off + 4..off + 6];
    if e.Frame? {
      assert mem'[off..off + |e.bytes|] == mem[off..off + |e.bytes|];
    }
  }

  lemma {:induction false} LayoutUnaffected(mem: seq<Byte>, mem': seq<Byte>, pos: nat, q: seq<Entry>)
    requires |mem| == |mem'| > 0 && Layout(mem, pos, q)
    requires forall p | pos <= p < pos + Held(q) :: mem'[p % |mem|] == mem[p % |mem|]
    ensures Layout(mem', pos, q)
    decreases |q|
  {
    if q != [] {
      var off, len := pos % |mem|, q[0].Len();
      forall j | off <= j < off + len
        ensures mem'[j] == mem[j]
      {
        ModInside(pos, j - off, |mem|);
        assert mem'[(pos + (j - off)) % |mem|] == mem[(pos + (j - off)) % |mem|];
      }
      EntryUnaffected(mem, mem', off, q[0]);
      LayoutUnaffected(mem, mem', pos + len, q[1..]);
    }
  }

  lemma {:induction false} LayoutAppend(mem: seq<Byte>, pos: nat, q: seq<Entry>, e: Entry)
    requires |mem| > 0 && Layout(mem, pos, q) && EntryAt(mem, (pos + Held(q)) % |mem|, e)
    ensures Layout(mem, pos, q + [e]) && Held(q + [e]) == Held(q) + e.Len()
    ensures Frames(q + [e]) == Frames(q) + if e.Frame? then [e.bytes] else []
    decreases |q|
  {
    if q != [] {
      LayoutAppend(mem, pos + q[0].Len(), q[1..], e);
      assert (q + [e])[1..] == q[1..] + [e];
    } else {
      assert (q + [e])[1..] == [];
    }
  }

  // A write into the free part of the ring leaves the queued entries where they are.
  lemma FreeWrite(mem: seq<Byte>, mem': seq<Byte>, tail: nat, q: seq<Entry>, start: nat, n: nat)
    requires |mem| == |mem'| > 0 && Layout(mem, tail, q)
    requires tail + Held(q) <= start && start + n <= tail + |mem| && start % |mem| + n <= |mem|
    requires forall j | 0 <= j < |mem| && (j < start % |mem| || start % |mem| + n <= j) :: mem'[j] == mem[j]
    ensures Layout(mem', tail, q)
  {
    forall p | tail <= p < tail + Held(q)
      ensures mem'[p % |mem|] == mem[p % |mem|]
    {
      var k := p % |mem| - start % |mem|;
      if 0 <= k < n {
        ModInside(start, k, |mem|);
        LapDistinct(p, start + k, |mem|);
        assert false;
      }
    }
    LayoutUnaffected(mem, mem', tail, q);
  }

  lemma AlignedRemainder(pos: nat, size: nat)
    requires size > 0 && pos % 8 == 0 && size % 8 == 0
    ensures (size - pos % size) % 8 == 0 && size - pos % size >= 8
  {
    var a, b := pos / size, size / 8;
    assert pos % size == pos - a * size;
    assert a * size == 8 * (a * b);
    ModUnique(pos % size, pos / 8 - a * b, 0, 8);
    ModUnique(size - pos % size, b - (pos / 8 - a * b), 0, 8);
  }

  // Bytes a frame of `len` skips at the end of the data region.
  function PadBefore(head: nat, size: nat, len: nat): nat
    requires size > 0
  {
    if size - head % size < len then size - head % size else 0
  }

  // With a true tail, a reservation succeeds exactly when pad and frame fit the budget.
  lemma ReserveTrue(head: nat, tail: nat, size: nat, prio: Priority, len: nat)
    requires 0 < size < WORD64 && tail <= head <= tail + size && head < WORD64 && len > 0
    ensures var pad := PadBefore(head, size, len);
      Reserve(head, tail, size, prio, len) ==
      if head - tail + pad + len <= Budget(size, prio) then
        Reserved(if pad > 0 then 0 else head % size, pad, head + pad + len)
      else Dropped
    ensures PadBefore(head, size, len) == 0 ==> head % size + len <= size
    ensures PadBefore(head, size, len) > 0 ==> head % size + PadBefore(head, size, len) == size
  {
  }

  // Telemetry fills at most seven eighths, enforcement everything.
  lemma BudgetIs(size: nat, prio: Priority, bytes: nat)
    ensures bytes <= Budget(size, prio) <==> if prio == Telemetry then 8 * bytes <= 7 * size else bytes <= size
  {
  }

  lemma EntryRead(mem: seq<Byte>, off: nat, e: Entry)
    requires EntryAt(mem, off, e)
    ensures 0 < e.Len() && off + e.Len() <= |mem| && off + FRAME_HEADER <= |mem|
    ensures Total(mem, off) == e.Len()
    ensures e.Pad? <==> mem[off + 4..off + 6] == [0, 0]
    ensures e.Frame? ==> mem[off..off + e.Len()] == e.bytes
  {
    hide Word;
    if e.Frame? {
      SliceOfSlice(mem, off, e.Len());
    }
  }

  lemma SliceOfSlice(mem: seq<Byte>, off: nat, n: nat)
    requires off + n <= |mem| && n >= 6
    ensures mem[off..off + n][4..6] == mem[off + 4..off + 6]
  {
    var s := mem[off..off + n];
    assert s[4..6] == [s[4], s[5]];
    assert mem[off + 4..off + 6] == [mem[off + 4], mem[off + 5]];
  }

  // What the consumer reads at the front of a queue that is not empty.
  lemma FirstEntry(mem: seq<Byte>, tail: nat, q: seq<Entry>)
    requires |mem| > 0 && q != [] && Layout(mem, tail, q)
    ensures var off := tail % |mem|;
      && 0 < q[0].Len() <= Held(q) && off + q[0].Len() <= |mem| && off + FRAME_HEADER <= |mem|
      && Total(mem, off) == q[0].Len()
      && (q[0].Pad? <==> mem[off + 4..off + 6] == [0, 0])
      && (q[0].Frame? ==> mem[off..off + q[0].Len()] == q[0].bytes)
  {
    hide EntryAt;
    EntryRead(mem, tail % |mem|, q[0]);
  }

  lemma HeldFirst(q: seq<Entry>)
    requires q != []
    ensures Held(q) == q[0].Len() + Held(q[1..])
    ensures Frames(q) == if q[0].Frame? then [q[0].bytes] + Frames(q[1..]) else Frames(q[1..])
  {
  }

  lemma HeldNone()
    ensures Held([]) == 0
  {
  }

  lemma AlignedSum(a: nat, b: nat, c: nat)
    requires a % 8 == 0 && b % 8 == 0 && c % 8 == 0
    ensures (a + b + c) % 8 == 0
  {
  }

  // Zeroing the first entry's TotalSize touches no byte of the others.
  lemma ReleaseKeepsRest(mem: seq<Byte>, tail: nat, q: seq<Entry>)
    requires |mem| > 0 && Layout(mem, tail, q) && q != [] && Held(q) <= |mem|
    ensures tail % |mem| + 4 <= |mem| && 0 < Range(4)
    ensures Layout(SetTotal(mem, tail % |mem|, 0), tail + q[0].Len(), q[1..])
    ensures Held(q) == q[0].Len() + Held(q[1..])
  {
    hide Word;
    var off, mem', first, n := tail % |mem|, SetTotal(mem, tail % |mem|, 0), tail + q[0].Len(), |mem|;
    forall p | first <= p < first + Held(q[1..])
      ensures mem'[p % n] == mem[p % n]
    {
      var k := p % n - off;
      if 0 <= k < 4 {
        ModInside(tail, k, n);
        LapDistinct(tail + k, p, n);
        assert false;
      }
    }
    hide Layout, Held, EntryAt, SetTotal;
    LayoutUnaffected(mem, mem', first, q[1..]);
  }

  // The request number of a frame's first record, or zero for a frame too short to hold one.
  function RequestOf(payload: seq<Byte>): nat {
    if |payload| < FRAME_HEADER + RECORD_HEADER then 0
    else Word(payload[FRAME_HEADER + REQ_ID..FRAME_HEADER + REQ_ID + 4])
  }

  // Four bytes as a number, the first one lowest.
  ghost function FourBytes(s: seq<Byte>, at: nat): nat
    requires at + 4 <= |s|
  {
    (s[at] as int) + 256 * (s[at + 1] as int) + 65536 * (s[at + 2] as int) + 16777216 * (s[at + 3] as int)
  }

  lemma RequestIs(payload: seq<Byte>)
    ensures RequestOf(payload) ==
      if |payload| < 40 then 0 else FourBytes(payload, 28)
  {
    if |payload| >= 40 {
      WordOfFour(payload[28..32]);
    }
  }

  lemma WordOfFour(s: seq<Byte>)
    requires |s| == 4
    ensures Word(s) == FourBytes(s, 0)
  {
    assert s[2..][1..] == s[3..] && s[1..][1..] == s[2..];
    assert Word(s[3..]) == s[3] as int + 256 * Word(s[4..]);
    assert Word(s[2..]) == s[2] as int + 256 * Word(s[3..]);
    assert Word(s[1..]) == s[1] as int + 256 * Word(s[2..]);
  }

  // ----- a frame that asks for a verdict -----

  // One record behind a frame header: total size, version 2, count 1 with the reply bit set.
  function OneRecord(record: seq<Byte>): seq<Byte>
    requires 8 + |record| < Range(4)
  {
    Le(8 + |record|, 4) + [2, 0] + [1, 0x80] + record
  }

  // The record framed, the request number written over bytes 28 to 31.
  function EnforceFrame(record: seq<Byte>, id: nat): (f: seq<Byte>)
    requires 32 <= |record| && 8 + |record| < Range(4) && id < Range(4)
    ensures |f| == 8 + |record|
  {
    var f := OneRecord(record);
    f[..28] + Le(id, 4) + f[32..]
  }

  lemma EnforceFrameFacts(record: seq<Byte>, id: nat)
    requires 32 <= |record| && |record| % 8 == 0 && 8 + |record| < Range(4) && id < Range(4)
    ensures var f := EnforceFrame(record, id);
      WellFormed(f) && |f| >= 40 && FourBytes(f, 28) == id
  {
    hide Le, Range, Word;
    var f, one := EnforceFrame(record, id), OneRecord(record);
    assert one[..4] == Le(8 + |record|, 4) && one[4] == 2;
    assert f[..28] == one[..28];
    assert f[28..32] == Le(id, 4) && f[..4] == one[..4] && f[4..6][0] == 2;
    WordOfLe(id, 4);
    WordOfFour(f[28..32]);
  }

  datatype Next = Got(off: nat, len: nat) | NoData | Uncommitted

  class Ring {
    const size: nat
    const data: array<Byte>
    var head: nat        // driver-private
    var headMirror: nat
    var tail: nat
    var dropped: nat
    var lastReqId: nat   // the service's own note
    ghost var queue: seq<Entry>

    // The queued entries lie in the data region, from `tail` on.
    ghost predicate Queued()
      reads this, data
    {
      && data.Length == size && FRAME_HEADER <= size < Range(4) && size % 8 == 0
      && Held(queue) <= size && Layout(data[..], tail, queue)
    }

    // The cursors are a queue's length apart.
    ghost predicate Valid()
      reads this, data
    {
      Queued() && head % 8 == 0 && headMirror == head == tail + Held(queue) && head < WORD64
    }

    constructor (size: nat)
      requires FRAME_HEADER <= size < Range(4) && size % 8 == 0
      ensures Valid() && this.size == size && queue == [] && fresh(data)
    {
      this.size := size;
      data := new Byte[size](_ => 0);
      head, headMirror, tail, dropped, lastReqId, queue := 0, 0, 0, 0, 0, [];
    }

    method StoreTotal(off: nat, v: nat)
      requires off + 4 <= data.Length && v < Range(4)
      modifies data
      ensures data[..] == SetTotal(old(data[..]), off, v)
    {
      CopyIn(off, Le(v, 4));
    }

    method CopyIn(off: nat, s: seq<Byte>)
      requires off + |s| <= data.Length
      modifies data
      ensures data[..] == Put(old(data[..]), off, s)
    {
      for i := 0 to |s|
        invariant forall j | 0 <= j < data.Length :: data[j] == if off <= j < off + i then s[j - off] else old(data[j])
      {
        data[off + i] := s[i];
      }
    }

    // Fills `[off, off + len)` with a frame the consumer skips.
    method WritePad(off: nat, len: nat)
      requires FRAME_HEADER <= len && off + len <= data.Length < Range(4) && len % 8 == 0
      modifies data
      ensures EntryAt(data[..], off, Pad(len))
      ensures forall j | 0 <= j < data.Length && (j < off || off + len <= j) :: data[j] == old(data[j])
    {
      hide Range, Word, Le;
      CopyIn(off + 4, [0, 0]);
      CopyIn(off + 6, [0, 0]);
      ghost var body := data[..];
      StoreTotal(off, len);
      TotalSet(body, off, len);
      assert data[..][off + 4..off + 6] == [0, 0];
    }

    // Body first, TotalSize last.
    method WriteFrame(off: nat, frame: seq<Byte>)
      requires WellFormed(frame) && FRAME_HEADER <= |frame| && off + |frame| <= data.Length < Range(4)
      modifies data
      ensures EntryAt(data[..], off, Frame(frame))
      ensures forall j | 0 <= j < data.Length && (j < off || off + |frame| <= j) :: data[j] == old(data[j])
    {
      CopyIn(off + 4, frame[4..]);
      ghost var body := data[..];
      StoreTotal(off, |frame|);
      TotalSet(body, off, |frame|);
      assert data[..][off..off + |frame|] == frame by {
        forall i | 0 <= i < |frame|
          ensures data[..][off + i] == frame[i]
        {
          if i < 4 {
            assert frame[i] == frame[..4][i];
          }
        }
      }
    }

    method PutPad(off: nat, pad: nat)
      requires Queued() && FRAME_HEADER <= pad && pad % 8 == 0 && Held(queue) + pad <= size
      requires off == (tail + Held(queue)) % size && off + pad == size
      modifies `queue, data
      ensures Queued() && queue == old(queue) + [Pad(pad)] && Held(queue) == old(Held(queue)) + pad
      ensures Frames(queue) == old(Frames(queue))
    {
      hide EntryAt;
      ghost var mem0 := data[..];
      WritePad(off, pad);
      FreeWrite(mem0, data[..], tail, queue, tail + Held(queue), pad);
      LayoutAppend(data[..], tail, queue, Pad(pad));
      queue := queue + [Pad(pad)];
    }

    method PutFrame(at: nat, frame: seq<Byte>)
      requires Queued() && WellFormed(frame) && FRAME_HEADER <= |frame| && Held(queue) + |frame| <= size
      requires at == (tail + Held(queue)) % size && at + |frame| <= size
      modifies `queue, data
      ensures Queued() && queue == old(queue) + [Frame(frame)] && Held(queue) == old(Held(queue)) + |frame|
      ensures Frames(queue) == old(Frames(queue)) + [frame]
    {
      hide EntryAt;
      ghost var mem0 := data[..];
      WriteFrame(at, frame);
      FreeWrite(mem0, data[..], tail, queue, tail + Held(queue), |frame|);
      LayoutAppend(data[..], tail, queue, Frame(frame));
      queue := queue + [Frame(frame)];
    }

    // The frame, behind a pad up to the end of the region if there is one.
    method PutBoth(pos: nat, pad: nat, at: nat, frame: seq<Byte>)
      requires Queued() && WellFormed(frame) && FRAME_HEADER <= |frame| && Held(queue) + pad + |frame| <= size
      requires pos == tail + Held(queue) && at + |frame| <= size && pad % 8 == 0
      requires if pad == 0 then at == pos % size else pad >= FRAME_HEADER && at == 0 && pos % size + pad == size
      modifies `queue, data
      ensures Queued() && Held(queue) == old(Held(queue)) + pad + |frame|
      ensures queue == old(queue) + if pad == 0 then [Frame(frame)] else [Pad(pad), Frame(frame)]
      ensures Frames(queue) == old(Frames(queue)) + [frame]
    {
      hide Layout, Frames, Held, EntryAt, WellFormed;
      if pad > 0 {
        PutPad(pos % size, pad);
        ModWrap(pos, pad, size);
      }
      PutFrame(at, frame);
    }

    // Copies the frame in behind the queue, padding up to the end of the region when it would straddle it.
    // False, and one more drop, when the frame is malformed or the budget of `prio` is used up. The head
    // wraps at 64 bits and the mirror, a maximum, does not follow it there: the ring is in order afterwards
    // exactly when this publish does not take the head past 2^64.
    method Publish(frame: seq<Byte>, prio: Priority) returns (ok: bool)
      requires Valid() && WellFormed(frame)
      modifies this, data
      ensures Queued() && tail == old(tail) && lastReqId == old(lastReqId)
      ensures var left := size - old(head) % size;
        var pad := if |frame| <= left then 0 else left;
        var filled := old(Held(queue)) + pad + |frame|;
        && (ok <==> 8 <= |frame| <= size && if prio == Telemetry then 8 * filled <= 7 * size else filled <= size)
        && queue == old(queue) + (if !ok then [] else if pad == 0 then [Frame(frame)] else [Pad(pad), Frame(frame)])
        && Held(queue) == (if ok then filled else old(Held(queue)))
        && (Valid() <==> (ok ==> old(head) + pad + |frame| < 0x1_0000_0000_0000_0000))
      ensures Frames(queue) == old(Frames(queue)) + if ok then [frame] else []
      ensures dropped == old(dropped) + if ok then 0 else 1
    {
      hide Layout, Frames, Held, Reserve, Le, Budget, Word, EntryAt;
      var len := |frame|;
      if len < FRAME_HEADER || len > size {
        dropped := dropped + 1;
        return false;
      }
      ReserveTrue(head, tail, size, prio, len);
      BudgetIs(size, prio, Held(queue) + PadBefore(head, size, len) + len);
      AlignedRemainder(head, size);
      match Reserve(head, tail, size, prio, len)
      case Dropped =>
        dropped := dropped + 1;
        ok := false;
      case Reserved(at, pad, newHead) =>
        var next := if newHead < WORD64 then newHead else newHead - WORD64;
        headMirror := FetchMax(headMirror, next);
        AlignedSum(head, pad, len);
        PutBoth(head, pad, at, frame);
        head := next;
        ok := true;
    }

    // Releases the oldest entry: TotalSize is zeroed before tail moves.
    method Advance(off: nat, len: nat)
      requires Valid() && queue != [] && off == tail % size && len == queue[0].Len()
      modifies this, data
      ensures Valid() && queue == old(queue)[1..] && tail == old(tail) + len && head == old(head)
          && dropped == old(dropped) && lastReqId == old(lastReqId)
    {
      hide Layout, Held, EntryAt, SetTotal, Le;
      ReleaseKeepsRest(data[..], tail, queue);
      StoreTotal(off, 0);
      tail := tail + len;
      queue := queue[1..];
    }

    // The oldest frame, pads before it released on the way.
    method NextFrame() returns (r: Next)
      requires Valid()
      modifies this, data
      ensures Valid() && Frames(queue) == Frames(old(queue)) && head == old(head) && dropped == old(dropped)
      ensures lastReqId == old(lastReqId)
      ensures match r
        case NoData => queue == []
        case Uncommitted => false
        case Got(off, len) => queue != [] && queue[0].Frame? && off == tail % size && len == |queue[0].bytes|
      ensures Held(queue) <= Held(old(queue))
    {
      hide Layout, EntryAt, Held, Frames, Word;
      HeldNone();
      while true
        invariant Valid() && Frames(queue) == Frames(old(queue)) && head == old(head) && dropped == old(dropped)
        invariant Held(queue) <= Held(old(queue)) && lastReqId == old(lastReqId)
        decreases |queue|
      {
        if queue != [] {
          FirstEntry(data[..], tail, queue);
          HeldFirst(queue);
        }
        if tail == headMirror {
          return NoData;
        }
        var off := tail % size;
        var total := Word(data[off..off + 4]);
        assert data[..][off..off + 4] == data[off..off + 4];
        if total == 0 {
          return Uncommitted;
        }
        assert data[..][off + 4..off + 6] == data[off + 4..off + 6];
        if data[off + 4..off + 6] != [0, 0] {
          return Got(off, total);
        }
        Advance(off, total);
      }
    }

    method Bytes(off: nat, len: nat) returns (b: seq<Byte>)
      requires Valid() && queue != [] && queue[0].Frame? && off == tail % size && len == |queue[0].bytes|
      ensures b == queue[0].bytes
    {
      assert data[..][off..off + len] == data[off..off + len];
      b := data[off..off + len];
    }

    // Takes the oldest frame out, byte for byte, and remembers whose verdict it asks for; nothing when the
    // queue holds no frame.
    method NextBatch() returns (r: seq<seq<Byte>>)
      requires Valid()
      modifies this, data
      ensures Valid() && Frames(old(queue)) == r + Frames(queue)
      ensures |r| <= 1 && (r == [] ==> queue == [])
      ensures lastReqId ==
        if r == [] then old(lastReqId) else if |r[0]| < 40 then 0 else FourBytes(r[0], 28)
      ensures Held(queue) <= Held(old(queue))
    {
      var next := NextFrame();
      if next.Got? {
        var payload := Bytes(next.off, next.len);
        Advance(next.off, next.len);
        RequestIs(payload);
        lastReqId := RequestOf(payload);
        r := [payload];
      } else {
        r := [];
      }
    }
  }

  lemma FramesNone()
    ensures Frames([]) == []
  {
  }

  // The one frame queued is the one taken.
  lemma TakesTheOnly(frame: seq<Byte>, got: seq<seq<Byte>>, rest: seq<Entry>)
    requires [frame] == got + Frames(rest) && |got| <= 1 && (got == [] ==> rest == [])
    ensures got == [frame]
  {
    FramesNone();
    hide Frames;
    assert |got| == 1 && (got + Frames(rest))[0] == got[0];
  }

  // The request number a caller puts in its frame is the one the service notes when it takes the frame out.
  method AskAndTake(ring: Ring, record: seq<Byte>, id: nat) returns (ok: bool, got: seq<seq<Byte>>)
    requires ring.Valid() && ring.queue == [] && ring.head + ring.size + ring.size < WORD64
    requires 32 <= |record| && |record| % 8 == 0 && 8 + |record| < Range(4) && id < Range(4)
    modifies ring, ring.data
    ensures ok ==> got == [EnforceFrame(record, id)] && ring.lastReqId == id
    ensures 2 * (8 + |record|) <= ring.size ==> ok
  {
    hide WellFormed, EnforceFrame, Layout, Held, Frames, Range, FourBytes;
    EnforceFrameFacts(record, id);
    HeldNone();
    FramesNone();
    got := [];
    ok := ring.Publish(EnforceFrame(record, id), Enforce);
    if ok {
      got := ring.NextBatch();
      TakesTheOnly(EnforceFrame(record, id), got, ring.queue);
    }
  }
}

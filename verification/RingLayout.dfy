/** The shared ring's byte layout and the arithmetic of a reservation. */
module RingLayout {

  import opened LittleEndian

  const FRAME_HEADER := 8
  const WORD64 := 0x1_0000_0000_0000_0000

  datatype Priority = Telemetry | Enforce

  // ----- memory -----

  function Put(mem: seq<Byte>, off: nat, s: seq<Byte>): (r: seq<Byte>)
    requires off + |s| <= |mem|
    ensures |r| == |mem|
    ensures forall i | 0 <= i < |mem| :: r[i] == if off <= i < off + |s| then s[i - off] else mem[i]
  {
    mem[..off] + s + mem[off + |s|..]
  }

  // `TotalSize` of the frame at `off`, which doubles as the commit flag.
  function Total(mem: seq<Byte>, off: nat): nat
    requires off + 4 <= |mem|
  {
    Word(mem[off..off + 4])
  }

  function SetTotal(mem: seq<Byte>, off: nat, v: nat): seq<Byte>
    requires off + 4 <= |mem| && v < Range(4)
  {
    Put(mem, off, Le(v, 4))
  }

  lemma TotalSet(mem: seq<Byte>, off: nat, v: nat)
    requires off + 4 <= |mem| && v < Range(4)
    ensures Total(SetTotal(mem, off, v), off) == v
  {
    WordOfLe(v, 4);
    assert SetTotal(mem, off, v)[off..off + 4] == Le(v, 4);
  }

  // A write leaves every word outside its range alone.
  lemma TotalElsewhere(mem: seq<Byte>, off: nat, s: seq<Byte>, at: nat)
    requires off + |s| <= |mem| && at + 4 <= |mem| && (at + 4 <= off || off + |s| <= at)
    ensures Total(Put(mem, off, s), at) == Total(mem, at)
  {
    assert Put(mem, off, s)[at..at + 4] == mem[at..at + 4];
  }

  // ----- reserving -----

  // Telemetry stops at seven eighths of the ring; enforcement may use all of it.
  function Budget(size: nat, prio: Priority): (b: nat)
    ensures b <= size
  {
    if prio == Enforce then size else size * 7 / 8
  }

  // 64-bit subtraction.
  function WrappingSub(a: nat, b: nat): nat
    requires a < WORD64 && b < WORD64
  {
    if a >= b then a - b else a + WORD64 - b
  }

  datatype Reservation = Dropped | Reserved(at: nat, pad: nat, newHead: nat)

  // Room for `len` bytes behind `head`, given a `tail` that may be stale or hostile.
  function Reserve(head: nat, tail: nat, size: nat, prio: Priority, len: nat): Reservation
    requires size > 0 && head < WORD64 && tail < WORD64
  {
    var used := WrappingSub(head, tail);
    if used > size then Dropped
    else
      var avail := if Budget(size, prio) > used then Budget(size, prio) - used else 0;
      var off := head % size;
      var remainder := size - off;
      var wraps := remainder < len;
      var need := if wraps then remainder + len else len;
      if need > avail then Dropped
      else Reserved(if wraps then 0 else off, if wraps then remainder else 0, head + need)
  }

  // Whatever tail the service wrote, a reservation stays inside the data region and within the budget,
  // and a tail that cannot be true reserves nothing.
  lemma ReserveStaysInside(head: nat, tail: nat, size: nat, prio: Priority, len: nat)
    requires 0 < size < WORD64 && head < WORD64 && tail < WORD64 && len > 0
    ensures (tail > head && tail - head < WORD64 - size) || head - tail > size ==>
      Reserve(head, tail, size, prio, len) == Dropped
    ensures match Reserve(head, tail, size, prio, len)
      case Dropped => true
      case Reserved(at, pad, newHead) =>
        && at + len <= size && newHead == head + pad + len
        && (pad > 0 ==> at == 0 && head % size + pad == size && pad < len)
        && (pad == 0 ==> at == head % size)
        && WrappingSub(head, tail) + pad + len <= size
        && (prio == Telemetry ==> 8 * (WrappingSub(head, tail) + pad + len) <= 7 * size)
  {
  }

  // The head mirror never goes back, in whatever order reservations reach it.
  function FetchMax(a: nat, b: nat): nat {
    if a < b then b else a
  }
}

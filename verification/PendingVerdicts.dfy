/** The table of threads waiting for the service's verdict: a fixed array scanned under one lock. */
module PendingVerdicts {

  // The wait event on a caller's stack; a free slot holds none.
  datatype Event = NoEvent | EventOf(caller: nat)

  datatype Slot = Slot(used: bool, reqId: nat, event: Event, deny: bool)

  const FREE := Slot(false, 0, NoEvent, false)
  const CAP: nat := 64

  // ----- what a scan finds -----

  function FirstFree(slots: seq<Slot>): (i: nat)
    ensures i <= |slots| && (i < |slots| ==> !slots[i].used)
    ensures forall j | 0 <= j < i :: slots[j].used
  {
    if slots == [] || !slots[0].used then 0 else 1 + FirstFree(slots[1..])
  }

  function FirstMatch(slots: seq<Slot>, reqId: nat): (i: nat)
    ensures i <= |slots| && (i < |slots| ==> slots[i].used && slots[i].reqId == reqId)
    ensures forall j | 0 <= j < i :: !(slots[j].used && slots[j].reqId == reqId)
  {
    if slots == [] || (slots[0].used && slots[0].reqId == reqId) then 0 else 1 + FirstMatch(slots[1..], reqId)
  }

  // ----- what the three operations make of the table -----

  function Filled(slots: seq<Slot>, reqId: nat, event: Event): seq<Slot> {
    var i := FirstFree(slots);
    if i < |slots| then slots[i := Slot(true, reqId, event, false)] else slots
  }

  function Completed(slots: seq<Slot>, reqId: nat, deny: bool): seq<Slot> {
    var i := FirstMatch(slots, reqId);
    if i < |slots| then slots[i := slots[i].(deny := deny)] else slots
  }

  function Taken(slots: seq<Slot>, reqId: nat): seq<Slot> {
    var i := FirstMatch(slots, reqId);
    if i < |slots| then slots[i := slots[i].(used := false, event := NoEvent)] else slots
  }

  // The event a completion sets, and the verdict a take reports: an unknown request reads as allow.
  function Woken(slots: seq<Slot>, reqId: nat): Event {
    var i := FirstMatch(slots, reqId);
    if i < |slots| then slots[i].event else NoEvent
  }

  function Verdict(slots: seq<Slot>, reqId: nat): bool {
    var i := FirstMatch(slots, reqId);
    i < |slots| && slots[i].deny
  }

  class PendingVerdicts {
    const slots: array<Slot>

    constructor ()
      ensures fresh(slots) && slots.Length == CAP && forall i | 0 <= i < CAP :: slots[i] == FREE
    {
      slots := new Slot[CAP](_ => FREE);
    }

    method Add(reqId: nat, event: Event) returns (ok: bool)
      modifies slots
      ensures slots[..] == Filled(old(slots[..]), reqId, event)
      ensures ok == exists i | 0 <= i < slots.Length :: !old(slots[i].used)
    {
      ok := false;
      for i := 0 to slots.Length
        invariant !ok && slots[..] == old(slots[..])
        invariant forall j | 0 <= j < i :: slots[j].used
      {
        if !slots[i].used {
          assert i == FirstFree(slots[..]);
          slots[i] := Slot(true, reqId, event, false);
          ok := true;
          break;
        }
      }
    }

    method Complete(reqId: nat, deny: bool) returns (found: bool, woken: Event)
      modifies slots
      ensures slots[..] == Completed(old(slots[..]), reqId, deny)
      ensures woken == Woken(old(slots[..]), reqId)
      ensures found == exists i | 0 <= i < slots.Length :: old(slots[i].used && slots[i].reqId == reqId)
    {
      found, woken := false, NoEvent;
      for i := 0 to slots.Length
        invariant !found && woken == NoEvent && slots[..] == old(slots[..])
        invariant forall j | 0 <= j < i :: !(slots[j].used && slots[j].reqId == reqId)
      {
        if slots[i].used && slots[i].reqId == reqId {
          assert i == FirstMatch(slots[..], reqId);
          slots[i] := slots[i].(deny := deny);
          woken := slots[i].event;
          found := true;
          break;
        }
      }
    }

    method Take(reqId: nat) returns (got: bool, deny: bool)
      modifies slots
      ensures slots[..] == Taken(old(slots[..]), reqId)
      ensures deny == Verdict(old(slots[..]), reqId)
      ensures got == exists i | 0 <= i < slots.Length :: old(slots[i].used && slots[i].reqId == reqId)
    {
      got, deny := false, false;
      for i := 0 to slots.Length
        invariant !got && !deny && slots[..] == old(slots[..])
        invariant forall j | 0 <= j < i :: !(slots[j].used && slots[j].reqId == reqId)
      {
        if slots[i].used && slots[i].reqId == reqId {
          assert i == FirstMatch(slots[..], reqId);
          deny := slots[i].deny;
          slots[i] := slots[i].(used := false, event := NoEvent);
          got := true;
          break;
        }
      }
    }
  }
}

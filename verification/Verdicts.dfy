/** The verdict rendezvous as a step system: any number of threads inside EnforceSync, and a service that
    completes any request number at any time. */
module Verdicts {
  import opened Multisets
  import opened PendingVerdicts
  import Events
  import opened Modular

  const WORD32: nat := 0x1_0000_0000

  datatype Caller =
    | Outside
    | Numbering                          // about to draw a request number
    | Adding(ticket: nat)
    | Publishing(ticket: nat)
    | Withdrawing(ticket: nat)           // publish failed
    | Waiting(ticket: nat)
    | Woke(ticket: nat, signalled: bool) // the wait returned: event set, or timeout

  // What an observer of the table's callers sees, in the order it happens.
  datatype Deed =
    | Added(ticket: nat)
    | Said(reqId: nat, deny: bool)       // the service completed this number, found or not
    | Waited(ticket: nat)                // the call was published, and its wait is over
    | Left(ticket: nat, deny: bool)      // the call reported this

  /** `next` counts the numbers drawn; `signals` holds the callers whose event is set; `log` is the history. */
  datatype State = State(slots: seq<Slot>, next: nat, callers: seq<Caller>, signals: set<nat>, log: seq<Deed>)

  ghost predicate Init(s: State) {
    && |s.slots| == CAP && (forall i | 0 <= i < CAP :: s.slots[i] == FREE)
    && s.next == 0 && (forall p | 0 <= p < |s.callers| :: s.callers[p] == Outside)
    && s.signals == {} && s.log == []
  }

  // The counter is 32 bits wide.
  function ReqId(ticket: nat): nat {
    ticket % WORD32
  }

  // ----- steps of one caller -----

  ghost predicate Enter(s: State, p: nat, s': State)
    requires p < |s.callers|
  {
    s.callers[p].Outside? && s' == s.(callers := s.callers[p := Numbering])
  }

  // Zero means "no verdict wanted", so it is skipped; then the wait event is initialised.
  ghost predicate Number(s: State, p: nat, s': State)
    requires p < |s.callers|
  {
    && s.callers[p].Numbering?
    && s' == if ReqId(s.next + 1) == 0 then s.(next := s.next + 1)
             else s.(next := s.next + 1, callers := s.callers[p := Adding(s.next + 1)], signals := s.signals - {p})
  }

  ghost predicate Add(s: State, p: nat, s': State)
    requires p < |s.callers|
  {
    && s.callers[p].Adding?
    && var Adding(t) := s.callers[p];
       s' == if FirstFree(s.slots) < |s.slots|
             then s.(slots := Filled(s.slots, ReqId(t), EventOf(p)), callers := s.callers[p := Publishing(t)],
                     log := s.log + [Added(t)])
             else s.(callers := s.callers[p := Outside], log := s.log + [Left(t, false)])
  }

  ghost predicate Publish(s: State, p: nat, s': State)
    requires p < |s.callers|
  {
    && s.callers[p].Publishing?
    && var t := s.callers[p].ticket;
       s' == s.(callers := s.callers[p := Waiting(t)]) || s' == s.(callers := s.callers[p := Withdrawing(t)])
  }

  ghost predicate Withdraw(s: State, p: nat, s': State)
    requires p < |s.callers|
  {
    && s.callers[p].Withdrawing?
    && var t := s.callers[p].ticket;
       s' == s.(slots := Taken(s.slots, ReqId(t)), callers := s.callers[p := Outside],
                log := s.log + [Left(t, false)])
  }

  ghost predicate WaitReturns(s: State, p: nat, s': State)
    requires p < |s.callers|
  {
    && s.callers[p].Waiting?
    && var t := s.callers[p].ticket;
       s' == s.(callers := s.callers[p := Woke(t, p in s.signals)], log := s.log + [Waited(t)])
  }

  ghost predicate Take(s: State, p: nat, s': State)
    requires p < |s.callers|
  {
    && s.callers[p].Woke?
    && var Woke(t, signalled) := s.callers[p];
       s' == s.(slots := Taken(s.slots, ReqId(t)), callers := s.callers[p := Outside],
                log := s.log + [Left(t, signalled && Verdict(s.slots, ReqId(t)))])
  }

  ghost predicate CallerStep(s: State, p: nat, s': State)
    requires p < |s.callers|
  {
    || Enter(s, p, s') || Number(s, p, s') || Add(s, p, s') || Publish(s, p, s') || Withdraw(s, p, s')
    || WaitReturns(s, p, s') || Take(s, p, s')
  }

  // ----- the service -----

  ghost predicate Completes(s: State, id: nat, deny: bool, s': State) {
    s' == s.(slots := Completed(s.slots, id, deny), signals := s.signals + Rung(Woken(s.slots, id)),
             log := s.log + [Said(id, deny)])
  }

  ghost predicate Complete(s: State, s': State) {
    exists id, deny :: Completes(s, id, deny, s')
  }

  function Rung(e: Event): set<nat> {
    if e.EventOf? then {e.caller} else {}
  }

  // No caller stays inside while the whole range of request numbers is drawn again.
  ghost predicate Recent(s: State) {
    forall p | 0 <= p < |s.callers| :: s.next < Oldest(s.callers[p], s.next) + WORD32
  }

  ghost function Oldest(c: Caller, next: nat): nat {
    if c.Outside? || c.Numbering? then next else c.ticket
  }

  ghost predicate Next(s: State, s': State) {
    Recent(s') && (Complete(s, s') || exists p: nat | p < |s.callers| :: CallerStep(s, p, s'))
  }

  ghost predicate IsRun(run: seq<State>) {
    && |run| > 0 && Init(run[0])
    && forall i | 0 <= i < |run| - 1 :: Next(run[i], run[i + 1])
  }

  // ----- the invariant -----

  ghost predicate Numbered(c: Caller) {
    !c.Outside? && !c.Numbering?
  }

  // Between Add and Take.
  ghost predicate Holding(c: Caller) {
    Numbered(c) && !c.Adding?
  }

  ghost predicate Tickets(callers: seq<Caller>, next: nat) {
    && (forall p | 0 <= p < |callers| && Numbered(callers[p]) :: callers[p].ticket <= next)
    && (forall p, q | 0 <= p < q < |callers| && Numbered(callers[p]) && Numbered(callers[q]) ::
          callers[p].ticket != callers[q].ticket)
  }

  // Slot `i` is the one caller `p` waits at.
  ghost predicate HeldBy(slot: Slot, callers: seq<Caller>, p: nat) {
    && p < |callers| && Holding(callers[p])
    && slot.used && slot.event == EventOf(p) && slot.reqId == ReqId(callers[p].ticket)
  }

  ghost predicate Owned(slots: seq<Slot>, callers: seq<Caller>) {
    forall i | 0 <= i < |slots| ::
      if slots[i].used then slots[i].event.EventOf? && HeldBy(slots[i], callers, slots[i].event.caller)
      else slots[i].event == NoEvent
  }

  ghost predicate HasSlot(slots: seq<Slot>, callers: seq<Caller>, p: nat) {
    exists i | 0 <= i < |slots| :: HeldBy(slots[i], callers, p)
  }

  ghost predicate Placed(slots: seq<Slot>, callers: seq<Caller>) {
    forall p: nat | p < |callers| && Holding(callers[p]) :: HasSlot(slots, callers, p)
  }

  ghost predicate OnePlace(slots: seq<Slot>) {
    forall i, j | 0 <= i < |slots| && 0 <= j < |slots| && slots[i].used && slots[j].used
      && slots[i].event == slots[j].event :: i == j
  }

  // ----- what the history says of one call -----

  ghost predicate Says(d: Deed, t: nat) {
    d.Said? && d.reqId == ReqId(t)
  }

  // The service spoke on the call's number after the call was added.
  ghost predicate Heard(log: seq<Deed>, t: nat) {
    exists a, k | 0 <= a < k < |log| :: log[a] == Added(t) && Says(log[k], t)
  }

  // It had done so by the time the call's wait was over.
  ghost predicate HeardInTime(log: seq<Deed>, t: nat) {
    exists w | 0 <= w < |log| :: log[w] == Waited(t) && Heard(log[..w], t)
  }

  // The service's last word on a number.
  ghost function LastWord(log: seq<Deed>, reqId: nat): Events.Option<bool> {
    if log == [] then Events.None else
    var d := log[|log| - 1];
    if d.Said? && d.reqId == reqId then Events.Some(d.deny) else LastWord(log[..|log| - 1], reqId)
  }

  ghost predicate Justified(log: seq<Deed>, j: nat)
    requires j < |log|
  {
    log[j].Left? ==>
      (log[j].deny <==>
        HeardInTime(log[..j], log[j].ticket) && LastWord(log[..j], ReqId(log[j].ticket)) == Events.Some(true))
  }

  // ----- what one more deed changes of it -----

  lemma HeardMore(log: seq<Deed>, d: Deed, t: nat)
    ensures Heard(log + [d], t) <==> Heard(log, t) || (Added(t) in log && Says(d, t))
  {
    var log' := log + [d];
    if Heard(log, t) {
      var a, k :| 0 <= a < k < |log| && log[a] == Added(t) && Says(log[k], t);
      assert log'[a] == Added(t) && Says(log'[k], t);
    }
    if Added(t) in log && Says(d, t) {
      var a :| 0 <= a < |log| && log[a] == Added(t);
      assert log'[a] == Added(t) && Says(log'[|log|], t);
    }
    if Heard(log', t) {
      var a, k :| 0 <= a < k < |log'| && log'[a] == Added(t) && Says(log'[k], t);
      assert log[a] == Added(t) && (k < |log| ==> Says(log[k], t));
    }
  }

  lemma InTimeMore(log: seq<Deed>, d: Deed, t: nat)
    ensures HeardInTime(log + [d], t) <==> HeardInTime(log, t) || (Heard(log, t) && d == Waited(t))
  {
    hide Heard;
    var log' := log + [d];
    forall w | 0 <= w <= |log|
      ensures log'[..w] == log[..w]
    {
    }
    assert log[..|log|] == log;
    if HeardInTime(log, t) {
      var w :| 0 <= w < |log| && log[w] == Waited(t) && Heard(log[..w], t);
      assert log'[w] == Waited(t);
    }
    assert log'[|log|] == d;
  }

  lemma InTimeIsHeard(log: seq<Deed>, t: nat)
    requires HeardInTime(log, t)
    ensures Heard(log, t) && Added(t) in log && Waited(t) in log
  {
    var w :| 0 <= w < |log| && log[w] == Waited(t) && Heard(log[..w], t);
    var a, k :| 0 <= a < k < w && log[..w][a] == Added(t) && Says(log[..w][k], t);
    assert log[a] == Added(t) && Says(log[k], t);
  }

  lemma LastMore(log: seq<Deed>, d: Deed, reqId: nat)
    ensures LastWord(log + [d], reqId)
         == if d.Said? && d.reqId == reqId then Events.Some(d.deny) else LastWord(log, reqId)
  {
    assert (log + [d])[..|log|] == log;
  }

  lemma JustifiedMore(log: seq<Deed>, d: Deed)
    requires forall j: nat | j < |log| :: Justified(log, j)
    requires Justified(log + [d], |log|)
    ensures forall j: nat | j < |log + [d]| :: Justified(log + [d], j)
  {
    hide Justified;
    forall j: nat | j < |log|
      ensures Justified(log + [d], j)
    {
      SamePrefix(log, d, j);
    }
  }

  lemma SamePrefix(log: seq<Deed>, d: Deed, j: nat)
    requires j < |log| && Justified(log, j)
    ensures Justified(log + [d], j)
  {
    hide HeardInTime, LastWord;
    assert (log + [d])[..j] == log[..j];
  }

  // ----- the rest of the invariant -----

  // Where the call stands is where the history has it; its event is set exactly when the service has
  // spoken, and its wait succeeded exactly when the service spoke in time.
  ghost predicate Stands(log: seq<Deed>, signals: set<nat>, p: nat, c: Caller) {
    && (c.Adding? ==> Added(c.ticket) !in log && Waited(c.ticket) !in log && p !in signals)
    && (Holding(c) ==> Added(c.ticket) in log && (p in signals <==> Heard(log, c.ticket)))
    && (Holding(c) && !c.Woke? ==> Waited(c.ticket) !in log)
    && (c.Woke? ==> (c.signalled <==> HeardInTime(log, c.ticket)))
  }

  ghost predicate AllStand(log: seq<Deed>, signals: set<nat>, callers: seq<Caller>) {
    forall p: nat | p < |callers| :: Stands(log, signals, p, callers[p])
  }

  // A slot's verdict is the service's last word once its event is set, and allow before.
  ghost predicate Truthful(slot: Slot, signals: set<nat>, log: seq<Deed>) {
    slot.used && slot.event.EventOf? ==>
      if slot.event.caller in signals then LastWord(log, slot.reqId) == Events.Some(slot.deny) else !slot.deny
  }

  ghost predicate AllTruthful(slots: seq<Slot>, signals: set<nat>, log: seq<Deed>) {
    forall i | 0 <= i < |slots| :: Truthful(slots[i], signals, log)
  }

  ghost predicate Drawn(log: seq<Deed>, next: nat) {
    forall d | d in log && !d.Said? :: d.ticket <= next
  }

  ghost predicate AllJustified(log: seq<Deed>) {
    forall j: nat | j < |log| :: Justified(log, j)
  }

  // Zero is never handed out.
  ghost predicate NonZero(callers: seq<Caller>) {
    forall p | 0 <= p < |callers| && Numbered(callers[p]) :: ReqId(callers[p].ticket) != 0
  }

  // The table and its callers.
  ghost predicate TableOk(s: State) {
    && |s.slots| == CAP && Recent(s) && Tickets(s.callers, s.next) && NonZero(s.callers)
    && Owned(s.slots, s.callers) && Placed(s.slots, s.callers) && OnePlace(s.slots)
  }

  // What they know against what happened.
  ghost predicate HistoryOk(s: State) {
    && AllTruthful(s.slots, s.signals, s.log) && AllStand(s.log, s.signals, s.callers)
    && Drawn(s.log, s.next) && AllJustified(s.log)
  }

  ghost predicate Inv(s: State) {
    TableOk(s) && HistoryOk(s)
  }

  // ----- request numbers -----

  // Request numbers are 32 bits, never zero, and runs are those in which a call is gone before its number
  // comes round again.
  lemma NumbersAre32Bits(s: State, t: nat)
    ensures ReqId(t) == t % 0x1_0000_0000
    ensures Recent(s) <==> forall p | 0 <= p < |s.callers| && Numbered(s.callers[p]) ::
      s.next - s.callers[p].ticket < 0x1_0000_0000
  {
    assert forall p | 0 <= p < |s.callers| ::
      s.next < Oldest(s.callers[p], s.next) + WORD32 <==>
        (Numbered(s.callers[p]) ==> s.next - s.callers[p].ticket < 0x1_0000_0000);
  }

  lemma NeverZero(run: seq<State>, i: nat, p: nat)
    requires IsRun(run) && i < |run| && p < |run[i].callers| && Numbered(run[i].callers[p])
    ensures run[i].callers[p].ticket % 0x1_0000_0000 != 0
  {
    hide IsRun, HistoryOk;
    RunKeepsInv(run, i);
  }

  lemma NumbersDiffer(s: State, p: nat, q: nat)
    requires Recent(s) && Tickets(s.callers, s.next) && p < |s.callers| && q < |s.callers| && p != q
    requires Numbered(s.callers[p]) && Numbered(s.callers[q])
    ensures ReqId(s.callers[p].ticket) != ReqId(s.callers[q].ticket)
  {
    var a, b := s.callers[p].ticket, s.callers[q].ticket;
    assert s.next < Oldest(s.callers[p], s.next) + WORD32 && s.next < Oldest(s.callers[q], s.next) + WORD32;
    if a < b {
      LapDistinct(a, b, WORD32);
    } else {
      LapDistinct(b, a, WORD32);
    }
  }

  // A scan for a caller's own number ends at its own slot.
  lemma FindsOwn(s: State, p: nat)
    requires TableOk(s) && p < |s.callers| && Holding(s.callers[p])
    ensures var i := FirstMatch(s.slots, ReqId(s.callers[p].ticket));
      i < |s.slots| && HeldBy(s.slots[i], s.callers, p)
  {
    hide ReqId, FirstMatch;
    assert HasSlot(s.slots, s.callers, p);
    var i := FirstMatch(s.slots, ReqId(s.callers[p].ticket));
    assert i < |s.slots|;
    var q := s.slots[i].event.caller;
    if q != p {
      NumbersDiffer(s, p, q);
    }
  }

  // ----- the table is kept -----

  // The caller at `p` moves on, keeping its slot and its number.
  lemma MoveKeepsTable(s: State, p: nat, c: Caller, s': State)
    requires TableOk(s) && p < |s.callers| && Holding(s.callers[p]) && Holding(c) && c.ticket == s.callers[p].ticket
    requires s' == s.(callers := s.callers[p := c], log := s'.log)
    ensures TableOk(s')
  {
    hide ReqId;
    forall i, q | 0 <= i < |s.slots| && HeldBy(s.slots[i], s.callers, q)
      ensures HeldBy(s.slots[i], s'.callers, q)
    {
    }
    forall q: nat | q < |s'.callers| && Holding(s'.callers[q])
      ensures HasSlot(s.slots, s'.callers, q)
    {
      assert HasSlot(s.slots, s.callers, q);
      var i :| 0 <= i < |s.slots| && HeldBy(s.slots[i], s.callers, q);
      assert HeldBy(s.slots[i], s'.callers, q);
    }
    forall q | 0 <= q < |s'.callers|
      ensures s.next < Oldest(s'.callers[q], s.next) + WORD32
    {
      assert s.next < Oldest(s.callers[q], s.next) + WORD32;
    }
  }

  // A caller outside the table moves, staying outside it.
  lemma OutsideKeepsTable(s: State, s': State, p: nat, c: Caller)
    requires TableOk(s) && p < |s.callers| && !Holding(s.callers[p]) && !Holding(c) && Recent(s')
    requires s' == s.(callers := s.callers[p := c], next := s'.next, signals := s'.signals, log := s'.log)
    requires s.next <= s'.next && (Numbered(c) ==> c.ticket <= s'.next && (c.ticket > s.next || s.callers[p] == c))
    requires Numbered(c) ==> ReqId(c.ticket) != 0
    ensures TableOk(s')
  {
    hide ReqId, Recent;
    forall i, q | 0 <= i < |s.slots| && HeldBy(s.slots[i], s.callers, q)
      ensures HeldBy(s.slots[i], s'.callers, q)
    {
    }
    forall q: nat | q < |s'.callers| && Holding(s'.callers[q])
      ensures HasSlot(s.slots, s'.callers, q)
    {
      assert HasSlot(s.slots, s.callers, q);
      var i :| 0 <= i < |s.slots| && HeldBy(s.slots[i], s.callers, q);
      assert HeldBy(s.slots[i], s'.callers, q);
    }
  }

  lemma AddKeepsTable(s: State, p: nat, s': State)
    requires TableOk(s) && p < |s.callers| && Add(s, p, s') && FirstFree(s.slots) < |s.slots| && Recent(s')
    ensures TableOk(s')
  {
    hide ReqId, Recent;
    var n := FirstFree(s.slots);
    forall i | 0 <= i < |s.slots| && s.slots[i].used
      ensures HeldBy(s'.slots[i], s'.callers, s'.slots[i].event.caller) && s'.slots[i] == s.slots[i]
          && s.slots[i].event != EventOf(p)
    {
    }
    assert HeldBy(s'.slots[n], s'.callers, p);
    forall q: nat | q < |s'.callers| && Holding(s'.callers[q])
      ensures HasSlot(s'.slots, s'.callers, q)
    {
      if q != p {
        assert HasSlot(s.slots, s.callers, q);
        var i :| 0 <= i < |s.slots| && HeldBy(s.slots[i], s.callers, q);
        assert HeldBy(s'.slots[i], s'.callers, q);
      }
    }
  }

  lemma WithoutOne(callers: seq<Caller>, p: nat, next: nat)
    requires p < |callers| && Tickets(callers, next) && NonZero(callers)
    ensures Tickets(callers[p := Outside], next) && NonZero(callers[p := Outside])
  {
    hide ReqId;
  }

  // Leaving: the caller's own slot, and no other, is freed.
  lemma LeaveKeepsTable(s: State, p: nat, s': State)
    requires TableOk(s) && p < |s.callers| && Holding(s.callers[p]) && Recent(s')
    requires s' == s.(slots := Taken(s.slots, ReqId(s.callers[p].ticket)), callers := s.callers[p := Outside],
                      log := s'.log)
    ensures TableOk(s') && forall i | 0 <= i < |s'.slots| :: s'.slots[i].event != EventOf(p)
  {
    FindsOwn(s, p);
    WithoutOne(s.callers, p, s.next);
    hide ReqId, Recent, FirstMatch, Tickets, NonZero;
    var n := FirstMatch(s.slots, ReqId(s.callers[p].ticket));
    forall i | 0 <= i < |s.slots| && i != n && s.slots[i].used
      ensures HeldBy(s'.slots[i], s'.callers, s'.slots[i].event.caller) && s.slots[i].event != EventOf(p)
    {
    }
    forall q: nat | q < |s'.callers| && Holding(s'.callers[q])
      ensures HasSlot(s'.slots, s'.callers, q)
    {
      assert HasSlot(s.slots, s.callers, q);
      var i :| 0 <= i < |s.slots| && HeldBy(s.slots[i], s.callers, q);
      assert HeldBy(s'.slots[i], s'.callers, q);
    }
  }

  lemma CompleteKeepsTable(s: State, id: nat, deny: bool, s': State)
    requires TableOk(s) && Completes(s, id, deny, s') && Recent(s')
    ensures TableOk(s')
  {
    hide ReqId, Recent, Tickets;
    forall i, q | 0 <= i < |s.slots| && HeldBy(s.slots[i], s.callers, q)
      ensures HeldBy(s'.slots[i], s'.callers, q)
    {
    }
    forall q: nat | q < |s'.callers| && Holding(s'.callers[q])
      ensures HasSlot(s'.slots, s'.callers, q)
    {
      assert HasSlot(s.slots, s.callers, q);
      var i :| 0 <= i < |s.slots| && HeldBy(s.slots[i], s.callers, q);
      assert HeldBy(s'.slots[i], s'.callers, q);
    }
  }

  // Numbers identify slots.
  lemma OtherNumber(s: State, i: nat, id: nat)
    requires TableOk(s) && i < |s.slots| && s.slots[i].used && i != FirstMatch(s.slots, id)
    ensures s.slots[i].reqId != id
    ensures FirstMatch(s.slots, id) < |s.slots| ==> s.slots[FirstMatch(s.slots, id)].event != s.slots[i].event
  {
    hide ReqId, FirstMatch;
    if s.slots[i].reqId == id {
      FindsOwn(s, s.slots[i].event.caller);
    }
  }

  // ----- the history is kept -----

  // Of the other callers a deed of the call `t` says nothing.
  lemma OthersStand(log: seq<Deed>, d: Deed, signals: set<nat>, signals': set<nat>, q: nat, c: Caller)
    requires Stands(log, signals, q, c) && !d.Said? && (Numbered(c) ==> d.ticket != c.ticket)
    requires q in signals <==> q in signals'
    ensures Stands(log + [d], signals', q, c)
  {
    if Numbered(c) {
      HeardMore(log, d, c.ticket);
      InTimeMore(log, d, c.ticket);
    }
    hide Heard, HeardInTime;
  }

  lemma SlotsStayTruthful(slots: seq<Slot>, signals: set<nat>, log: seq<Deed>, d: Deed)
    requires AllTruthful(slots, signals, log) && !d.Said?
    ensures AllTruthful(slots, signals, log + [d])
  {
    hide LastWord;
    forall i | 0 <= i < |slots|
      ensures Truthful(slots[i], signals, log + [d])
    {
      LastMore(log, d, slots[i].reqId);
    }
  }

  // A step of caller `p` that leaves the events alone and logs the deed `d` of its own call.
  lemma DeedKeepsHistory(s: State, p: nat, d: Deed, s': State)
    requires Inv(s) && p < |s.callers| && Numbered(s.callers[p]) && !d.Said? && d.ticket == s.callers[p].ticket
    requires s'.log == s.log + [d] && s'.signals == s.signals && s'.next == s.next
    requires |s'.callers| == |s.callers| && s'.callers == s.callers[p := s'.callers[p]]
    requires AllTruthful(s'.slots, s.signals, s.log)
    requires Stands(s'.log, s.signals, p, s'.callers[p])
    requires Justified(s'.log, |s.log|)
    ensures HistoryOk(s')
  {
    hide Stands, Justified, Truthful;
    SlotsStayTruthful(s'.slots, s.signals, s.log, d);
    JustifiedMore(s.log, d);
    forall q: nat | q < |s'.callers|
      ensures Stands(s'.log, s'.signals, q, s'.callers[q])
    {
      if q != p {
        OthersStand(s.log, d, s.signals, s'.signals, q, s.callers[q]);
      }
    }
  }

  lemma AddKeepsHistory(s: State, p: nat, s': State)
    requires Inv(s) && p < |s.callers| && Add(s, p, s') && FirstFree(s.slots) < |s.slots|
    ensures HistoryOk(s')
  {
    hide ReqId, Heard, HeardInTime, LastWord, TableOk, FirstFree;
    var t := s.callers[p].ticket;
    assert Stands(s.log, s.signals, p, s.callers[p]);
    HeardMore(s.log, Added(t), t);
    NotHeard(s.log, t);
    DeedKeepsHistory(s, p, Added(t), s');
  }

  lemma NotHeard(log: seq<Deed>, t: nat)
    requires Added(t) !in log
    ensures !Heard(log, t)
  {
  }

  lemma RefusedKeepsHistory(s: State, p: nat, s': State)
    requires Inv(s) && p < |s.callers| && Add(s, p, s') && FirstFree(s.slots) == |s.slots|
    ensures HistoryOk(s')
  {
    hide ReqId, HeardInTime, LastWord, TableOk;
    var t := s.callers[p].ticket;
    assert Stands(s.log, s.signals, p, s.callers[p]);
    assert s'.log[..|s.log|] == s.log;
    if HeardInTime(s.log, t) {
      InTimeIsHeard(s.log, t);
    }
    DeedKeepsHistory(s, p, Left(t, false), s');
  }

  lemma WaitKeepsHistory(s: State, p: nat, s': State)
    requires Inv(s) && p < |s.callers| && WaitReturns(s, p, s')
    ensures HistoryOk(s')
  {
    hide ReqId, Heard, HeardInTime, LastWord, TableOk;
    var t := s.callers[p].ticket;
    assert Stands(s.log, s.signals, p, s.callers[p]);
    HeardMore(s.log, Waited(t), t);
    InTimeMore(s.log, Waited(t), t);
    if HeardInTime(s.log, t) {
      InTimeIsHeard(s.log, t);
    }
    DeedKeepsHistory(s, p, Waited(t), s');
  }

  lemma TakenStaysTruthful(slots: seq<Slot>, id: nat, signals: set<nat>, log: seq<Deed>)
    requires AllTruthful(slots, signals, log)
    ensures AllTruthful(Taken(slots, id), signals, log)
  {
    hide LastWord;
  }

  // The call leaves, reporting `deny`.
  lemma LeaveKeepsHistory(s: State, p: nat, deny: bool, s': State)
    requires Inv(s) && p < |s.callers| && Holding(s.callers[p])
    requires var t := s.callers[p].ticket;
      && s' == s.(slots := Taken(s.slots, ReqId(t)), callers := s.callers[p := Outside], log := s.log + [Left(t, deny)])
      && (deny <==> HeardInTime(s.log, t) && LastWord(s.log, ReqId(t)) == Events.Some(true))
    ensures HistoryOk(s')
  {
    hide ReqId, HeardInTime, LastWord, TableOk, Taken;
    var t := s.callers[p].ticket;
    assert s'.log[..|s.log|] == s.log;
    TakenStaysTruthful(s.slots, ReqId(t), s.signals, s.log);
    DeedKeepsHistory(s, p, Left(t, deny), s');
  }

  // What a call takes: the last word once it was heard, allow otherwise.
  lemma TakesLastWord(s: State, p: nat)
    requires Inv(s) && p < |s.callers| && s.callers[p].Woke?
    ensures var Woke(t, signalled) := s.callers[p];
      signalled && Verdict(s.slots, ReqId(t)) <==>
        HeardInTime(s.log, t) && LastWord(s.log, ReqId(t)) == Events.Some(true)
  {
    hide ReqId, LastWord;
    var Woke(t, signalled) := s.callers[p];
    FindsOwn(s, p);
    assert Stands(s.log, s.signals, p, s.callers[p]);
    if HeardInTime(s.log, t) {
      InTimeIsHeard(s.log, t);
    }
    assert Truthful(s.slots[FirstMatch(s.slots, ReqId(t))], s.signals, s.log);
  }

  lemma WithdrawsUnheard(s: State, p: nat)
    requires Inv(s) && p < |s.callers| && s.callers[p].Withdrawing?
    ensures !HeardInTime(s.log, s.callers[p].ticket)
  {
    assert Stands(s.log, s.signals, p, s.callers[p]);
    if HeardInTime(s.log, s.callers[p].ticket) {
      InTimeIsHeard(s.log, s.callers[p].ticket);
    }
  }

  // A step that logs nothing: the caller at `p` moves within its stage.
  lemma QuietKeepsHistory(s: State, p: nat, s': State)
    requires Inv(s) && p < |s.callers| == |s'.callers| && s' == s.(callers := s.callers[p := s'.callers[p]])
    requires Stands(s.log, s.signals, p, s'.callers[p])
    ensures HistoryOk(s')
  {
    hide Stands, TableOk, AllTruthful, AllJustified;
  }

  lemma NumberKeepsHistory(s: State, p: nat, s': State)
    requires Inv(s) && p < |s.callers| && Number(s, p, s')
    ensures HistoryOk(s')
  {
    hide ReqId, Heard, HeardInTime, AllJustified;
    forall i | 0 <= i < |s.slots|
      ensures Truthful(s.slots[i], s'.signals, s.log)
    {
      assert Truthful(s.slots[i], s.signals, s.log);
    }
    forall q: nat | q < |s'.callers|
      ensures Stands(s.log, s'.signals, q, s'.callers[q])
    {
      assert Stands(s.log, s.signals, q, s.callers[q]);
    }
  }

  // A completion speaks for the one caller that holds a slot under its number, and sets that event only.
  lemma CompleteKeepsHistory(s: State, id: nat, deny: bool, s': State)
    requires Inv(s) && Completes(s, id, deny, s')
    ensures HistoryOk(s')
  {
    CompleteKeepsTruth(s, id, deny, s');
    hide Completes, AllTruthful, TableOk, Justified, Stands;
    assert s'.log == s.log + [Said(id, deny)] && s'.callers == s.callers && s'.next == s.next by {
      CompletesShape(s, id, deny, s');
    }
    assert Justified(s'.log, |s.log|) by {
      SaidIsJustified(s.log, id, deny);
    }
    JustifiedMore(s.log, Said(id, deny));
    forall q: nat | q < |s'.callers|
      ensures Stands(s'.log, s'.signals, q, s'.callers[q])
    {
      CompleteStands(s, id, deny, s', q);
    }
  }

  lemma CompletesShape(s: State, id: nat, deny: bool, s': State)
    requires Completes(s, id, deny, s')
    ensures s'.log == s.log + [Said(id, deny)] && s'.callers == s.callers && s'.next == s.next
  {
  }

  lemma SaidIsJustified(log: seq<Deed>, id: nat, deny: bool)
    ensures Justified(log + [Said(id, deny)], |log|)
  {
  }

  lemma CompleteStands(s: State, id: nat, deny: bool, s': State, q: nat)
    requires Inv(s) && Completes(s, id, deny, s') && q < |s.callers|
    ensures Stands(s'.log, s'.signals, q, s.callers[q])
  {
    var c := s.callers[q];
    assert Stands(s.log, s.signals, q, c);
    WakesExactly(s, id, q);
    if Numbered(c) {
      HeardMore(s.log, Said(id, deny), c.ticket);
      InTimeMore(s.log, Said(id, deny), c.ticket);
    }
    hide Heard, HeardInTime, TableOk, HistoryOk, Woken, Completed, ReqId;
  }

  // The event a completion sets is that of the caller holding a slot under its number.
  lemma WakesExactly(s: State, id: nat, q: nat)
    requires TableOk(s) && q < |s.callers|
    ensures q in Rung(Woken(s.slots, id)) <==> Holding(s.callers[q]) && ReqId(s.callers[q].ticket) == id
  {
    hide ReqId;
    if Holding(s.callers[q]) {
      FindsOwn(s, q);
    }
  }

  lemma CompleteKeepsTruth(s: State, id: nat, deny: bool, s': State)
    requires Inv(s) && Completes(s, id, deny, s')
    ensures AllTruthful(s'.slots, s'.signals, s'.log)
  {
    hide ReqId, LastWord, AllStand, AllJustified;
    var n := FirstMatch(s.slots, id);
    forall i | 0 <= i < |s.slots|
      ensures Truthful(s'.slots[i], s'.signals, s'.log)
    {
      LastMore(s.log, Said(id, deny), s.slots[i].reqId);
      if s.slots[i].used && i != n {
        OtherNumber(s, i, id);
        assert Truthful(s.slots[i], s.signals, s.log);
      }
    }
  }

  // ----- each step -----

  lemma CallerKeeps(s: State, p: nat, s': State)
    requires Inv(s) && p < |s.callers| && CallerStep(s, p, s') && Recent(s')
    ensures Inv(s')
  {
    CallerKeepsTable(s, p, s');
    CallerKeepsHistory(s, p, s');
  }

  lemma CallerKeepsTable(s: State, p: nat, s': State)
    requires TableOk(s) && p < |s.callers| && CallerStep(s, p, s') && Recent(s')
    ensures TableOk(s')
  {
    hide Recent, ReqId, Owned, Placed, OnePlace, Tickets;
    match s.callers[p]
    case Outside => OutsideKeepsTable(s, s', p, s'.callers[p]);
    case Numbering => OutsideKeepsTable(s, s', p, s'.callers[p]);
    case Adding(t) =>
      if FirstFree(s.slots) < |s.slots| {
        AddKeepsTable(s, p, s');
      } else {
        OutsideKeepsTable(s, s', p, s'.callers[p]);
      }
    case Publishing(t) => MoveKeepsTable(s, p, s'.callers[p], s');
    case Withdrawing(t) => LeaveKeepsTable(s, p, s');
    case Waiting(t) => MoveKeepsTable(s, p, s'.callers[p], s');
    case Woke(t, signalled) => LeaveKeepsTable(s, p, s');
  }

  lemma CallerKeepsHistory(s: State, p: nat, s': State)
    requires Inv(s) && p < |s.callers| && CallerStep(s, p, s')
    ensures HistoryOk(s')
  {
    assert Stands(s.log, s.signals, p, s.callers[p]);
    hide ReqId, TableOk, AllTruthful, AllJustified, Heard, HeardInTime, LastWord, Verdict, Taken;
    match s.callers[p]
    case Outside => QuietKeepsHistory(s, p, s');
    case Numbering => NumberKeepsHistory(s, p, s');
    case Adding(t) =>
      if FirstFree(s.slots) < |s.slots| {
        AddKeepsHistory(s, p, s');
      } else {
        RefusedKeepsHistory(s, p, s');
      }
    case Publishing(t) => QuietKeepsHistory(s, p, s');
    case Withdrawing(t) =>
      WithdrawsUnheard(s, p);
      LeaveKeepsHistory(s, p, false, s');
    case Waiting(t) => WaitKeepsHistory(s, p, s');
    case Woke(t, signalled) =>
      TakesLastWord(s, p);
      LeaveKeepsHistory(s, p, signalled && Verdict(s.slots, ReqId(t)), s');
  }

  // ----- every run -----

  lemma {:induction false} RunKeepsInv(run: seq<State>, i: nat)
    requires IsRun(run) && i < |run|
    ensures Inv(run[i])
  {
    hide CallerStep, Completes, TableOk, HistoryOk, Init;
    if i == 0 {
      InitKeeps(run[0]);
    } else {
      RunKeepsInv(run, i - 1);
      assert Next(run[i - 1], run[i]);
      if Complete(run[i - 1], run[i]) {
        var id, deny :| Completes(run[i - 1], id, deny, run[i]);
        CompleteKeepsTable(run[i - 1], id, deny, run[i]);
        CompleteKeepsHistory(run[i - 1], id, deny, run[i]);
      } else {
        var p: nat :| p < |run[i - 1].callers| && CallerStep(run[i - 1], p, run[i]);
        CallerKeeps(run[i - 1], p, run[i]);
      }
    }
  }

  lemma InitKeeps(s: State)
    requires Init(s)
    ensures Inv(s)
  {
  }

  // A call denies exactly when the service completed its own number between its Add and the end of its
  // wait, and the last completion of that number before it left said deny. A full table, a failed publish
  // and a timeout all allow.
  lemma DeniesExactlyWhen(run: seq<State>, i: nat, j: nat)
    requires IsRun(run) && i < |run| && j < |run[i].log| && run[i].log[j].Left?
    ensures var log, Left(t, deny) := run[i].log[..j], run[i].log[j];
      deny <==> HeardInTime(log, t) && LastWord(log, ReqId(t)) == Events.Some(true)
  {
    hide IsRun;
    RunKeepsInv(run, i);
    assert Justified(run[i].log, j);
  }

  ghost function Occupied(slots: seq<Slot>): set<nat> {
    set i: nat | i < |slots| && slots[i].used
  }

  ghost function Holders(callers: seq<Caller>): set<nat> {
    set p: nat | p < |callers| && Holding(callers[p])
  }

  lemma OccupiedCount(s: State)
    requires Inv(s)
    ensures |Occupied(s.slots)| == |Holders(s.callers)|
  {
    var who := (k: nat) => if k < |s.slots| && s.slots[k].event.EventOf? then s.slots[k].event.caller else 0;
    forall p | p in Holders(s.callers)
      ensures exists k | k in Occupied(s.slots) :: who(k) == p
    {
      assert HasSlot(s.slots, s.callers, p);
      var k :| 0 <= k < |s.slots| && HeldBy(s.slots[k], s.callers, p);
      assert k in Occupied(s.slots) && who(k) == p;
    }
    InjectiveImageSize(Occupied(s.slots), who, Holders(s.callers));
  }

  lemma FullTable(slots: seq<Slot>)
    ensures FirstFree(slots) == |slots| <==> |Occupied(slots)| == |slots|
  {
    RangeSize(Occupied(slots), |slots|);
    if FirstFree(slots) == |slots| {
      assert forall k: nat | k < |slots| :: k in Occupied(slots);
    } else {
      assert FirstFree(slots) !in Occupied(slots);
    }
  }

  // The table holds the callers between Add and Take, one slot each, whatever path they leave by; no slot
  // keeps the stack event of a caller that has left; and Add fails exactly when sixty-four callers wait.
  lemma SlotsAreTheHolders(run: seq<State>, i: nat)
    requires IsRun(run) && i < |run|
    ensures var s := run[i];
      && |Occupied(s.slots)| == |Holders(s.callers)|
      && (forall k | 0 <= k < |s.slots| && s.slots[k].event.EventOf? :: s.slots[k].event.caller in Holders(s.callers))
      && (FirstFree(s.slots) == |s.slots| <==> |Holders(s.callers)| == 64)
  {
    hide IsRun, Occupied, FirstFree;
    RunKeepsInv(run, i);
    OccupiedCount(run[i]);
    FullTable(run[i].slots);
  }

  // The event a completion sets is on the stack of a caller that is still inside.
  lemma CompletionFindsALiveCaller(run: seq<State>, i: nat, id: nat)
    requires IsRun(run) && i < |run|
    ensures Rung(Woken(run[i].slots, id)) <= Holders(run[i].callers)
    ensures Woken(run[i].slots, id) == NoEvent <==>
      forall p | p in Holders(run[i].callers) :: ReqId(run[i].callers[p].ticket) != id
  {
    hide IsRun, ReqId;
    RunKeepsInv(run, i);
    var s := run[i];
    forall p | p in Holders(s.callers)
      ensures HasSlot(s.slots, s.callers, p)
    {
    }
    if p :| p in Holders(s.callers) && ReqId(s.callers[p].ticket) == id {
      FindsOwn(s, p);
    }
  }

  // ----- a call that denies -----

  ghost function Table(first: Slot): seq<Slot> {
    [first] + seq(CAP - 1, _ => FREE)
  }

  const ASKING := Slot(true, 1, EventOf(0), false)
  const ANSWERED := Slot(true, 1, EventOf(0), true)
  const LEFT := Slot(false, 1, NoEvent, true)

  // One caller adds itself, publishes and waits; the service says deny; the wait ends and the call leaves.
  ghost function DenyRun(): seq<State> {
    [State(Table(FREE), 0, [Outside], {}, []),
     State(Table(FREE), 0, [Numbering], {}, []),
     State(Table(FREE), 1, [Adding(1)], {}, []),
     State(Table(ASKING), 1, [Publishing(1)], {}, [Added(1)]),
     State(Table(ASKING), 1, [Waiting(1)], {}, [Added(1)]),
     State(Table(ANSWERED), 1, [Waiting(1)], {0}, [Added(1), Said(1, true)]),
     State(Table(ANSWERED), 1, [Woke(1, true)], {0}, [Added(1), Said(1, true), Waited(1)]),
     State(Table(LEFT), 1, [Outside], {0}, [Added(1), Said(1, true), Waited(1), Left(1, true)])]
  }

  // Denials happen: the service's deny reaches the call that asked.
  lemma DenyArrives()
    ensures exists run: seq<State>, i: nat :: IsRun(run) && i < |run| && Left(1, true) in run[i].log
  {
    var run := DenyRun();
    CallerAsks();
    CallerGetsDeny();
    hide Next, Init, DenyRun;
    forall i | 0 <= i < |run| - 1
      ensures Next(run[i], run[i + 1])
    {
      assert i == 0 || i == 1 || i == 2 || i == 3 || i == 4 || i == 5 || i == 6;
    }
    assert IsRun(run) && Left(1, true) in run[7].log;
  }

  // What the scans make of a table whose first slot alone was ever used.
  lemma TableScans()
    ensures FirstFree(Table(FREE)) == 0 && Filled(Table(FREE), 1, EventOf(0)) == Table(ASKING)
    ensures Woken(Table(ASKING), 1) == EventOf(0) && Completed(Table(ASKING), 1, true) == Table(ANSWERED)
    ensures Verdict(Table(ANSWERED), 1) && Taken(Table(ANSWERED), 1) == Table(LEFT)
    ensures |Table(FREE)| == CAP && forall i | 0 <= i < CAP :: Table(FREE)[i] == FREE
  {
    var none, asking, answered := Table(FREE), Table(ASKING), Table(ANSWERED);
    assert none[0] == FREE && asking[0] == ASKING && answered[0] == ANSWERED;
    assert FirstFree(none) == 0 && FirstMatch(asking, 1) == 0 && FirstMatch(answered, 1) == 0;
    assert none[0 := ASKING] == asking && asking[0 := ANSWERED] == answered && answered[0 := LEFT] == Table(LEFT);
  }

  lemma CallerAsks()
    ensures var r := DenyRun();
      |r| == 8 && Init(r[0]) && Next(r[0], r[1]) && Next(r[1], r[2]) && Next(r[2], r[3]) && Next(r[3], r[4])
  {
    TableScans();
    hide FirstFree, Filled, Table;
    var r := DenyRun();
    assert Enter(r[0], 0, r[1]) && CallerStep(r[0], 0, r[1]);
    assert Number(r[1], 0, r[2]) && CallerStep(r[1], 0, r[2]);
    assert Add(r[2], 0, r[3]) && CallerStep(r[2], 0, r[3]);
    assert Publish(r[3], 0, r[4]) && CallerStep(r[3], 0, r[4]);
  }

  lemma CallerGetsDeny()
    ensures var r := DenyRun();
      |r| == 8 && Next(r[4], r[5]) && Next(r[5], r[6]) && Next(r[6], r[7]) && Left(1, true) in r[7].log
  {
    TableScans();
    hide FirstFree, FirstMatch, Filled, Completed, Taken, Woken, Verdict, Table;
    var r := DenyRun();
    assert Completes(r[4], 1, true, r[5]) && Complete(r[4], r[5]);
    assert WaitReturns(r[5], 0, r[6]) && CallerStep(r[5], 0, r[6]);
    assert Take(r[6], 0, r[7]) && CallerStep(r[6], 0, r[7]);
  }

  // ----- the ways a call is let through -----

  lemma RecentStays(s: State, p: nat, s': State)
    requires Recent(s) && p < |s.callers| == |s'.callers| && s'.next == s.next
    requires s'.callers == s.callers[p := s'.callers[p]]
    requires Oldest(s'.callers[p], s.next) >= Oldest(s.callers[p], s.next)
    ensures Recent(s')
  {
    forall q | 0 <= q < |s'.callers|
      ensures s'.next < Oldest(s'.callers[q], s'.next) + WORD32
    {
      assert s.next < Oldest(s.callers[q], s.next) + WORD32;
    }
  }

  // A publish may fail, a wait may end unanswered, and a caller that finds the table full leaves at once.
  lemma CallsMayFail(s: State, p: nat)
    requires Recent(s) && p < |s.callers| && (Numbered(s.callers[p]) ==> s.callers[p].ticket <= s.next)
    ensures s.callers[p].Publishing? ==> Next(s, s.(callers := s.callers[p := Withdrawing(s.callers[p].ticket)]))
    ensures s.callers[p].Waiting? && p !in s.signals ==>
      var t := s.callers[p].ticket; Next(s, s.(callers := s.callers[p := Woke(t, false)], log := s.log + [Waited(t)]))
    ensures s.callers[p].Adding? && (forall i | 0 <= i < |s.slots| :: s.slots[i].used) ==>
      var t := s.callers[p].ticket; Next(s, s.(callers := s.callers[p := Outside], log := s.log + [Left(t, false)]))
  {
    hide FirstFree, Filled, ReqId;
    if s.callers[p].Publishing? {
      var s' := s.(callers := s.callers[p := Withdrawing(s.callers[p].ticket)]);
      RecentStays(s, p, s');
      assert Publish(s, p, s') && CallerStep(s, p, s');
    }
    if s.callers[p].Waiting? && p !in s.signals {
      var t := s.callers[p].ticket;
      var s' := s.(callers := s.callers[p := Woke(t, false)], log := s.log + [Waited(t)]);
      RecentStays(s, p, s');
      assert WaitReturns(s, p, s') && CallerStep(s, p, s');
    }
    if s.callers[p].Adding? && forall i | 0 <= i < |s.slots| :: s.slots[i].used {
      var t := s.callers[p].ticket;
      var s' := s.(callers := s.callers[p := Outside], log := s.log + [Left(t, false)]);
      RecentStays(s, p, s');
      assert FirstFree(s.slots) == |s.slots|;
      assert Add(s, p, s') && CallerStep(s, p, s');
    }
  }
}

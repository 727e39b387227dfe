/** The sleep and wake handshake under x86-TSO: every thread's plain stores go through its own FIFO buffer,
    which only a fence or a locked operation forces out. */
module Doorbell {
  import opened RingLayout

  datatype ConsumerState = Running | Sleeping

  datatype Store = ToState(v: ConsumerState) | Elsewhere  // tail, TotalSize and frame bytes

  datatype Consumer =
    | Awake
    | Announced  // SLEEPING stored, the fence still ahead
    | Rechecking
    | Blocked    // waiting on the doorbell

  datatype Producer =
    | Idle
    | Raised(end: nat)   // head_mirror raised to `end`, filling and committing the frame
    | Fenced(end: nat)   // about to load the consumer's state
    | Ringing(end: nat)  // saw SLEEPING, about to signal

  /** `published` is the furthest end of a publish that finished its doorbell check, `failed` that of one
      that gave up after reserving and committed a pad instead, without the check. */
  datatype State = State(mirror: nat, state: ConsumerState, signalled: bool,
                         consumer: Consumer, tail: nat, buffer: seq<Store>,
                         producers: seq<Producer>, buffers: seq<seq<Store>>,
                         published: nat, failed: nat)

  // Which sides issue their fence.
  datatype Fences = Fences(consumer: bool, producer: bool)

  ghost predicate Init(s: State) {
    && s.mirror == s.tail == s.published == s.failed == 0 && s.state == Running && !s.signalled
    && s.consumer == Awake && s.buffer == [] && |s.buffers| == |s.producers|
    && (forall p | 0 <= p < |s.producers| :: s.producers[p] == Idle)
    && (forall p | 0 <= p < |s.buffers| :: s.buffers[p] == [])
  }

  // ----- the consumer -----

  // Takes what lies between tail and the mirror, in part or whole.
  ghost predicate Consume(s: State, s': State) {
    && s.consumer.Awake? && s.tail < s'.tail <= s.mirror
    && s' == s.(tail := s'.tail, buffer := s.buffer + [Elsewhere])
  }

  ghost predicate Announce(s: State, s': State) {
    s.consumer.Awake? && s' == s.(consumer := Announced, buffer := s.buffer + [ToState(Sleeping)])
  }

  ghost predicate ConsumerFence(f: Fences, s: State, s': State) {
    s.consumer.Announced? && (f.consumer ==> s.buffer == []) && s' == s.(consumer := Rechecking)
  }

  // `next` found nothing: block.
  ghost predicate Block(s: State, s': State) {
    s.consumer.Rechecking? && s.mirror == s.tail && s' == s.(consumer := Blocked)
  }

  // `next` skipped a pad and looks again.
  ghost predicate SkipPad(s: State, s': State) {
    && s.consumer.Rechecking? && s.tail < s'.tail <= s.mirror
    && s' == s.(tail := s'.tail, buffer := s.buffer + [Elsewhere])
  }

  // `next` found a frame, committed or not: do not sleep.
  ghost predicate StayAwake(s: State, s': State) {
    s.consumer.Rechecking? && s.mirror != s.tail && s' == s.(consumer := Awake, buffer := s.buffer + [ToState(Running)])
  }

  // The doorbell resets itself as the wait returns; the wait quantum may lapse instead.
  ghost predicate Wake(s: State, s': State) {
    && s.consumer.Blocked? && (s'.signalled ==> s.signalled)
    && s' == s.(consumer := Awake, signalled := s'.signalled, buffer := s.buffer + [ToState(Running)])
  }

  ghost predicate ConsumerDrains(s: State, s': State) {
    && s.buffer != []
    && s' == s.(buffer := s.buffer[1..], state := if s.buffer[0].ToState? then s.buffer[0].v else s.state)
  }

  ghost predicate ConsumerStep(f: Fences, s: State, s': State) {
    || Consume(s, s') || Announce(s, s') || ConsumerFence(f, s, s') || Block(s, s') || SkipPad(s, s')
    || StayAwake(s, s') || Wake(s, s') || ConsumerDrains(s, s')
  }

  // ----- a producer -----

  function RaisedTo(s: State, p: nat, end: nat): State
    requires p < |s.producers|
  {
    s.(mirror := FetchMax(s.mirror, end), producers := s.producers[p := Raised(end)])
  }

  // fetch_max is a locked operation, so it waits for the producer's own buffer; a mirror already past
  // `end` may be left alone without one.
  ghost predicate Raise(s: State, p: nat, s': State)
    requires p < |s.producers| == |s.buffers|
  {
    && s.producers[p].Idle?
    && exists end :: (s.mirror < end ==> s.buffers[p] == []) && s' == RaisedTo(s, p, end)
  }

  // A body byte, or the commit.
  ghost predicate Write(s: State, p: nat, s': State)
    requires p < |s.producers| == |s.buffers|
  {
    s.producers[p].Raised? && s' == s.(buffers := s.buffers[p := s.buffers[p] + [Elsewhere]])
  }

  ghost predicate GiveUp(s: State, p: nat, s': State)
    requires p < |s.producers| == |s.buffers|
  {
    && s.producers[p].Raised?
    && s' == s.(producers := s.producers[p := Idle], failed := FetchMax(s.failed, s.producers[p].end))
  }

  ghost predicate ProducerFence(f: Fences, s: State, p: nat, s': State)
    requires p < |s.producers| == |s.buffers|
  {
    && s.producers[p].Raised? && (f.producer ==> s.buffers[p] == [])
    && s' == s.(producers := s.producers[p := Fenced(s.producers[p].end)])
  }

  ghost predicate LoadState(s: State, p: nat, s': State)
    requires p < |s.producers| == |s.buffers|
  {
    && s.producers[p].Fenced?
    && s' == if s.state == Sleeping then s.(producers := s.producers[p := Ringing(s.producers[p].end)])
             else s.(producers := s.producers[p := Idle], published := FetchMax(s.published, s.producers[p].end))
  }

  ghost predicate Ring(s: State, p: nat, s': State)
    requires p < |s.producers| == |s.buffers|
  {
    && s.producers[p].Ringing?
    && s' == s.(producers := s.producers[p := Idle], signalled := true,
                published := FetchMax(s.published, s.producers[p].end))
  }

  ghost predicate ProducerDrains(s: State, p: nat, s': State)
    requires p < |s.producers| == |s.buffers|
  {
    s.buffers[p] != [] && s' == s.(buffers := s.buffers[p := s.buffers[p][1..]])
  }

  ghost predicate ProducerStep(f: Fences, s: State, p: nat, s': State)
    requires p < |s.producers| == |s.buffers|
  {
    || Raise(s, p, s') || Write(s, p, s') || GiveUp(s, p, s') || ProducerFence(f, s, p, s') || LoadState(s, p, s')
    || Ring(s, p, s') || ProducerDrains(s, p, s')
  }

  ghost predicate Next(f: Fences, s: State, s': State) {
    && |s.producers| == |s.buffers|
    && (ConsumerStep(f, s, s') || exists p: nat | p < |s.producers| :: ProducerStep(f, s, p, s'))
  }

  ghost predicate IsRun(f: Fences, run: seq<State>) {
    && |run| > 0 && Init(run[0])
    && forall i | 0 <= i < |run| - 1 :: Next(f, run[i], run[i + 1])
  }

  // ----- what holds in every reachable state -----

  ghost predicate Between(pr: Producer) {
    !pr.Idle?
  }

  ghost predicate Covers(pr: Producer, mirror: nat) {
    Between(pr) && pr.end == mirror
  }

  // The mirror stands where the furthest publish, finished, given up or under way, left it.
  ghost predicate Explained(s: State) {
    || s.mirror == s.published || s.mirror == s.failed
    || exists p | 0 <= p < |s.producers| :: Covers(s.producers[p], s.mirror)
  }

  ghost predicate Bounded(s: State) {
    && s.tail <= s.mirror && s.published <= s.mirror && s.failed <= s.mirror
    && forall p | 0 <= p < |s.producers| :: Between(s.producers[p]) ==> s.producers[p].end <= s.mirror
  }

  // What memory will hold once the buffer has drained.
  function Settled(buffer: seq<Store>, state: ConsumerState): ConsumerState {
    if buffer == [] then state else
    Settled(buffer[1..], if buffer[0].ToState? then buffer[0].v else state)
  }

  lemma {:induction false} SettledAfter(buffer: seq<Store>, state: ConsumerState, x: Store)
    ensures Settled(buffer + [x], state) == if x.ToState? then x.v else Settled(buffer, state)
  {
    if buffer == [] {
      assert [x][1..] == [];
    } else {
      assert (buffer + [x])[1..] == buffer[1..] + [x];
      SettledAfter(buffer[1..], if buffer[0].ToState? then buffer[0].v else state, x);
    }
  }

  ghost predicate NoStateStore(buffer: seq<Store>) {
    forall k | 0 <= k < |buffer| :: !buffer[k].ToState?
  }

  // From the fence on, memory says SLEEPING and nothing in the buffer will change it.
  ghost predicate SleepVisible(s: State) {
    && (s.consumer.Announced? ==> Settled(s.buffer, s.state) == Sleeping)
    && (s.consumer.Rechecking? || s.consumer.Blocked? ==> s.state == Sleeping && NoStateStore(s.buffer))
  }

  ghost predicate Inv(s: State) {
    && |s.producers| == |s.buffers| && Explained(s) && Bounded(s) && SleepVisible(s)
    && (s.consumer.Blocked? && !s.signalled ==> s.published <= s.tail)
  }

  lemma ConsumerKeeps(f: Fences, s: State, s': State)
    requires f.consumer && Inv(s) && ConsumerStep(f, s, s')
    ensures Inv(s')
  {
    assert s'.producers == s.producers && s'.mirror == s.mirror && s'.published == s.published && s'.failed == s.failed;
    assert Explained(s');
    SettledAfter(s.buffer, s.state, ToState(Sleeping));
  }

  lemma ProducerKeeps(f: Fences, s: State, p: nat, s': State)
    requires Inv(s) && p < |s.producers| && ProducerStep(f, s, p, s')
    ensures Inv(s')
  {
    ProducerExplains(f, s, p, s');
  }

  lemma ProducerExplains(f: Fences, s: State, p: nat, s': State)
    requires Inv(s) && p < |s.producers| && ProducerStep(f, s, p, s')
    ensures |s'.producers| == |s.producers| && Explained(s') && Bounded(s')
  {
    if s.mirror != s.published && s.mirror != s.failed {
      var q :| 0 <= q < |s.producers| && Covers(s.producers[q], s.mirror);
      assert q != p ==> Covers(s'.producers[q], s.mirror);
    }
    assert || Covers(s'.producers[p], s'.mirror) || s'.mirror == s'.published
           || s'.mirror == s'.failed || s'.mirror == s.mirror;
  }

  lemma {:induction false} RunKeepsInv(f: Fences, run: seq<State>, i: nat)
    requires f.consumer && IsRun(f, run) && i < |run|
    ensures Inv(run[i])
  {
    hide ConsumerStep, ProducerStep;
    if i > 0 {
      hide Inv;
      RunKeepsInv(f, run, i - 1);
      assert Next(f, run[i - 1], run[i]);
      if ConsumerStep(f, run[i - 1], run[i]) {
        ConsumerKeeps(f, run[i - 1], run[i]);
      } else {
        var p: nat :| p < |run[i - 1].producers| && ProducerStep(f, run[i - 1], p, run[i]);
        ProducerKeeps(f, run[i - 1], p, run[i]);
      }
    }
  }

  // ----- no lost wakeup -----

  // The consumer sleeps and nothing is on its way to wake it.
  ghost predicate Stranded(s: State) {
    && s.consumer.Blocked? && !s.signalled
    && forall p | 0 <= p < |s.producers| :: !Between(s.producers[p])
  }

  // A sleeping consumer has taken every frame whose publish went through; and the ring is empty exactly when
  // it has also passed every pad of a publish that gave up.
  ghost predicate NothingMissed(s: State) {
    Stranded(s) ==> s.published <= s.tail && (s.tail == s.mirror <==> s.failed <= s.tail)
  }

  ghost predicate NoLostWakeup(f: Fences) {
    forall run: seq<State>, i: nat | IsRun(f, run) && i < |run| :: NothingMissed(run[i])
  }

  // The consumer's fence decides. The producer's adds nothing here: its locked head_mirror update already
  // stands between its store and its load.
  lemma ConsumerFenceDecides(f: Fences)
    ensures NoLostWakeup(f) <==> f.consumer
  {
    if f.consumer {
      forall run: seq<State>, i: nat | IsRun(f, run) && i < |run|
        ensures NothingMissed(run[i])
      {
        RunKeepsInv(f, run, i);
        hide IsRun;
        if Stranded(run[i]) {
          assert forall p | 0 <= p < |run[i].producers| :: !Covers(run[i].producers[p], run[i].mirror);
        }
      }
    } else {
      var run := LostWakeup(f);
      assert !NothingMissed(run[7]);
    }
  }

  // Without the fence: SLEEPING is still buffered when the producer looks.
  ghost function LostRun(): seq<State> {
    var s0 := State(0, Running, false, Awake, 0, [], [Idle], [[]], 0, 0);
    var s1 := s0.(consumer := Announced, buffer := [ToState(Sleeping)]);
    var s2 := s1.(consumer := Rechecking);
    var s3 := s2.(consumer := Blocked);
    var s4 := s3.(mirror := 8, producers := [Raised(8)]);
    var s5 := s4.(producers := [Fenced(8)]);
    var s6 := s5.(producers := [Idle], published := 8);
    var s7 := s6.(buffer := [], state := Sleeping);
    [s0, s1, s2, s3, s4, s5, s6, s7]
  }

  lemma LostWakeup(f: Fences) returns (run: seq<State>)
    requires !f.consumer
    ensures |run| == 8 && IsRun(f, run) && Stranded(run[7]) && run[7].tail < run[7].published
  {
    hide Next, LostRun, Init, Stranded;
    run := LostRun();
    LostEnds();
    ConsumerFallsAsleep(f);
    ProducerLooksTooEarly(f);
    forall i | 0 <= i < |run| - 1
      ensures Next(f, run[i], run[i + 1])
    {
      assert i == 0 || i == 1 || i == 2 || i == 3 || i == 4 || i == 5 || i == 6;
    }
  }

  lemma LostEnds()
    ensures var r := LostRun(); |r| == 8 && Init(r[0]) && Stranded(r[7]) && r[7].tail < r[7].published
  {
  }

  lemma ConsumerFallsAsleep(f: Fences)
    requires !f.consumer
    ensures var r := LostRun();
      |r| == 8 && Next(f, r[0], r[1]) && Next(f, r[1], r[2]) && Next(f, r[2], r[3]) && Next(f, r[6], r[7])
  {
    hide ProducerStep;
    var r := LostRun();
    assert Announce(r[0], r[1]);
    assert ConsumerFence(f, r[1], r[2]);
    assert Block(r[2], r[3]);
    assert ConsumerDrains(r[6], r[7]);
  }

  lemma ProducerLooksTooEarly(f: Fences)
    ensures var r := LostRun(); |r| == 8 && Next(f, r[3], r[4]) && Next(f, r[4], r[5]) && Next(f, r[5], r[6])
  {
    hide ConsumerStep;
    var r := LostRun();
    assert r[4] == RaisedTo(r[3], 0, 8);
    assert Raise(r[3], 0, r[4]) && ProducerStep(f, r[3], 0, r[4]);
    assert ProducerFence(f, r[4], 0, r[5]) && ProducerStep(f, r[4], 0, r[5]);
    assert LoadState(r[5], 0, r[6]) && ProducerStep(f, r[5], 0, r[6]);
  }

  // With every fence in place the ring need not be empty: a publish that gives up commits its pad and
  // returns before the doorbell check, so the consumer sleeps behind a mirror that has moved.
  ghost function PadRun(): seq<State> {
    var s0 := State(0, Running, false, Awake, 0, [], [Idle], [[]], 0, 0);
    var s1 := s0.(consumer := Announced, buffer := [ToState(Sleeping)]);
    var s2 := s1.(buffer := [], state := Sleeping);
    var s3 := s2.(consumer := Rechecking);
    var s4 := s3.(consumer := Blocked);
    var s5 := s4.(mirror := 8, producers := [Raised(8)]);
    var s6 := s5.(producers := [Idle], failed := 8);
    [s0, s1, s2, s3, s4, s5, s6]
  }

  lemma GivenUpPadWaits(f: Fences)
    ensures exists run: seq<State> ::
      IsRun(f, run) && Stranded(run[|run| - 1]) && run[|run| - 1].tail < run[|run| - 1].mirror
  {
    var run := PadRun();
    ConsumerSleepsSoundly(f);
    ProducerGivesUp(f);
    hide Next;
    assert IsRun(f, run);
  }

  lemma ConsumerSleepsSoundly(f: Fences)
    ensures var r := PadRun(); Next(f, r[0], r[1]) && Next(f, r[1], r[2]) && Next(f, r[2], r[3]) && Next(f, r[3], r[4])
  {
    hide ProducerStep;
    var r := PadRun();
    assert Announce(r[0], r[1]);
    assert ConsumerDrains(r[1], r[2]);
    assert ConsumerFence(f, r[2], r[3]);
    assert Block(r[3], r[4]);
  }

  lemma ProducerGivesUp(f: Fences)
    ensures var r := PadRun(); Next(f, r[4], r[5]) && Next(f, r[5], r[6])
  {
    hide ConsumerStep;
    var r := PadRun();
    assert r[5] == RaisedTo(r[4], 0, 8);
    assert ProducerStep(f, r[4], 0, r[5]);
    assert GiveUp(r[5], 0, r[6]) && ProducerStep(f, r[5], 0, r[6]);
  }

  // ----- nobody waits for a step that cannot come -----

  // Where the consumer can go: the fence once its store is out, to sleep when nothing is there, back to work
  // when something is, and out of its sleep as soon as the doorbell has rung, which it resets.
  lemma ConsumerGoesOn(f: Fences, s: State, end: nat)
    requires |s.producers| == |s.buffers|
    ensures s.consumer.Rechecking? && s.tail < end <= s.mirror ==>
      Next(f, s, s.(tail := end, buffer := s.buffer + [Elsewhere]))
    ensures s.consumer.Announced? && s.buffer == [] ==> Next(f, s, s.(consumer := Rechecking))
    ensures s.consumer.Rechecking? && s.mirror == s.tail ==> Next(f, s, s.(consumer := Blocked))
    ensures s.consumer.Rechecking? && s.mirror != s.tail ==>
      Next(f, s, s.(consumer := Awake, buffer := s.buffer + [ToState(Running)]))
    ensures s.consumer.Blocked? && s.signalled ==>
      Next(f, s, s.(consumer := Awake, signalled := false, buffer := s.buffer + [ToState(Running)]))
    ensures s.consumer.Blocked? ==> Next(f, s, s.(consumer := Awake, buffer := s.buffer + [ToState(Running)]))
    ensures s.consumer.Awake? ==> Next(f, s, s.(consumer := Announced, buffer := s.buffer + [ToState(Sleeping)]))
    ensures s.consumer.Awake? && s.tail < end <= s.mirror ==>
      Next(f, s, s.(tail := end, buffer := s.buffer + [Elsewhere]))
    ensures s.buffer != [] && s.buffer[0].ToState? ==>
      Next(f, s, s.(buffer := s.buffer[1..], state := s.buffer[0].v))
  {
    hide ProducerStep;
    var fenced, asleep := s.(consumer := Rechecking), s.(consumer := Blocked);
    var stays := s.(consumer := Awake, buffer := s.buffer + [ToState(Running)]);
    var wakes := s.(consumer := Awake, signalled := false, buffer := s.buffer + [ToState(Running)]);
    var takes := s.(tail := end, buffer := s.buffer + [Elsewhere]);
    assert s.consumer.Rechecking? && s.tail < end <= s.mirror ==> SkipPad(s, takes);
    assert s.consumer.Announced? && s.buffer == [] ==> ConsumerFence(f, s, fenced);
    assert s.consumer.Rechecking? && s.mirror == s.tail ==> Block(s, asleep);
    assert s.consumer.Rechecking? && s.mirror != s.tail ==> StayAwake(s, stays);
    assert s.consumer.Blocked? ==> Wake(s, stays) && Wake(s, wakes);
    assert s.consumer.Awake? ==> Announce(s, s.(consumer := Announced, buffer := s.buffer + [ToState(Sleeping)]));
    assert s.consumer.Awake? && s.tail < end <= s.mirror ==> Consume(s, takes);
    if s.buffer != [] && s.buffer[0].ToState? {
      assert ConsumerDrains(s, s.(buffer := s.buffer[1..], state := s.buffer[0].v));
    }
  }

  // A publish raises the mirror as far as it likes, and its stores may wait in its buffer.
  lemma ProducerStarts(f: Fences, s: State, p: nat, end: nat)
    requires p < |s.producers| == |s.buffers|
    ensures s.producers[p].Idle? && (s.mirror < end ==> s.buffers[p] == []) ==> Next(f, s, RaisedTo(s, p, end))
    ensures RaisedTo(s, p, end).mirror == if s.mirror < end then end else s.mirror
    ensures s.producers[p].Raised? ==> Next(f, s, s.(buffers := s.buffers[p := s.buffers[p] + [Elsewhere]]))
    ensures s.buffers[p] != [] ==> Next(f, s, s.(buffers := s.buffers[p := s.buffers[p][1..]]))
  {
    hide ConsumerStep;
    if s.producers[p].Idle? && (s.mirror < end ==> s.buffers[p] == []) {
      assert Raise(s, p, RaisedTo(s, p, end)) && ProducerStep(f, s, p, RaisedTo(s, p, end));
    }
    if s.producers[p].Raised? {
      var s' := s.(buffers := s.buffers[p := s.buffers[p] + [Elsewhere]]);
      assert Write(s, p, s') && ProducerStep(f, s, p, s');
    }
    if s.buffers[p] != [] {
      var s' := s.(buffers := s.buffers[p := s.buffers[p][1..]]);
      assert ProducerDrains(s, p, s') && ProducerStep(f, s, p, s');
    }
  }

  // A publish that is about to look sees SLEEPING, and one that saw it sets the doorbell.
  lemma ProducerGoesOn(f: Fences, s: State, p: nat)
    requires p < |s.producers| == |s.buffers|
    ensures s.producers[p].Raised? && s.buffers[p] == [] ==>
      Next(f, s, s.(producers := s.producers[p := Fenced(s.producers[p].end)]))
    ensures s.producers[p].Fenced? && s.state == Sleeping ==>
      Next(f, s, s.(producers := s.producers[p := Ringing(s.producers[p].end)]))
    ensures s.producers[p].Ringing? ==>
      Next(f, s, s.(producers := s.producers[p := Idle], signalled := true,
                    published := if s.published < s.producers[p].end then s.producers[p].end else s.published))
  {
    hide ConsumerStep;
    var pr := s.producers[p];
    if pr.Raised? && s.buffers[p] == [] {
      var s' := s.(producers := s.producers[p := Fenced(pr.end)]);
      assert ProducerFence(f, s, p, s') && ProducerStep(f, s, p, s');
    } else if pr.Fenced? && s.state == Sleeping {
      var s' := s.(producers := s.producers[p := Ringing(pr.end)]);
      assert LoadState(s, p, s') && ProducerStep(f, s, p, s');
    } else if pr.Ringing? {
      var s' := s.(producers := s.producers[p := Idle], signalled := true, published := FetchMax(s.published, pr.end));
      assert Ring(s, p, s') && ProducerStep(f, s, p, s');
    }
  }

  // The consumer falls asleep, a frame is published, the doorbell rings, the frame is taken.
  ghost function WokenRun(): seq<State> {
    var s0 := State(0, Running, false, Awake, 0, [], [Idle], [[]], 0, 0);
    var s1 := s0.(consumer := Announced, buffer := [ToState(Sleeping)]);
    var s2 := s1.(buffer := [], state := Sleeping);
    var s3 := s2.(consumer := Rechecking);
    var s4 := s3.(consumer := Blocked);
    var s5 := s4.(mirror := 8, producers := [Raised(8)]);
    var s6 := s5.(producers := [Fenced(8)]);
    var s7 := s6.(producers := [Ringing(8)]);
    var s8 := s7.(producers := [Idle], signalled := true, published := 8);
    var s9 := s8.(consumer := Awake, signalled := false, buffer := [ToState(Running)]);
    var s10 := s9.(tail := 8, buffer := [ToState(Running), Elsewhere]);
    [s0, s1, s2, s3, s4, s5, s6, s7, s8, s9, s10]
  }

  lemma DoorbellDelivers(f: Fences)
    ensures exists run: seq<State> ::
      IsRun(f, run) && |run| == 11 && run[4].consumer.Blocked? && run[10].tail == run[10].published == 8
  {
    hide Next, Init, WokenRun;
    var run := WokenRun();
    WokenEnds();
    FallsAsleep(f);
    RingsDoorbell(f);
    WakesAndTakes(f);
    forall i | 0 <= i < |run| - 1
      ensures Next(f, run[i], run[i + 1])
    {
      assert i == 0 || i == 1 || i == 2 || i == 3 || i == 4 || i == 5 || i == 6 || i == 7 || i == 8 || i == 9;
    }
    assert IsRun(f, run);
  }

  lemma WokenEnds()
    ensures var r := WokenRun();
      |r| == 11 && Init(r[0]) && r[4].consumer.Blocked? && r[10].tail == r[10].published == 8
  {
  }

  lemma FallsAsleep(f: Fences)
    ensures var r := WokenRun();
      |r| == 11 && Next(f, r[0], r[1]) && Next(f, r[1], r[2]) && Next(f, r[2], r[3]) && Next(f, r[3], r[4])
  {
    hide ProducerStep;
    var r := WokenRun();
    assert Announce(r[0], r[1]);
    assert ConsumerDrains(r[1], r[2]);
    assert ConsumerFence(f, r[2], r[3]);
    assert Block(r[3], r[4]);
  }

  lemma RingsDoorbell(f: Fences)
    ensures var r := WokenRun();
      |r| == 11 && Next(f, r[4], r[5]) && Next(f, r[5], r[6]) && Next(f, r[6], r[7]) && Next(f, r[7], r[8])
  {
    hide ConsumerStep;
    var r := WokenRun();
    assert r[5] == RaisedTo(r[4], 0, 8);
    assert Raise(r[4], 0, r[5]) && ProducerStep(f, r[4], 0, r[5]);
    assert ProducerFence(f, r[5], 0, r[6]) && ProducerStep(f, r[5], 0, r[6]);
    assert LoadState(r[6], 0, r[7]) && ProducerStep(f, r[6], 0, r[7]);
    assert Ring(r[7], 0, r[8]) && ProducerStep(f, r[7], 0, r[8]);
  }

  lemma WakesAndTakes(f: Fences)
    ensures var r := WokenRun(); |r| == 11 && Next(f, r[8], r[9]) && Next(f, r[9], r[10])
  {
    hide ProducerStep;
    var r := WokenRun();
    assert Wake(r[8], r[9]) && ConsumerStep(f, r[8], r[9]);
    assert Consume(r[9], r[10]) && ConsumerStep(f, r[9], r[10]);
  }
}

/** The kernel engine: v0.0.2 on fixed arrays. Hitting a ceiling is never an error, the event or the
    automaton is passed over. */
module BoundedEngine {
  import opened Events
  import opened Multisets
  import opened Storylines
  import opened Offers
  import opened LineTable
  import opened DagSpec
  import DagMeaning
  import opened ProbeMap
  import opened Slab

  function ZeroLine(members: nat, automata: nat): Line {
    Line(false, 0, seq(members, _ => 0), 0, seq(automata, _ => 0), seq(automata, _ => {}), 0)
  }

  function Cleared(l: Line): Line {
    l.(used := true, nMembers := 0, nAuto := 0, last := 0)
  }

  // The record of a storyline whose one member is the entity in `slot`.
  function Opened(l: Line, slot: nat): Line
    requires |l.members| > 0
  {
    l.(members := l.members[0 := slot], nMembers := 1)
  }

  lemma OpenedIsFresh(lines: seq<Line>, s: Shape, keyAt: map<nat, Key>, i: nat, slot: nat)
    requires SlabOk(lines, s, keyAt) && i < |lines| && !lines[i].used && s.members > 0
    ensures |Cleared(lines[i]).members| > 0 && FreshLine(Opened(Cleared(lines[i]), slot), s, slot)
  {
    assert LineOk(lines[i], s, keyAt);
  }

  lemma SameMembers(l: Line, r: Line, keyAt: map<nat, Key>)
    requires l.nMembers == r.nMembers <= |l.members| && l.members == r.members
    ensures MembersOf(l, keyAt) == MembersOf(r, keyAt)
  {
  }

  lemma NoLines(lines: seq<Line>, s: Shape, keyAt: map<nat, Key>)
    requires forall i | 0 <= i < |lines| :: lines[i] == ZeroLine(s.members, s.automata)
    ensures SlabOk(lines, s, keyAt) && Consistent(map[], SlotsOf(lines, s, keyAt))
  {
  }

  class Engine {
    const rules: Rules
    const capMembers: nat
    const capAuto: nat
    const ent: Map<nat>       // LINE: entity key to storyline record
    const lines: array<Line>  // the storyline slab
    const dis: Map<OpSet>     // DISARMED: actor key to stripped operations

    ghost predicate Separate()
      reads ent, dis
    {
      var ofEnt: set<object> := {ent, ent.used, ent.keys, ent.vals};
      var ofDis: set<object> := {dis, dis.used, dis.keys, dis.vals};
      ofEnt !! ofDis && lines !in ofEnt && lines !in ofDis
    }

    ghost function Footprint(): set<object> {
      {ent, ent.used, ent.keys, ent.vals, lines, dis, dis.used, dis.keys, dis.vals}
    }

    function TheShape(): Shape {
      Shape(capMembers, capAuto, |rules|)
    }

    ghost predicate Valid()
      reads this, ent, ent.used, ent.keys, ent.vals, lines, dis, dis.used, dis.keys, dis.vals
    {
      && BitsFit(rules) && Separate() && ent.Valid() && dis.Valid() && capMembers > 0
      && SlabOk(lines[..], TheShape(), ent.keyAt)
      && Consistent(ent.content, Table())
    }

    ghost function Table(): Slots<Mask>
      reads this, ent, lines
      requires SlabOk(lines[..], TheShape(), ent.keyAt)
    {
      SlotsOf(lines[..], TheShape(), ent.keyAt)
    }

    ghost function Lines(): Lines<Mask>
      reads this, ent, ent.used, ent.keys, ent.vals, lines, dis, dis.used, dis.keys, dis.vals
      requires Valid()
    {
      View(ent.content, Table())
    }

    ghost function Observed(): State<Mask>
      reads this, ent, ent.used, ent.keys, ent.vals, lines, dis, dis.used, dis.keys, dis.vals
      requires Valid()
    {
      State(Lines(), dis.content)
    }

    function Ceilings(): Caps {
      Caps(AtMost(ent.used.Length), AtMost(lines.Length), AtMost(capMembers), AtMost(capAuto), AtMost(dis.used.Length))
    }

    // Each stored entity sits in the member list of the one live record LINE names for it, at one
    // position, and in no other list; a freed record holds nothing; the counters respect the ceilings.
    lemma EachEntitySitsOnce(slot: nat)
      requires Valid() && slot in ent.keyAt
      ensures ent.keyAt[slot] in ent.content
      ensures var l := ent.content[ent.keyAt[slot]];
        && l < lines.Length && lines[l].used
        && exists j :: SitsAt(l, j, slot) && forall l', j' | SitsAt(l', j', slot) :: l' == l && j' == j
      ensures forall l | 0 <= l < lines.Length ::
        lines[l].nMembers <= capMembers && lines[l].nAuto <= capAuto
        && (!lines[l].used ==> lines[l].nMembers == 0 && lines[l].nAuto == 0)
    {
      hide Reads;
      ent.Bijection();
      var k := ent.keyAt[slot];
      var l := ent.content[k];
      assert InSlot(Table(), l, k);
      var j :| 0 <= j < lines[l].nMembers && KeyIn(ent.keyAt, lines[l].members[j]) == k;
      assert SitsAt(l, j, slot);
      forall l', j' | SitsAt(l', j', slot)
        ensures l' == l && j' == j
      {
        assert KeyIn(ent.keyAt, lines[l'].members[j']) == k;
        assert InSlot(Table(), l', k);
      }
      forall i | 0 <= i < lines.Length
        ensures LineFits(lines[i], TheShape())
      {
        assert LineOk(lines[..][i], TheShape(), ent.keyAt);
      }
    }

    ghost predicate SitsAt(l: int, j: int, slot: nat)
      reads lines
    {
      0 <= l < lines.Length && 0 <= j < lines[l].nMembers <= |lines[l].members| && lines[l].members[j] == slot
    }

    // Zeroed tables: nothing known, nothing disarmed.
    constructor (rules: Rules, capEnt: nat, capLines: nat, capMembers: nat, capAuto: nat, capDis: nat, hash: Key -> nat)
      requires BitsFit(rules) && capEnt > 0 && capMembers > 0 && capDis > 0
      ensures Valid() && this.rules == rules && Observed() == State(map[], map[])
      ensures Ceilings() == Caps(AtMost(capEnt), AtMost(capLines), AtMost(capMembers), AtMost(capAuto), AtMost(capDis))
      ensures fresh(Footprint())
    {
      hide Reads, SlabOk, Consistent, SlotsOf, LineTable.View;
      this.rules := rules;
      this.capMembers := capMembers;
      this.capAuto := capAuto;
      ent := new Map(capEnt, hash, 0);
      dis := new Map(capDis, hash, {});
      lines := new Line[capLines](_ => ZeroLine(capMembers, capAuto));
      new;
      assert forall i | 0 <= i < capLines :: lines[..][i] == ZeroLine(capMembers, capAuto);
      NoLines(lines[..], TheShape(), ent.keyAt);
      EmptyView<Mask>(SlotsOf(lines[..], TheShape(), ent.keyAt));
    }

    // The first free record.
    method AllocLine() returns (r: Option<nat>)
      requires Valid()
      modifies lines
      ensures r.None? ==> lines[..] == old(lines[..]) && forall i | 0 <= i < lines.Length :: lines[i].used
      ensures r.Some? ==> r.value < lines.Length && !old(lines[..])[r.value].used
      ensures r.Some? ==> lines[..] == old(lines[..])[r.value := Cleared(old(lines[..])[r.value])]
    {
      for i := 0 to lines.Length
        invariant lines[..] == old(lines[..])
        invariant forall j | 0 <= j < i :: lines[j].used
      {
        if !lines[i].used {
          lines[i] := Cleared(lines[i]);
          return Some(i);
        }
      }
      r := None;
    }

    // A storyline of its own for the unknown `key`, whose lookup ended at the free entity slot `slot`.
    method OpenLine(key: Key, slot: nat) returns (r: Option<nat>)
      requires Valid() && ent.CanPut(key, slot)
      modifies ent, ent.used, ent.keys, ent.vals, lines
      ensures Valid() && dis.content == old(dis.content)
      ensures r.None? ==> Lines() == old(Lines()) && |old(Lines()).Values| == lines.Length
      ensures r.Some? ==> Lines() == old(Lines())[key := Story({key}, multiset{}, 0)]
      ensures r.Some? ==> |old(Lines()).Values| < lines.Length
      ensures ent.content == if r.Some? then old(ent.content)[key := r.value] else old(ent.content)
    {
      hide SlotsOf, Consistent, SlabOk, Reads, PathTaken, FreshLine, LineTable.View;
      ghost var lines0, keyAt0, line0 := lines[..], ent.keyAt, ent.content;
      FreeRecordCount(lines0, TheShape(), keyAt0, line0);
      r := AllocLine();
      if r.Some? {
        OpenedIsFresh(lines0, TheShape(), keyAt0, r.value, slot);
        lines[r.value] := Opened(lines[r.value], slot);
        assert lines[..] == lines0[r.value := Opened(Cleared(lines0[r.value]), slot)];
        SlotsOfNewLine(lines0, TheShape(), keyAt0, line0, slot, key, r.value, lines[r.value]);
        ent.Put(slot, key, r.value);
        assert dis.Valid() && Separate();
      }
    }

    // get-or-create the storyline of `key`
    method ResolveLine(key: Key) returns (r: Option<nat>)
      requires Valid()
      modifies ent, ent.used, ent.keys, ent.vals, lines
      ensures Valid() && dis.content == old(dis.content)
      ensures match r
        case None => Lines() == old(Lines()) && Resolve(Ceilings(), old(Lines()), key) == None
        case Some(l) =>
          Resolve(Ceilings(), old(Lines()), key) == Some(Lines()) && key in ent.content && ent.content[key] == l
      ensures forall k | k in old(ent.content) :: k in ent.content && ent.content[k] == old(ent.content)[k]
    {
      hide SlotsOf, Consistent, SlabOk, Reads, PathTaken;
      ViewKeys(ent.content, Table());
      var at := ent.Lookup(key);
      match at {
        case Found(slot) => r := Some(ent.vals[slot]);
        case Exhausted => r := None;
        case Vacant(slot) => r := OpenLine(key, slot);
      }
    }

    // Every entity of record `m` now belongs to storyline `dst`.
    method RedirectEntities(m: Line, dst: nat)
      requires ent.Valid() && LineOk(m, TheShape(), ent.keyAt)
      modifies ent, ent.vals
      ensures ent.Valid() && ent.keyAt == old(ent.keyAt)
      ensures ent.content == Redirected(old(ent.content), MembersOf(m, ent.keyAt), dst)
    {
      hide Reads;
      ent.Bijection();
      assert FirstMembers(m, 0, ent.keyAt) == {};
      for k := 0 to m.nMembers
        invariant ent.Valid() && ent.keyAt == old(ent.keyAt)
        invariant ent.content == Redirected(old(ent.content), FirstMembers(m, k, ent.keyAt), dst)
      {
        FirstMembersNext(m, k, ent.keyAt);
        ent.Set(m.members[k], dst);
      }
    }

    // Record `dst` takes over the members and automata of record `src`, which is freed.
    method JoinLines(dst: nat, src: nat)
      requires Valid() && dst != src && Live(Table(), dst) && Live(Table(), src)
      requires dst < lines.Length && src < lines.Length && lines[dst].used && lines[src].used
      requires lines[dst].nMembers + lines[src].nMembers <= capMembers && lines[dst].nAuto + lines[src].nAuto <= capAuto
      modifies ent, ent.vals, lines
      ensures Valid() && ent.content.Keys == old(ent.content.Keys)
      ensures Lines() == Install(old(Lines()), Union(old(Table()[dst].value), old(Table()[src].value)))
    {
      hide Reads, SlotsOf, Consistent, Absorbs;
      ghost var lines0, keyAt0, line0, slots0 := lines[..], ent.keyAt, ent.content, Table();
      MembersShown(lines0, TheShape(), keyAt0, src);
      var moved := lines[src];
      RedirectEntities(moved, dst);
      var joined := AppendLists(lines[dst], moved, TheShape());
      lines[dst] := joined;
      lines[src] := moved.(used := false, nMembers := 0, nAuto := 0);
      assert lines[..] == lines0[dst := joined][src := lines[src]];
      SlotsOfMerge(lines0, TheShape(), keyAt0, line0, src, dst, joined, lines[src]);
      ViewOfMerge(line0, slots0, src, dst);
    }

    // Union by size; over a ceiling the two storylines stay apart.
    method MergeLines(x: nat, y: nat)
      requires Valid() && x != y && Live(Table(), x) && Live(Table(), y)
      modifies ent, ent.vals, lines
      ensures Valid() && ent.content.Keys == old(ent.content.Keys)
      ensures var sx, sy := old(Table()[x].value), old(Table()[y].value);
        Lines() == if MergeFits(Ceilings(), sx, sy) then Install(old(Lines()), Union(sx, sy)) else old(Lines())
    {
      hide Reads, SlotsOf, Consistent, SlabOk;
      ent.Bijection();
      SlotCounts(lines[..], TheShape(), ent.keyAt, ent.content, x);
      SlotCounts(lines[..], TheShape(), ent.keyAt, ent.content, y);
      UnionCommutes(Table()[x].value, Table()[y].value);
      var dst, src := x, y;
      if lines[x].nMembers < lines[y].nMembers {
        dst, src := y, x;
      }
      if lines[dst].nMembers + lines[src].nMembers > capMembers || lines[dst].nAuto + lines[src].nAuto > capAuto {
        return;
      }
      JoinLines(dst, src);
    }

    method MergeEndpoints(a: Key, o: Key, x: nat, y: nat)
      requires Valid() && a in ent.content && o in ent.content && ent.content[a] == x && ent.content[o] == y
      modifies ent, ent.vals, lines
      ensures Valid() && ent.content.Keys == old(ent.content.Keys) && a in old(Lines()) && o in old(Lines())
      ensures Lines() == Merge(Ceilings(), old(Lines()), a, o)
    {
      hide Reads, SlotsOf, Consistent, SlabOk, Merge, MergeFits, Install, LineTable.View;
      ViewKeys(ent.content, Table());
      SameSlot(ent.content, Table(), a, o);
      if x != y {
        MergeApart(Ceilings(), Lines(), a, o);
        MergeLines(x, y);
      } else {
        MergeWithin(Ceilings(), Lines(), a, o);
      }
    }

    // Get-or-create the storylines of both endpoints; false at the first failed lookup.
    method ResolveBoth(a: Key, o: Key) returns (ok: bool, x: nat, y: nat)
      requires Valid()
      modifies ent, ent.used, ent.keys, ent.vals, lines
      ensures Valid() && dis.content == old(dis.content)
      ensures !ok ==> Link(Ceilings(), old(Lines()), a, o) == Full(Lines())
      ensures ok ==> a in ent.content && ent.content[a] == x && o in ent.content && ent.content[o] == y
      ensures ok ==> Resolve(Ceilings(), old(Lines()), a).Some?
      ensures ok ==> Resolve(Ceilings(), Resolve(Ceilings(), old(Lines()), a).value, o) == Some(Lines())
    {
      hide Reads, SlotsOf, Consistent, SlabOk, Resolve, Install, LineTable.View, Link;
      ghost var l0 := Lines();
      LinkFull(Ceilings(), l0, a, o);
      var sa := ResolveLine(a);
      if sa.None? {
        return false, 0, 0;
      }
      var so := ResolveLine(o);
      if so.None? {
        return false, 0, 0;
      }
      return true, sa.value, so.value;
    }

    // The storyline of `a` once both endpoints are known and merged; None when a table is full.
    method Unify(a: Key, o: Key) returns (r: Option<nat>)
      requires Valid()
      modifies ent, ent.used, ent.keys, ent.vals, lines
      ensures Valid() && dis.content == old(dis.content)
      ensures Link(Ceilings(), old(Lines()), a, o) == if r.Some? then Linked(Lines()) else Full(Lines())
      ensures r.Some? ==> a in ent.content && r.value == ent.content[a]
    {
      hide Reads, SlotsOf, Consistent, SlabOk, Resolve, Merge, MergeFits, Install, LineTable.View, Link;
      ghost var l0 := Lines();
      var ok, x, y := ResolveBoth(a, o);
      if !ok {
        return None;
      }
      ghost var l2 := Lines();
      MergeEndpoints(a, o, x, y);
      LinkedBy(Ceilings(), l0, Resolve(Ceilings(), l0, a).value, l2, a, o);
      var l := RecordOf(a);
      r := Some(l);
    }

    method RecordOf(key: Key) returns (l: nat)
      requires ent.Valid() && key in ent.content
      ensures l == ent.content[key]
    {
      hide Reads, PathTaken;
      var at := ent.Lookup(key);
      l := ent.vals[at.slot];
    }

    // `DISARMED[actor] |= ops`, unless the actor is new and the table is full.
    method Strip(actor: Key, ops: OpSet)
      requires dis.Valid()
      modifies dis, dis.used, dis.keys, dis.vals
      ensures dis.Valid()
      ensures dis.content == DisarmActor(Ceilings(), old(dis.content), actor, Effect(Disarmed, ops))
    {
      hide Reads, PathTaken;
      var at := dis.Lookup(actor);
      match at {
        case Found(slot) => dis.Set(slot, dis.vals[slot] + ops);
        case Vacant(slot) => dis.Put(slot, actor, ops);
        case Exhausted =>
      }
    }

    method ApplyAction(action: Option<Action>, actor: Key) returns (v: Verdict)
      requires dis.Valid()
      modifies dis, dis.used, dis.keys, dis.vals
      ensures dis.Valid() && v == ApplyEffect(action).verdict
      ensures dis.content == DisarmActor(Ceilings(), old(dis.content), actor, ApplyEffect(action))
    {
      hide Reads;
      match action {
        case None => v := Inspect;
        case Some(Block) => v := Blocked;
        case Some(Disarm(ops)) =>
          Strip(actor, ops);
          v := Disarmed;
      }
    }

    // Offers the event to every step of one automaton, in declaration order.
    method OfferSteps(steps: seq<DagStep>, start: Mask, e: Event, ttps: seq<Ttp>, verdict: Verdict)
      returns (done: Mask, v: Verdict)
      requires dis.Valid()
      modifies dis, dis.used, dis.keys, dis.vals
      ensures dis.Valid()
      ensures var p := Pass(steps, |steps|, start, e.op, ttps);
        && done == p.done && v == verdict.Max(p.effect.verdict)
        && dis.content == DisarmActor(Ceilings(), old(dis.content), e.actor, p.effect)
    {
      hide Reads, DisarmActor;
      done, v := start, verdict;
      DisarmNothing(Ceilings(), dis.content, e.actor);
      for i := 0 to |steps|
        invariant dis.Valid()
        invariant var p := Pass(steps, i, start, e.op, ttps);
          && done == p.done && v == verdict.Max(p.effect.verdict)
          && dis.content == DisarmActor(Ceilings(), old(dis.content), e.actor, p.effect)
      {
        if Commits(steps[i], done, e.op, ttps) {
          PassHonest(steps, i, start, e.op, ttps);
          DisarmTwice(Ceilings(), old(dis.content), e.actor, Pass(steps, i, start, e.op, ttps).effect,
              ApplyEffect(steps[i].action));
          done := done + {steps[i].bit};
          var reaction := ApplyAction(steps[i].action, e.actor);
          v := v.Max(reaction);
        }
      }
    }

    // Every automaton of the record, in list order.
    method OfferAll(l: Line, e: Event, ttps: seq<Ttp>) returns (r: Line, v: Verdict)
      requires dis.Valid() && LineFits(l, TheShape())
      modifies dis, dis.used, dis.keys, dis.vals
      ensures dis.Valid() && LineFits(r, TheShape()) && r == l.(autoDone := r.autoDone)
      ensures Offered(Ceilings(), Advanced(rules, e.op, ttps), Reaction(rules, e.op, ttps), e.actor,
                      multiset(AutosOf(l)), multiset(AutosOf(r)), Ignore, old(dis.content), v, dis.content)
    {
      hide Reads, Offered;
      ghost var f, g := Advanced(rules, e.op, ttps), Reaction(rules, e.op, ttps);
      ReactionHonest(rules, e.op, ttps);
      r, v := l, Ignore;
      OfferedNone(Ceilings(), f, g, e.actor, v, dis.content);
      for ai := 0 to l.nAuto
        invariant dis.Valid() && LineFits(r, TheShape()) && r == l.(autoDone := r.autoDone)
        invariant r.autoDone[ai..] == l.autoDone[ai..]
        invariant Offered(Ceilings(), f, g, e.actor, multiset(AutosOf(l)[..ai]), multiset(AutosOf(r)[..ai]),
                          Ignore, old(dis.content), v, dis.content)
      {
        ghost var before, v1, d1 := r, v, dis.content;
        var done;
        done, v := OfferSteps(rules[l.autoPid[ai]].steps, r.autoDone[ai], e, ttps, v);
        r := r.(autoDone := r.autoDone[ai := done]);
        AutosNext(l, ai);
        AutosNext(r, ai);
        assert AutosOf(r)[..ai] == AutosOf(before)[..ai];
        OfferedOne(Ceilings(), f, g, e.actor, AutosOf(l)[ai], v1, d1);
        OfferedBoth(Ceilings(), f, g, e.actor, multiset(AutosOf(l)[..ai]), multiset(AutosOf(r)[..ai]),
                    multiset{AutosOf(l)[ai]}, multiset{AutosOf(r)[ai]}, Ignore, old(dis.content), v1, d1,
                    v, dis.content);
      }
      assert AutosOf(l)[..l.nAuto] == AutosOf(l) && AutosOf(r)[..r.nAuto] == AutosOf(r);
    }

    // Seeds, then advances: the storyline record after the event.
    method AdvanceRecord(l: Line, ghost keyAt: map<nat, Key>, e: Event, ttps: seq<Ttp>) returns (r: Line, v: Verdict)
      requires dis.Valid() && LineFits(l, TheShape()) && l.used
      modifies dis, dis.used, dis.keys, dis.vals
      ensures dis.Valid() && LineFits(r, TheShape())
      ensures r.used && r.nMembers == l.nMembers && r.members == l.members
      ensures StoryAt(r, keyAt) == AdvanceStory(Ceilings(), rules, StoryAt(l, keyAt), e, ttps)
      ensures v == StoryEffect(Ceilings(), rules, StoryAt(l, keyAt), e, ttps).verdict
      ensures dis.content == DisarmActor(Ceilings(), old(dis.content), e.actor,
                                         StoryEffect(Ceilings(), rules, StoryAt(l, keyAt), e, ttps))
    {
      hide Reads, Image, Total, Advanced, Reaction, Seeds, DisarmActor;
      var seeded := SeedRecord(rules, l.(last := e.ts), TheShape(), e.op, ttps);
      assert AutosOf(l.(last := e.ts)) == AutosOf(l);
      r, v := OfferAll(seeded, e, ttps);
      SameMembers(l, r, keyAt);
    }

    method AdvanceLine(li: nat, e: Event, ttps: seq<Ttp>) returns (v: Verdict)
      requires Valid() && e.actor in ent.content && ent.content[e.actor] == li
      modifies lines, dis, dis.used, dis.keys, dis.vals
      ensures Valid() && e.actor in old(Lines())
      ensures Outcome(Observed(), v) == Advance(Ceilings(), rules, old(Observed()), e, ttps)
    {
      hide Reads, SlotsOf, Consistent, SlabOk, StoryAt, AdvanceStory, StoryEffect, DisarmActor, Install, LineTable.View;
      ghost var lines0 := lines[..];
      ViewKeys(ent.content, Table());
      SameSlot(ent.content, Table(), e.actor, e.actor);
      ent.Bijection();
      SlotCounts(lines0, TheShape(), ent.keyAt, ent.content, li);
      MembersShown(lines0, TheShape(), ent.keyAt, li);
      var after;
      after, v := AdvanceRecord(lines[li], ent.keyAt, e, ttps);
      lines[li] := after;
      assert lines[..] == lines0[li := after];
      RecordRewritten(lines0, TheShape(), ent.keyAt, ent.content, li, after);
    }

    // One event: gate, link, advance. Every ceiling shows as the verdict Ignore or a skipped automaton.
    method OnEvent(e: Event, ttps: seq<Ttp>) returns (v: Verdict)
      requires Valid()
      modifies Footprint()
      ensures Valid()
      ensures Outcome(Observed(), v) == DagSpec.OnEvent(Ceilings(), rules, old(Observed()), e, ttps)
      ensures DagMeaning.RightAnswer(Ceilings(), rules, old(Observed()), e, ttps, Observed(), v)
    {
      hide Reads, SlotsOf, Consistent, SlabOk, Link, Advance, LineTable.View, DagMeaning.RightAnswer;
      ViewPartition(ent.content, Table());
      DagMeaning.AnswersRightly(Ceilings(), rules, Observed(), e, ttps);
      var at := dis.Lookup(e.actor);
      if at.Found? && Contains(dis.vals[at.slot], e.op) {
        return Blocked;
      }
      var line := Unify(e.actor, e.target);
      if line.None? {
        return Ignore;
      }
      v := AdvanceLine(line.value, e, ttps);
    }
  }

  // Seeds of pattern `pid`, as far as the automaton list has room.
  method SeedRecordFrom(steps: seq<DagStep>, pid: nat, l: Line, s: Shape, op: Op, ttps: seq<Ttp>) returns (r: Line)
    requires LineFits(l, s) && pid < s.patterns && l.used
    ensures LineFits(r, s) && r == l.(nAuto := r.nAuto, autoPid := r.autoPid, autoDone := r.autoDone)
    ensures AutosOf(r) == AutosOf(l) + Kept(AtMost(s.automata), l.nAuto, StepSeeds(steps, |steps|, pid, op, ttps))
  {
    hide Kept;
    KeptNone<Auto<Mask>>(s.automata, l.nAuto);
    r := l;
    for i := 0 to |steps|
      invariant LineFits(r, s) && r == l.(nAuto := r.nAuto, autoPid := r.autoPid, autoDone := r.autoDone)
      invariant AutosOf(r) == AutosOf(l) + Kept(AtMost(s.automata), l.nAuto, StepSeeds(steps, i, pid, op, ttps))
    {
      if IsRootMatch(steps[i], op, ttps) {
        KeptPush(s.automata, l.nAuto, StepSeeds(steps, i, pid, op, ttps), Auto(pid, {}));
        if r.nAuto < s.automata {
          ghost var before := r;
          r := r.(nAuto := r.nAuto + 1, autoPid := r.autoPid[r.nAuto := pid], autoDone := r.autoDone[r.nAuto := {}]);
          assert AutosOf(r) == AutosOf(before) + [Auto(pid, {})];
          assert AutosOf(r) == AutosOf(l)
            + (Kept(AtMost(s.automata), l.nAuto, StepSeeds(steps, i, pid, op, ttps)) + [Auto(pid, {})]);
        }
      } else {
        assert StepSeeds(steps, i + 1, pid, op, ttps) == StepSeeds(steps, i, pid, op, ttps);
      }
    }
  }

  method SeedRecord(rules: Rules, l: Line, s: Shape, op: Op, ttps: seq<Ttp>) returns (r: Line)
    requires LineFits(l, s) && s.patterns == |rules| && l.used
    ensures LineFits(r, s) && r == l.(nAuto := r.nAuto, autoPid := r.autoPid, autoDone := r.autoDone)
    ensures AutosOf(r) == AutosOf(l) + Kept(AtMost(s.automata), l.nAuto, Seeds(rules, |rules|, op, ttps))
  {
    hide StepSeeds, Kept;
    KeptNone<Auto<Mask>>(s.automata, l.nAuto);
    r := l;
    for pid := 0 to |rules|
      invariant LineFits(r, s) && r == l.(nAuto := r.nAuto, autoPid := r.autoPid, autoDone := r.autoDone)
      invariant AutosOf(r) == AutosOf(l) + Kept(AtMost(s.automata), l.nAuto, Seeds(rules, pid, op, ttps))
    {
      KeptSplit(s.automata, l.nAuto, Seeds(rules, pid, op, ttps),
                StepSeeds(rules[pid].steps, |rules[pid].steps|, pid, op, ttps));
      r := SeedRecordFrom(rules[pid].steps, pid, r, s, op, ttps);
    }
  }

  // One more entry of `from` copied behind `front`.
  lemma CopiedNext<T>(to: seq<T>, front: seq<T>, from: seq<T>, k: nat)
    requires |front| + k < |to| && k < |from| && to[..|front| + k] == front + from[..k]
    ensures to[|front| + k := from[k]][..|front| + k + 1] == front + from[..k + 1]
  {
  }

  // The lists of `m` copied behind those of `d`.
  method AppendLists(d: Line, m: Line, s: Shape) returns (r: Line)
    requires LineFits(d, s) && LineFits(m, s) && d.used
    requires d.nMembers + m.nMembers <= s.members && d.nAuto + m.nAuto <= s.automata
    ensures Absorbs(r, d, m, s)
  {
    var members, pids, dones := d.members, d.autoPid, d.autoDone;
    for k := 0 to m.nMembers
      invariant |members| == s.members
      invariant members[..d.nMembers + k] == d.members[..d.nMembers] + m.members[..k]
    {
      CopiedNext(members, d.members[..d.nMembers], m.members, k);
      members := members[d.nMembers + k := m.members[k]];
    }
    for k := 0 to m.nAuto
      invariant |pids| == |dones| == s.automata
      invariant pids[..d.nAuto + k] == d.autoPid[..d.nAuto] + m.autoPid[..k]
      invariant dones[..d.nAuto + k] == d.autoDone[..d.nAuto] + m.autoDone[..k]
    {
      CopiedNext(pids, d.autoPid[..d.nAuto], m.autoPid, k);
      CopiedNext(dones, d.autoDone[..d.nAuto], m.autoDone, k);
      pids := pids[d.nAuto + k := m.autoPid[k]];
      dones := dones[d.nAuto + k := m.autoDone[k]];
    }
    r := Line(true, d.nMembers + m.nMembers, members, d.nAuto + m.nAuto, pids, dones,
              if d.last >= m.last then d.last else m.last);
    PidsKept(d.autoPid[..d.nAuto], m.autoPid[..m.nAuto], s.patterns);
    assert forall j | 0 <= j < r.nAuto :: r.autoPid[j] == r.autoPid[..r.nAuto][j];
  }

  lemma PidsKept(x: seq<nat>, y: seq<nat>, n: nat)
    requires (forall j | 0 <= j < |x| :: x[j] < n) && forall j | 0 <= j < |y| :: y[j] < n
    ensures forall j | 0 <= j < |x + y| :: (x + y)[j] < n
  {
  }
}

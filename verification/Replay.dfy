/** Differential replay: both engines over one event stream. */
module Replay {
  import opened Events
  import opened Storylines
  import opened DagSpec
  import opened Ceilings
  import EngineBase
  import EngineV001
  import EngineV002
  import Graph
  import LinearSpec
  import BoundedEngine
  import LineTable
  import DagMeaning
  import LinearMeaning
  import ProbeMap
  import Slab

  // Each engine, event by event, is its reference run.
  method BothVerdicts(a: EngineV002.Engine, b: BoundedEngine.Engine, stream: seq<Tagged>)
    returns (va: seq<Verdict>, vb: seq<Verdict>)
    requires a.Valid() && b.Valid() && {a, a.store} !! b.Footprint() && a.rules == b.rules
    requires a.Observed() == State(map[], map[]) && b.Observed() == State(map[], map[])
    modifies a, a.store, b.Footprint()
    ensures |va| == |vb| == |stream|
    ensures forall i | 0 <= i < |stream| ::
      va[i] == VerdictAt(UNBOUNDED, a.rules, stream, i) && vb[i] == VerdictAt(b.Ceilings(), b.rules, stream, i)
  {
    hide DagSpec.OnEvent, ProbeMap.Reads, Slab.SlabOk, Slab.SlotsOf, LineTable.Consistent, LineTable.View;
    hide DagMeaning.RightAnswer;
    va, vb := [], [];
    for i := 0 to |stream|
      invariant |va| == |vb| == i && a.Valid() && b.Valid()
      invariant a.Observed() == Run(UNBOUNDED, a.rules, stream, i)
          && b.Observed() == Run(b.Ceilings(), b.rules, stream, i)
      invariant forall j | 0 <= j < i ::
        va[j] == VerdictAt(UNBOUNDED, a.rules, stream, j) && vb[j] == VerdictAt(b.Ceilings(), b.rules, stream, j)
    {
      var v := a.OnEvent(stream[i].event, stream[i].ttps);
      var w := b.OnEvent(stream[i].event, stream[i].ttps);
      va, vb := va + [v], vb + [w];
    }
  }

  // As long as no ceiling is hit, whatever the hash function and the capacities, the verdicts are equal;
  // if only seeds are dropped and no step disarms, the bounded verdicts are never the stronger ones.
  method Differential(rules: Rules, stream: seq<Tagged>, hash: Key -> nat,
                      capEnt: nat, capLines: nat, capMembers: nat, capAuto: nat, capDis: nat)
    returns (va: seq<Verdict>, vb: seq<Verdict>)
    requires BitsFit(rules) && capEnt > 0 && capMembers > 0 && capDis > 0
    ensures |va| == |vb| == |stream|
    ensures var caps := Caps(AtMost(capEnt), AtMost(capLines), AtMost(capMembers), AtMost(capAuto), AtMost(capDis));
      && (forall n | 0 <= n <= |stream| && Clear(caps, rules, stream, n) :: va[..n] == vb[..n])
      && (NeverDisarms(rules) && OnlySeedsDropped(caps, rules, stream, |stream|) ==>
            forall i | 0 <= i < |stream| :: vb[i].Rank() <= va[i].Rank())
  {
    hide DagSpec.OnEvent, Hits, LinkHits, ProbeMap.Reads, Slab.SlabOk, Slab.SlotsOf, LineTable.Consistent;
    hide LineTable.View;
    var a := new EngineV002.Engine(rules);
    var b := new BoundedEngine.Engine(rules, capEnt, capLines, capMembers, capAuto, capDis, hash);
    va, vb := BothVerdicts(a, b, stream);
    ghost var caps := b.Ceilings();
    forall n | 0 <= n <= |stream| && Clear(caps, rules, stream, n)
      ensures va[..n] == vb[..n]
    {
      EqualWhileClear(caps, rules, stream, n);
    }
    if NeverDisarms(rules) && OnlySeedsDropped(caps, rules, stream, |stream|) {
      DroppedSeedsOnlyWeaken(caps, rules, stream, |stream|);
    }
  }

  // Dropping the graph changes nothing observable: after every event the verdicts are equal, and so is the
  // member set of every key, which is its connected component in the edges of the ungated events.
  method LinearDifferential(rules: LinearSpec.Rules, stream: seq<Tagged>, watched: Key)
    returns (va: seq<Verdict>, vb: seq<Verdict>, ma: seq<Option<set<Key>>>, mb: seq<Option<set<Key>>>)
    requires LinearSpec.NonEmpty(rules)
    ensures |va| == |stream| && va == vb
    ensures |ma| == |stream| && ma == mb
    ensures forall i | 0 <= i < |stream| :: va[i] == LinearSpec.VerdictAt(rules, stream, i)
  {
    hide LinearSpec.OnEvent, LineTable.Consistent, LineTable.View, Graph.Components, Graph.Connected, Graph.IsEndpoint;
    hide LinearMeaning.RightAnswer;
    var a := new EngineBase.Engine(rules);
    var b := new EngineV001.Engine(rules);
    va, vb, ma, mb := [], [], [], [];
    for i := 0 to |stream|
      invariant a.Valid() && b.Valid() && fresh(a) && fresh(b) && fresh(b.store) && a.rules == b.rules == rules
      invariant |va| == |ma| == i && va == vb && ma == mb
      invariant a.Observed() == b.Observed() == LinearSpec.Run(rules, stream, i)
      invariant forall j | 0 <= j < i :: va[j] == LinearSpec.VerdictAt(rules, stream, j)
    {
      var v := a.OnEvent(stream[i].event, stream[i].ttps);
      var w := b.OnEvent(stream[i].event, stream[i].ttps);
      var m := a.StorylineOf(watched);
      var n := b.StorylineOf(watched);
      va, vb, ma, mb := va + [v], vb + [w], ma + [m], mb + [n];
    }
  }
}

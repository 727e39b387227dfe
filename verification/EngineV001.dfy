/** Engine v0.0.1: the graph dropped, storylines and linear automata kept. */
module EngineV001 {
  import opened Events
  import opened Storylines
  import opened LineTable
  import opened LineStore
  import opened LinearSpec
  import LinearMeaning
  import opened LinearAdvance

  class Engine {
    const rules: Rules
    const store: Store<Automaton>
    var disarmed: map<Key, OpSet>

    ghost predicate Valid()
      reads this, store
    {
      store.Valid() && store.patterns == |rules| && NonEmpty(rules)
    }

    ghost function Observed(): State<Automaton>
      reads this, store
      requires Valid()
    {
      State(store.Lines(), disarmed)
    }

    constructor (rules: Rules)
      requires NonEmpty(rules)
      ensures Valid() && fresh(store) && this.rules == rules && Observed() == State(map[], map[])
    {
      this.rules := rules;
      this.disarmed := map[];
      this.store := new Store(|rules|);
    }

    method OnEvent(e: Event, ttps: seq<Ttp>) returns (v: Verdict)
      requires Valid()
      modifies this, store
      ensures Valid()
      ensures Outcome(Observed(), v) == LinearSpec.OnEvent(rules, old(Observed()), e, ttps)
      ensures LinearMeaning.RightAnswer(rules, old(Observed()), e, ttps, Observed(), v)
    {
      hide Link, LinearMeaning.RightAnswer;
      ViewPartition(store.line, Table(store.storylines, |rules|));
      LinearMeaning.AnswersRightly(rules, Observed(), e, ttps);
      if e.actor in disarmed && Contains(disarmed[e.actor], e.op) {
        return Blocked;
      }
      var s := store.Unify(e.actor, e.target);
      v := AdvanceLine(s, e, ttps);
    }

    method AdvanceLine(s: nat, e: Event, ttps: seq<Ttp>) returns (v: Verdict)
      requires Valid() && e.actor in store.line && store.line[e.actor] == s
      modifies this, store
      ensures Valid() && e.actor in old(Observed()).lines
      ensures Outcome(Observed(), v) == Advance(rules, old(Observed()), e, ttps)
    {
      hide Consistent, View, Table, PidsFit, StoryOf, AdvanceStory, StoryEffect;
      SameSlot(store.line, Table(store.storylines, |rules|), e.actor, e.actor);
      ViewKeys(store.line, Table(store.storylines, |rules|));
      CellFits(store.storylines, |rules|, s);
      var after;
      after, v, disarmed := AdvanceRecord(rules, store.storylines[s].value, e, ttps, disarmed);
      CellRewritten(store.line, store.storylines, |rules|, s, after);
      store.storylines := store.storylines[s := Some(after)];
    }

    // The member set of the storyline `key` is in.
    method StorylineOf(key: Key) returns (r: Option<set<Key>>)
      requires Valid()
      ensures r == if key in Observed().lines then Some(Observed().lines[key].members) else None
    {
      if key !in store.line {
        return None;
      }
      SameSlot(store.line, Table(store.storylines, |rules|), key, key);
      r := Some(store.storylines[store.line[key]].value.members);
    }
  }
}

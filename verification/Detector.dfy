/** The reaction to one committed step, shared by the unbounded engines. */
module Detector {
  import opened Events
  import opened Storylines

  // `disarmed.entry(actor).or_default() |= ops` when the step disarms.
  method Apply(action: Option<Action>, actor: Key, disarmed: map<Key, OpSet>) returns (v: Verdict, d: map<Key, OpSet>)
    ensures v == ApplyEffect(action).verdict
    ensures d == DisarmActor(UNBOUNDED, disarmed, actor, ApplyEffect(action))
  {
    d := disarmed;
    match action
    case None => v := Inspect;
    case Some(Block) => v := Blocked;
    case Some(Disarm(ops)) =>
      d := d[actor := (if actor in d then d[actor] else {}) + ops];
      v := Disarmed;
  }
}

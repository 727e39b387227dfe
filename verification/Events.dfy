/** The event, rule and verdict vocabulary shared by every engine version. */
module Events {

  datatype Option<+T> = None | Some(value: T)

  // An entity identifier (128 bits in the source): the engines only compare it.
  type Key = nat

  type Ttp = nat

  datatype Kind = Process | File | Socket | Other

  datatype Op = Exec | Create | Write | Read | Open | Connect | Inject | Dup

  // A machine mask is modelled by the set of its one-bits: `|` is union, `&` is intersection, `== 0`
  // is emptiness. Module Bitmasks proves that words and sets determine each other.
  type Mask = set<nat>

  // A set of operations, one bit per Op.
  type OpSet = Mask

  function OpBit(op: Op): nat {
    match op
    case Exec => 0
    case Create => 1
    case Write => 2
    case Read => 3
    case Open => 4
    case Connect => 5
    case Inject => 6
    case Dup => 7
  }

  predicate Contains(s: OpSet, op: Op) {
    OpBit(op) in s
  }

  datatype Event = Event(ts: nat, op: Op, actor: Key, actorKind: Kind, target: Key, targetKind: Kind)

  // One element of the stream an engine consumes: the event and the techniques its tagger attached.
  datatype Tagged = Tagged(event: Event, ttps: seq<Ttp>)

  datatype Action = Block | Disarm(ops: OpSet)

  datatype StepMatch = StepMatch(ops: OpSet, ttps: seq<Ttp>) {
    // An empty op set matches every op; every listed technique must be present.
    predicate Matches(op: Op, present: seq<Ttp>) {
      (ops == {} || Contains(ops, op)) && forall t | t in ttps :: t in present
    }
  }

  datatype Verdict = Ignore | Inspect | Blocked | Disarmed {
    function Rank(): nat {
      match this
      case Ignore => 0
      case Inspect => 1
      case Blocked => 2
      case Disarmed => 3
    }

    function Max(other: Verdict): Verdict {
      if Rank() >= other.Rank() then this else other
    }
  }

  /** What the steps committed at one event amount to: the strongest verdict, and the union of the
      operations their disarm actions strip from the actor. */
  datatype Effect = Effect(verdict: Verdict, ops: OpSet) {
    function Join(other: Effect): Effect {
      Effect(verdict.Max(other.verdict), ops + other.ops)
    }

    predicate StrongerThan(other: Effect) {
      verdict.Rank() >= other.verdict.Rank()
    }
  }

  const NOTHING := Effect(Ignore, {})

  function ApplyEffect(action: Option<Action>): Effect {
    match action
    case None => Effect(Inspect, {})
    case Some(Block) => Effect(Blocked, {})
    case Some(Disarm(ops)) => Effect(Disarmed, ops)
  }

  lemma JoinCommutes(a: Effect, b: Effect)
    ensures a.Join(b) == b.Join(a)
  {
  }

  lemma JoinAssociates(a: Effect, b: Effect, c: Effect)
    ensures a.Join(b).Join(c) == a.Join(b.Join(c))
  {
  }

  lemma JoinUnit(a: Effect)
    ensures a.Join(NOTHING) == a == NOTHING.Join(a)
  {
  }

  lemma JoinSwaps(a: Effect, b: Effect, c: Effect)
    ensures a.Join(b).Join(c) == a.Join(c).Join(b)
  {
    JoinAssociates(a, b, c);
    JoinAssociates(a, c, b);
    JoinCommutes(b, c);
  }
}

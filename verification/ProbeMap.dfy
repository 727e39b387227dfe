/** Open addressing with linear probing over fixed arrays, entries never removed: the container of both
    LINE and DISARMED in the kernel engine. Whatever the hash function does, it is a finite map, up to
    and including the completely full table. */
module ProbeMap {
  import opened Events
  import opened Multisets

  datatype Probe = Found(slot: nat) | Vacant(slot: nat) | Exhausted

  // The slot `d` steps after `h`, wrapping at `n`.
  function SlotAfter(h: nat, d: nat, n: nat): (i: nat)
    requires h < n && d < n
    ensures i < n
  {
    if h + d < n then h + d else h + d - n
  }

  function Distance(h: nat, i: nat, n: nat): (d: nat)
    requires h < n && i < n
    ensures d < n && SlotAfter(h, d, n) == i
  {
    if i >= h then i - h else i + n - h
  }

  function Home(hash: Key -> nat, key: Key, n: nat): (h: nat)
    requires n > 0
    ensures h < n
  {
    hash(key) % n
  }

  // Every slot passed on the way from `h` to slot `i` is taken.
  ghost predicate PathTaken(used: seq<bool>, h: nat, i: nat)
    requires h < |used| && i < |used|
  {
    forall d | 0 <= d < Distance(h, i, |used|) :: used[SlotAfter(h, d, |used|)]
  }

  // `slots` is the map the table stores: each key in the one slot a scan for it arrives at.
  ghost predicate WellProbed(used: seq<bool>, keys: seq<Key>, hash: Key -> nat, slots: map<Key, nat>) {
    && |used| == |keys| > 0
    && (forall i | 0 <= i < |used| && used[i] :: keys[i] in slots && slots[keys[i]] == i)
    && (forall k | k in slots :: slots[k] < |used| && used[slots[k]] && keys[slots[k]] == k
                              && PathTaken(used, Home(hash, k, |used|), slots[k]))
  }

  // The first `steps` slots of a scan for `key` hold other keys.
  ghost predicate Passed(used: seq<bool>, keys: seq<Key>, h: nat, key: Key, steps: nat)
    requires |used| == |keys| && h < |used| && steps <= |used|
  {
    forall d | 0 <= d < steps :: used[SlotAfter(h, d, |used|)] && keys[SlotAfter(h, d, |used|)] != key
  }

  lemma NothingPassed(used: seq<bool>, keys: seq<Key>, h: nat, key: Key)
    requires |used| == |keys| && h < |used|
    ensures Passed(used, keys, h, key, 0)
  {
  }

  lemma PassedOneMore(used: seq<bool>, keys: seq<Key>, h: nat, key: Key, steps: nat)
    requires |used| == |keys| && h < |used| && steps < |used| && Passed(used, keys, h, key, steps)
    requires used[SlotAfter(h, steps, |used|)] && keys[SlotAfter(h, steps, |used|)] != key
    ensures Passed(used, keys, h, key, steps + 1)
  {
  }

  // Reaching a free slot proves the key absent, and that the key's own scan would stop there.
  lemma FreeSlotMeansAbsent(used: seq<bool>, keys: seq<Key>, hash: Key -> nat, slots: map<Key, nat>, key: Key,
      steps: nat)
    requires WellProbed(used, keys, hash, slots) && steps < |used|
    requires Passed(used, keys, Home(hash, key, |used|), key, steps)
    requires !used[SlotAfter(Home(hash, key, |used|), steps, |used|)]
    ensures key !in slots
    ensures var h := Home(hash, key, |used|); PathTaken(used, h, SlotAfter(h, steps, |used|))
  {
    var n, h := |used|, Home(hash, key, |used|);
    if key in slots {
      assert false;
    }
    assert Distance(h, SlotAfter(h, steps, n), n) == steps;
  }

  // A full round that met only other keys has seen the whole table.
  lemma FullRoundMeansAbsent(used: seq<bool>, keys: seq<Key>, hash: Key -> nat, slots: map<Key, nat>, key: Key)
    requires WellProbed(used, keys, hash, slots)
    requires Passed(used, keys, Home(hash, key, |used|), key, |used|)
    ensures key !in slots && forall i | 0 <= i < |used| :: used[i]
  {
    var n, h := |used|, Home(hash, key, |used|);
    forall i | 0 <= i < n
      ensures used[i] && keys[i] != key
    {
      assert SlotAfter(h, Distance(h, i, n), n) == i;
    }
  }

  lemma PutKeepsWellProbed(used: seq<bool>, keys: seq<Key>, hash: Key -> nat, slots: map<Key, nat>, key: Key, i: nat)
    requires WellProbed(used, keys, hash, slots) && i < |used| && !used[i]
    requires key !in slots && PathTaken(used, Home(hash, key, |used|), i)
    ensures WellProbed(used[i := true], keys[i := key], hash, slots[key := i])
  {
    var used', slots' := used[i := true], slots[key := i];
    forall k | k in slots'
      ensures PathTaken(used', Home(hash, k, |used|), slots'[k])
    {
      assert PathTaken(used, Home(hash, k, |used|), slots'[k]);
    }
  }

  ghost function UsedSlots(used: seq<bool>): set<nat> {
    set i: nat | i < |used| && used[i]
  }

  // One entry for each used slot, so the map has the size of the table exactly when no slot is free.
  lemma StoredCount(used: seq<bool>, keys: seq<Key>, hash: Key -> nat, slots: map<Key, nat>)
    requires WellProbed(used, keys, hash, slots)
    ensures |slots| <= |used|
    ensures |slots| == |used| <==> forall i | 0 <= i < |used| :: used[i]
  {
    hide PathTaken;
    var f := (i: nat) => if i < |keys| then keys[i] else 0;
    forall k | k in slots.Keys
      ensures exists i | i in UsedSlots(used) :: f(i) == k
    {
      assert slots[k] in UsedSlots(used) && f(slots[k]) == k;
    }
    InjectiveImageSize(UsedSlots(used), f, slots.Keys);
    assert |slots| == |UsedSlots(used)|;
    RangeSize(UsedSlots(used), |used|);
    assert forall i: nat | i < |used| :: i in UsedSlots(used) <==> used[i];
  }

  ghost function KeysAt(used: seq<bool>, keys: seq<Key>): map<nat, Key> {
    map i | i in UsedSlots(used) && i < |keys| :: keys[i]
  }

  ghost function ValuesOf<V>(slots: map<Key, nat>, vals: seq<V>): map<Key, V> {
    map k | k in slots && slots[k] < |vals| :: vals[slots[k]]
  }

  /** The abstract reading of the arrays: `slots` locates each stored key, `keyAt` names the key in each
      used slot, `content` is the map itself. */
  ghost predicate Reads<V>(used: seq<bool>, keys: seq<Key>, vals: seq<V>, hash: Key -> nat,
                           slots: map<Key, nat>, keyAt: map<nat, Key>, content: map<Key, V>) {
    && WellProbed(used, keys, hash, slots) && |vals| == |used|
    && keyAt == KeysAt(used, keys) && content == ValuesOf(slots, vals)
  }

  lemma PutReads<V>(used: seq<bool>, keys: seq<Key>, vals: seq<V>, hash: Key -> nat, slots: map<Key, nat>,
                    keyAt: map<nat, Key>, content: map<Key, V>, slot: nat, key: Key, v: V)
    requires Reads(used, keys, vals, hash, slots, keyAt, content)
    requires slot < |used| && !used[slot] && key !in content && PathTaken(used, Home(hash, key, |used|), slot)
    ensures Reads(used[slot := true], keys[slot := key], vals[slot := v], hash,
                  slots[key := slot], keyAt[slot := key], content[key := v])
  {
    assert content.Keys == slots.Keys;
    PutKeepsWellProbed(used, keys, hash, slots, key, slot);
    PutValues(used, keys, vals, hash, slots, slot, key, v);
    hide WellProbed, PathTaken, ValuesOf;
    assert forall i: nat :: i in UsedSlots(used[slot := true]) <==> i in UsedSlots(used) || i == slot;
  }

  lemma PutValues<V>(used: seq<bool>, keys: seq<Key>, vals: seq<V>, hash: Key -> nat, slots: map<Key, nat>,
                     slot: nat, key: Key, v: V)
    requires WellProbed(used, keys, hash, slots) && |vals| == |used| && slot < |used| && !used[slot] && key !in slots
    ensures ValuesOf(slots[key := slot], vals[slot := v]) == ValuesOf(slots, vals)[key := v]
  {
    hide PathTaken;
  }

  lemma ReadsWellProbed<V>(used: seq<bool>, keys: seq<Key>, vals: seq<V>, hash: Key -> nat, slots: map<Key, nat>,
                           keyAt: map<nat, Key>, content: map<Key, V>)
    requires Reads(used, keys, vals, hash, slots, keyAt, content)
    ensures WellProbed(used, keys, hash, slots) && |vals| == |used|
  {
  }

  lemma ReadsCount<V>(used: seq<bool>, keys: seq<Key>, vals: seq<V>, hash: Key -> nat, slots: map<Key, nat>,
                      keyAt: map<nat, Key>, content: map<Key, V>)
    requires Reads(used, keys, vals, hash, slots, keyAt, content)
    ensures content.Keys == slots.Keys
    ensures |content| <= |used| && (|content| == |used| <==> forall i | 0 <= i < |used| :: used[i])
  {
    hide PathTaken;
    StoredCount(used, keys, hash, slots);
    assert content.Keys == slots.Keys;
    assert |content| == |content.Keys| == |slots.Keys| == |slots|;
  }

  lemma ReadsAt<V>(used: seq<bool>, keys: seq<Key>, vals: seq<V>, hash: Key -> nat, slots: map<Key, nat>,
                   keyAt: map<nat, Key>, content: map<Key, V>, i: nat)
    requires Reads(used, keys, vals, hash, slots, keyAt, content) && i < |used|
    ensures i in keyAt <==> used[i]
    ensures used[i] ==> keyAt[i] == keys[i] && keys[i] in content && content[keys[i]] == vals[i]
  {
  }

  ghost predicate Inverse<V>(keyAt: map<nat, Key>, content: map<Key, V>) {
    && (forall i, j | i in keyAt && j in keyAt && keyAt[i] == keyAt[j] :: i == j)
    && (forall i | i in keyAt :: keyAt[i] in content)
  }

  class Map<V(0)> {
    const hash: Key -> nat
    const used: array<bool>
    const keys: array<Key>
    const vals: array<V>
    ghost var slots: map<Key, nat>
    ghost var keyAt: map<nat, Key>
    ghost var content: map<Key, V>

    ghost predicate Valid()
      reads this, used, keys, vals
    {
      && keys as object != vals && used as object != vals && used.Length == keys.Length == vals.Length
      && Reads(used[..], keys[..], vals[..], hash, slots, keyAt, content)
    }

    lemma Bijection()
      requires Valid()
      ensures Inverse(keyAt, content)
    {
    }

    // Zeroed arrays: the empty map.
    constructor (capacity: nat, hash: Key -> nat, zero: V)
      requires capacity > 0
      ensures Valid() && content == map[] && keyAt == map[] && fresh(used) && fresh(keys) && fresh(vals)
      ensures this.hash == hash && used.Length == capacity
    {
      this.hash := hash;
      used := new bool[capacity](_ => false);
      keys := new Key[capacity](_ => 0);
      vals := new V[capacity](_ => zero);
      slots, keyAt, content := map[], map[], map[];
    }

    // A stored key is found with its value; any other ends at the free slot it would take, or, when the
    // table has no free slot, nowhere.
    method Lookup(key: Key) returns (r: Probe)
      requires Valid()
      ensures match r
        case Found(i) => i < vals.Length && i in keyAt && keyAt[i] == key && key in content && content[key] == vals[i]
        case Vacant(i) => key !in content && |content| < used.Length && CanPut(key, i)
        case Exhausted => key !in content && |content| == used.Length
    {
      var n := used.Length;
      ghost var h, us, ks, vs := Home(hash, key, n), used[..], keys[..], vals[..];
      hide Reads, WellProbed, PathTaken, Passed;
      ReadsWellProbed(us, ks, vs, hash, slots, keyAt, content);
      ReadsCount(us, ks, vs, hash, slots, keyAt, content);
      NothingPassed(us, ks, h, key);
      var i := hash(key) % n;
      for steps := 0 to n
        invariant i < n && (steps < n ==> i == SlotAfter(h, steps, n))
        invariant Passed(us, ks, h, key, steps)
      {
        ReadsAt(us, ks, vs, hash, slots, keyAt, content, i);
        if !used[i] {
          FreeSlotMeansAbsent(us, ks, hash, slots, key, steps);
          return Vacant(i);
        }
        if keys[i] == key {
          return Found(i);
        }
        PassedOneMore(us, ks, h, key, steps);
        i := if i + 1 == n then 0 else i + 1;
      }
      FullRoundMeansAbsent(us, ks, hash, slots, key);
      r := Exhausted;
    }

    ghost predicate CanPut(key: Key, slot: nat)
      reads this, used, keys, vals
      requires Valid()
    {
      && slot < used.Length && !used[slot] && slot !in keyAt && key !in content
      && PathTaken(used[..], Home(hash, key, used.Length), slot)
    }

    // Takes the free slot a lookup of `key` ended at.
    method Put(slot: nat, key: Key, v: V)
      requires Valid() && CanPut(key, slot)
      modifies this, used, keys, vals
      ensures Valid() && content == old(content)[key := v] && keyAt == old(keyAt)[slot := key]
    {
      hide Reads, PathTaken;
      PutReads(used[..], keys[..], vals[..], hash, slots, keyAt, content, slot, key, v);
      used[slot] := true;
      keys[slot] := key;
      vals[slot] := v;
      slots, keyAt, content := slots[key := slot], keyAt[slot := key], content[key := v];
      assert used[..] == old(used[..])[slot := true];
      assert keys[..] == old(keys[..])[slot := key];
      assert vals[..] == old(vals[..])[slot := v];
    }

    // Overwrites the value in a used slot.
    method Set(slot: nat, v: V)
      requires Valid() && slot in keyAt
      modifies this, vals
      ensures Valid() && content == old(content)[keyAt[slot] := v] && keyAt == old(keyAt)
    {
      vals[slot] := v;
      content := content[keyAt[slot] := v];
      assert vals[..] == old(vals[..])[slot := v];
      assert used[..] == old(used[..]) && keys[..] == old(keys[..]);
    }
  }
}

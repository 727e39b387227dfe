/** The machine words behind the masks: a word below 2^n and the set of its one-bits determine each other,
    so nothing is lost by writing masks as sets. */
module Bitmasks {
  import opened Events
  import opened Multisets

  function Pow2(n: nat): (p: nat)
    ensures p > 0
  {
    if n == 0 then 1 else 2 * Pow2(n - 1)
  }

  // The one-bits of the word `w`, read from the top.
  ghost function Bits(w: nat, n: nat): Mask
    requires w < Pow2(n)
    decreases n
  {
    if n == 0 then {}
    else if w >= Pow2(n - 1) then Bits(w - Pow2(n - 1), n - 1) + {n - 1}
    else Bits(w, n - 1)
  }

  // The word whose one-bits below `n` are those of `m`.
  ghost function Value(m: Mask, n: nat): (w: nat)
    ensures w < Pow2(n)
  {
    if n == 0 then 0 else Value(m, n - 1) + if n - 1 in m then Pow2(n - 1) else 0
  }

  // `w >> b`
  ghost function Shifted(w: nat, b: nat): nat {
    if b == 0 then w else Shifted(w, b - 1) / 2
  }

  lemma {:induction false} ShiftedAdds(w: nat, b: nat, n: nat)
    requires b <= n
    ensures Shifted(w + Pow2(n), b) == Shifted(w, b) + Pow2(n - b)
  {
    if b > 0 {
      ShiftedAdds(w, b - 1, n);
      assert Pow2(n - b + 1) == 2 * Pow2(n - b);
    }
  }

  lemma {:induction false} ShiftedOut(w: nat, b: nat, n: nat)
    requires b <= n && w < Pow2(n)
    ensures Shifted(w, b) < Pow2(n - b)
  {
    if b > 0 {
      ShiftedOut(w, b - 1, n);
      assert Pow2(n - b + 1) == 2 * Pow2(n - b);
    }
  }

  // Bit `b` is set when `w >> b` is odd.
  lemma {:induction false} BitIsSet(w: nat, n: nat, b: nat)
    requires w < Pow2(n) && b < n
    ensures b in Bits(w, n) <==> Shifted(w, b) % 2 == 1
    decreases n
  {
    var top := Pow2(n - 1);
    var rest := if w >= top then w - top else w;
    BitsBelow(rest, n - 1);
    ShiftedAdds(rest, b, n - 1);
    if b == n - 1 {
      ShiftedOut(rest, b, b);
    } else {
      BitIsSet(rest, n - 1, b);
      assert Pow2(n - 1 - b) == 2 * Pow2(n - 2 - b);
    }
    hide Shifted;
  }

  lemma {:induction false} ValueSame(a: Mask, b: Mask, n: nat)
    requires forall i | 0 <= i < n :: i in a <==> i in b
    ensures Value(a, n) == Value(b, n)
  {
    if n > 0 {
      ValueSame(a, b, n - 1);
    }
  }

  lemma {:induction false} BitsBelow(w: nat, n: nat)
    requires w < Pow2(n)
    ensures forall i | i in Bits(w, n) :: i < n
    decreases n
  {
    if n > 0 {
      BitsBelow(if w >= Pow2(n - 1) then w - Pow2(n - 1) else w, n - 1);
    }
  }

  lemma {:induction false} WordOfBits(w: nat, n: nat)
    requires w < Pow2(n)
    ensures Value(Bits(w, n), n) == w
    decreases n
  {
    if n > 0 {
      var rest := if w >= Pow2(n - 1) then w - Pow2(n - 1) else w;
      WordOfBits(rest, n - 1);
      BitsBelow(rest, n - 1);
      ValueSame(Bits(w, n), Bits(rest, n - 1), n - 1);
    }
  }

  lemma {:induction false} BitsOfWord(m: Mask, n: nat)
    requires forall i | i in m :: i < n
    ensures Bits(Value(m, n), n) == m
    decreases n
  {
    if n > 0 {
      BitsOfWord(m - {n - 1}, n - 1);
      ValueSame(m, m - {n - 1}, n - 1);
    }
  }

  // `stage` matched steps of a chain are the mask 2^stage - 1.
  lemma {:induction false} PrefixMask(stage: nat, n: nat)
    requires stage <= n
    ensures Value(Below(stage), n) == Pow2(stage) - 1
    decreases n
  {
    hide Below;
    if n > stage {
      PrefixMask(stage, n - 1);
      assert n - 1 !in Below(stage);
    } else if n > 0 {
      PrefixMask(n - 1, n - 1);
      ValueSame(Below(n), Below(n - 1), n - 1);
      assert n - 1 in Below(n);
    }
  }
}

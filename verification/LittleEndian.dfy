/** Little-endian machine words. */
module LittleEndian {

  type Byte = b: nat | b < 256

  function Range(n: nat): (p: nat)
    ensures p > 0
  {
    if n == 0 then 1 else 256 * Range(n - 1)
  }

  // The `n` bytes of `v`, lowest first.
  function Le(v: nat, n: nat): (s: seq<Byte>)
    requires v < Range(n)
    ensures |s| == n
    decreases n
  {
    if n == 0 then [] else [v % 256] + Le(v / 256, n - 1)
  }

  function Word(s: seq<Byte>): (v: nat)
    ensures v < Range(|s|)
  {
    if s == [] then 0 else (s[0] as int) + 256 * Word(s[1..])
  }

  lemma {:induction false} WordOfLe(v: nat, n: nat)
    requires v < Range(n)
    ensures Word(Le(v, n)) == v
    decreases n
  {
    if n > 0 {
      WordOfLe(v / 256, n - 1);
      assert Le(v, n)[1..] == Le(v / 256, n - 1);
    }
  }

  lemma {:induction false} LeOfWord(s: seq<Byte>)
    ensures Le(Word(s), |s|) == s
  {
    if s != [] {
      LeOfWord(s[1..]);
      assert Word(s) % 256 == s[0] && Word(s) / 256 == Word(s[1..]);
    }
  }

  lemma {:induction false} ZeroWord(s: seq<Byte>)
    ensures Word(s) == 0 <==> forall i | 0 <= i < |s| :: s[i] == 0
  {
    if s != [] {
      ZeroWord(s[1..]);
      FirstAndRest(s);
    }
  }

  lemma FirstAndRest(s: seq<Byte>)
    requires s != []
    ensures (forall i | 0 <= i < |s| :: s[i] == 0) <==> s[0] == 0 && forall i | 0 <= i < |s[1..]| :: s[1..][i] == 0
  {
    assert s == [s[0]] + s[1..];
    assert forall i | 0 <= i < |s[1..]| :: s[1..][i] == s[i + 1];
  }

  lemma Ranges()
    ensures Range(1) == 256 && Range(2) == 0x1_0000 && Range(4) == 0x1_0000_0000
    ensures Range(8) == 0x1_0000_0000_0000_0000
  {
    assert Range(3) == 256 * Range(2);
    assert Range(4) == 256 * Range(3);
    assert Range(5) == 256 * Range(4);
    assert Range(6) == 256 * Range(5);
    assert Range(7) == 256 * Range(6);
  }
}

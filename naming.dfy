/**
  Names of the members the emitter defines: a fixed prefix followed by the
  decimal rendering of a counter (`_m0`, `Cont3`, `s_op_12`, `..._Proxy_7`).
  C# string concatenation of an `int` uses its invariant decimal text.
 */
module Naming {

  /** The decimal digit character for `d`. */
  function Digit(d: nat): (c: char)
    requires d < 10
    ensures '0' <= c <= '9'
    ensures c as int - '0' as int == d
  {
    (d + '0' as int) as char
  }

  /** Decimal text of a non-negative counter, most significant digit first. */
  function NatToString(n: nat): (s: string)
    decreases n
  {
    if n < 10 then [Digit(n)] else NatToString(n / 10) + [Digit(n % 10)]
  }

  ghost predicate AllDigits(s: string) {
    forall k :: 0 <= k < |s| ==> '0' <= s[k] <= '9'
  }

  lemma {:induction false} NatToStringDigits(n: nat)
    ensures AllDigits(NatToString(n))
    ensures 1 <= |NatToString(n)|
    ensures n < 10 <==> |NatToString(n)| == 1
    decreases n
  {
    if n >= 10 {
      NatToStringDigits(n / 10);
    }
  }

  /** Distinct counters render to distinct texts. */
  lemma {:induction false} NatToStringInjective(a: nat, b: nat)
    requires NatToString(a) == NatToString(b)
    ensures a == b
    decreases a
  {
    NatToStringDigits(a);
    NatToStringDigits(b);
    if a >= 10 && b >= 10 {
      var sa, sb := NatToString(a), NatToString(b);
      assert sa[|sa| - 1] == Digit(a % 10) && sb[|sb| - 1] == Digit(b % 10);
      assert sa[..|sa| - 1] == NatToString(a / 10);
      assert sb[..|sb| - 1] == NatToString(b / 10);
      NatToStringInjective(a / 10, b / 10);
    }
  }

  /** The name `prefix + k` that a registry gives its `k`-th entry. */
  function IndexedName(prefix: string, k: nat): (name: string)
    ensures |name| > |prefix| && name[..|prefix|] == prefix
  {
    prefix + NatToString(k)
  }

  /** Names drawn from one counter never collide. */
  lemma IndexedNamesDistinct(prefix: string, j: nat, k: nat)
    requires j != k
    ensures IndexedName(prefix, j) != IndexedName(prefix, k)
  {
    if IndexedName(prefix, j) == IndexedName(prefix, k) {
      var sj, sk := NatToString(j), NatToString(k);
      assert sj == IndexedName(prefix, j)[|prefix|..];
      assert sk == IndexedName(prefix, k)[|prefix|..];
      NatToStringInjective(j, k);
    }
  }

  /**
    Two names that both end in `"_" + NatToString(k)` for some fixed separator
    ending in `'_'` but carry different counters differ, whatever comes before
    the separator: the text after the last `'_'` is the counter.
   */
  lemma SuffixedNamesDistinct(p: string, q: string, sep: string, j: nat, k: nat)
    requires |sep| > 0 && sep[|sep| - 1] == '_'
    requires j != k
    ensures p + sep + NatToString(j) != q + sep + NatToString(k)
  {
    var dj, dk := NatToString(j), NatToString(k);
    NatToStringDigits(j);
    NatToStringDigits(k);
    var s1, s2 := p + sep + dj, q + sep + dk;
    if |dj| == |dk| {
      if s1 == s2 {
        assert dj == s1[|s1| - |dj|..];
        assert dk == s2[|s2| - |dk|..];
        NatToStringInjective(j, k);
      }
    } else if |s1| == |s2| {
      // the separator's final '_' of one name faces a digit of the other
      if |dj| < |dk| {
        var pos := |s1| - |dj| - 1;
        assert s1[pos] == '_';
        assert s2[pos] == dk[pos - (|s2| - |dk|)];
      } else {
        var pos := |s2| - |dk| - 1;
        assert s2[pos] == '_';
        assert s1[pos] == dj[pos - (|s1| - |dj|)];
      }
    }
  }
}

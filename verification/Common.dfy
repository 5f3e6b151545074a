/**
  What several components share: optional values, and counting in sequences.
 */
module Common {

  datatype Option<+T> = None | Some(value: T)

  function Bit(b: bool): nat {
    if b then 1 else 0
  }

  /** Some key of a non-empty map. */
  ghost function Pick<K, V>(m: map<K, V>): (k: K)
    requires m != map[]
    ensures k in m
  {
    var k :| k in m; k
  }

  /** How many times `x` occurs in `s`. */
  function Count<T(==)>(s: seq<T>, x: T): nat {
    if s == [] then 0 else Count(s[..|s| - 1], x) + Bit(s[|s| - 1] == x)
  }

  lemma CountAppend<T>(s: seq<T>, x: T, y: T)
    ensures Count(s + [x], y) == Count(s, y) + Bit(x == y)
  {
    assert (s + [x])[..|s|] == s;
  }

  /** Counting from the front gives the same. */
  lemma {:induction false} CountTail<T>(s: seq<T>, y: T)
    requires s != []
    ensures Count(s, y) == Bit(s[0] == y) + Count(s[1..], y)
  {
    if |s| > 1 {
      var n := |s| - 1;
      CountTail(s[..n], y);
      assert s[..n][1..] == s[1..][..n - 1];
    }
  }
}

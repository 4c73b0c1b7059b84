/** Vocabulary shared by the other modules. */
module RxBase {
  type Byte = x: int | 0 <= x < 256

  datatype Option<+T> = None | Some(value: T)

  function Max(a: int, b: int): int {
    if a < b then b else a
  }

  function Min(a: int, b: int): int {
    if a < b then a else b
  }

  function One(b: bool): nat {
    if b then 1 else 0
  }

  function Count(q: seq<nat>, p: nat): nat {
    multiset(q)[p]
  }

  /** The first place of x, or the length. */
  function IndexOf(q: seq<nat>, x: nat): (k: nat)
    ensures k <= |q| && (k < |q| ==> q[k] == x)
    ensures forall j :: 0 <= j < k ==> q[j] != x
  {
    if q == [] || q[0] == x then 0 else 1 + IndexOf(q[1..], x)
  }

  function Without(q: seq<nat>, x: nat): seq<nat> {
    var k := IndexOf(q, x);
    if k < |q| then q[..k] + q[k + 1..] else q
  }

  lemma WithoutCounts(q: seq<nat>, x: nat)
    ensures multiset(Without(q, x)) == multiset(q) - multiset{x}
  {
    var k := IndexOf(q, x);
    if k < |q| {
      assert q == q[..k] + [x] + q[k + 1..];
    }
  }
}

/**
 * The byte cursors of rx/rx_rdwr.c over the buffers of a packet.  Entry 0 of a packet's
 * vector is the header; the data are the first `length` bytes of the other buffers.
 * Null security is assumed, so the data start at the first byte of entry 1.
 */
module RxIovec {
  import opened RxBase

  // RX_FIRSTBUFFERSIZE, RX_CBUFFERSIZE, RX_MAXWVECS, RX_HEADER_SIZE
  const FIRST_BUFFER_SIZE: nat := 1440
  const CBUFFER_SIZE: nat := 1024
  const MAX_WVECS: nat := 10
  const HEADER_SIZE: nat := 28

  type Buffers = seq<seq<Byte>>

  function Flat(v: Buffers): (s: seq<Byte>)
  {
    if v == [] then [] else v[0] + Flat(v[1..])
  }

  function Data(v: Buffers): seq<Byte>
    requires v != []
  {
    Flat(v[1..])
  }

  lemma {:induction false} FlatConcat(a: Buffers, b: Buffers)
    ensures Flat(a + b) == Flat(a) + Flat(b)
  {
    if a == [] {
      assert a + b == b;
    } else {
      assert (a + b)[1..] == a[1..] + b;
      FlatConcat(a[1..], b);
      assert a[0] + (Flat(a[1..]) + Flat(b)) == a[0] + Flat(a[1..]) + Flat(b);
    }
  }

  lemma FlatOne(x: seq<Byte>)
    ensures Flat([x]) == x
  {
    assert [x][1..] == [];
  }

  /** Number of data bytes in the entries before entry i. */
  ghost function Offset(v: Buffers, i: nat): nat
    requires 1 <= i <= |v|
  {
    |Flat(v[1..i])|
  }

  lemma DataSplit(v: Buffers, i: nat)
    requires 1 <= i < |v|
    ensures Data(v) == Flat(v[1..i]) + v[i] + Flat(v[i + 1..])
    ensures Offset(v, i + 1) == Offset(v, i) + |v[i]|
  {
    assert v[1..i + 1] == v[1..i] + [v[i]];
    assert v[1..] == v[1..i + 1] + v[i + 1..];
    FlatConcat(v[1..i], [v[i]]);
    FlatOne(v[i]);
    FlatConcat(v[1..i + 1], v[i + 1..]);
  }

  lemma DataPrefix(v: Buffers, i: nat)
    requires 1 <= i <= |v|
    ensures Offset(v, i) <= |Data(v)| && Data(v)[..Offset(v, i)] == Flat(v[1..i])
    ensures i == |v| ==> Offset(v, i) == |Data(v)|
  {
    assert v[1..] == v[1..i] + v[i..];
    FlatConcat(v[1..i], v[i..]);
    if i == |v| { assert v[1..i] == v[1..]; }
  }

  /** What memcpy leaves in a buffer. */
  function Overwrite(b: seq<Byte>, at: nat, x: seq<Byte>): (r: seq<Byte>)
    requires at + |x| <= |b|
    ensures |r| == |b|
  {
    b[..at] + x + b[at + |x|..]
  }

  /** Copying into one buffer changes just that stretch of the packet's data. */
  lemma OverwriteData(v: Buffers, i: nat, at: nat, x: seq<Byte>)
    requires 1 <= i < |v| && at + |x| <= |v[i]|
    ensures var w := v[i := Overwrite(v[i], at, x)];
            var o := Offset(v, i) + at;
            && |Data(w)| == |Data(v)| && o + |x| <= |Data(v)|
            && Data(w)[..o + |x|] == Data(v)[..o] + x
            && forall k :: 1 <= k <= |v| ==> Offset(w, k) == Offset(v, k)
  {
    var w := v[i := Overwrite(v[i], at, x)];
    DataSplit(v, i);
    DataSplit(w, i);
    assert w[1..i] == v[1..i] && w[i + 1..] == v[i + 1..];
    forall k | 1 <= k <= |v|
      ensures Offset(w, k) == Offset(v, k)
    {
      OverwriteOffset(v, i, at, x, k);
    }
  }

  lemma {:induction false} OverwriteOffset(v: Buffers, i: nat, at: nat, x: seq<Byte>, k: nat)
    requires 1 <= i < |v| && at + |x| <= |v[i]| && 1 <= k <= |v|
    ensures Offset(v[i := Overwrite(v[i], at, x)], k) == Offset(v, k)
    decreases k
  {
    var w := v[i := Overwrite(v[i], at, x)];
    if k == 1 {
      assert v[1..1] == w[1..1] == [];
    } else {
      OverwriteOffset(v, i, at, x, k - 1);
      DataSplit(v, k - 1);
      DataSplit(w, k - 1);
    }
  }

  lemma AppendBuffer(v: Buffers, b: seq<Byte>)
    requires v != []
    ensures Data(v + [b]) == Data(v) + b
    ensures forall k :: 1 <= k <= |v| ==> Offset(v + [b], k) == Offset(v, k)
  {
    assert (v + [b])[1..] == v[1..] + [b];
    FlatConcat(v[1..], [b]);
    FlatOne(b);
    forall k | 1 <= k <= |v|
      ensures Offset(v + [b], k) == Offset(v, k)
    {
      assert (v + [b])[1..k] == v[1..k];
    }
  }
}

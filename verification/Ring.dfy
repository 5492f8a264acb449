/** Index arithmetic of a ring of fixed capacity. */
module Ring {

  /** The slot `x` steps from the start, for at most one turn; equal to `x % capacity`. */
  function Wrap(x: nat, capacity: nat): nat {
    if x < capacity then x else x - capacity
  }

  lemma WrapIsMod(x: nat, capacity: nat)
    requires 0 < capacity && x < 2 * capacity
    ensures x % capacity == Wrap(x, capacity)
  {
    if x < capacity {
      SmallMod(x, capacity);
    } else {
      var q, r := x / capacity, x % capacity;
      assert x == capacity * q + r;
      MulKeepsOrder(capacity, 2, q);
      MulKeepsOrder(capacity, q, 0);
      assert q == 1;
    }
  }

  lemma MulKeepsOrder(m: nat, a: int, b: int)
    ensures a <= b ==> m * a <= m * b
  {
  }

  lemma SmallMod(x: nat, m: nat)
    requires x < m
    ensures x % m == x
  {
  }

  /** The `% Capacity` of every ring index computation. */
  method Index(x: nat, capacity: nat) returns (i: nat)
    requires 0 < capacity && x < 2 * capacity
    ensures i == Wrap(x, capacity) && i < capacity
  {
    WrapIsMod(x, capacity);
    i := x % capacity;
  }

  /** The `size` elements from `front` on, going round the end of `data`. */
  function Slots<T>(data: seq<T>, front: nat, size: nat): (s: seq<T>)
    requires front < |data| && size <= |data|
    ensures |s| == size
    ensures forall i :: 0 <= i < size ==> s[i] == data[Wrap(front + i, |data|)]
  {
    seq(size, i requires 0 <= i < size => data[Wrap(front + i, |data|)])
  }

  /** How many of `n` elements from `start` on lie before the end. */
  function FirstPart(n: nat, start: nat, capacity: nat): nat
    requires start <= capacity
  {
    if n <= capacity - start then n else capacity - start
  }

  /** `data'` is `data` with `s` copied in from `rear` on, the part beyond the end going to the start. */
  ghost predicate CopiedIn<T>(data: seq<T>, data': seq<T>, rear: nat, s: seq<T>, first: nat) {
    && |data'| == |data| && rear < |data| && |s| <= |data|
    && first == FirstPart(|s|, rear, |data|)
    && (forall p :: rear <= p < rear + first ==> data'[p] == s[p - rear])
    && (forall p :: 0 <= p < |s| - first ==> data'[p] == s[p + first])
    && (forall p :: |s| - first <= p < rear ==> data'[p] == data[p])
    && (forall p :: rear + first <= p < |data| && |s| - first <= p ==> data'[p] == data[p])
  }

  lemma AfterCopyIn<T>(data: seq<T>, data': seq<T>, front: nat, size: nat, s: seq<T>, first: nat)
    requires front < |data| && size + |s| <= |data|
    requires CopiedIn(data, data', Wrap(front + size, |data|), s, first)
    ensures Slots(data', front, size + |s|) == Slots(data, front, size) + s
  {
    forall i | 0 <= i < size + |s|
      ensures Slots(data', front, size + |s|)[i] == (Slots(data, front, size) + s)[i]
    {
      var p := Wrap(front + i, |data|);
      if i < size {
        assert data'[p] == data[p];
      } else {
        assert data'[p] == s[i - size];
      }
    }
  }

  /** `buf` starts with `n` elements copied out of `data` from `start` on, in two pieces. */
  ghost predicate CopiedOut<T>(data: seq<T>, buf: seq<T>, start: nat, n: nat, first: nat) {
    && start < |data| && n <= |data| && n <= |buf|
    && first == FirstPart(n, start, |data|)
    && (forall p :: 0 <= p < first ==> buf[p] == data[start + p])
    && (forall p :: first <= p < n ==> buf[p] == data[p - first])
  }

  lemma AfterCopyOut<T>(data: seq<T>, buf: seq<T>, front: nat, size: nat, offset: nat, n: nat, first: nat)
    requires front < |data| && size <= |data| && offset + n <= size && offset < size
    requires CopiedOut(data, buf, Wrap(front + offset, |data|), n, first)
    ensures buf[..n] == Slots(data, front, size)[offset..offset + n]
  {
    forall k | 0 <= k < n ensures buf[k] == Slots(data, front, size)[offset + k] {
    }
  }

  lemma AfterDrop<T>(data: seq<T>, front: nat, size: nat, n: nat)
    requires front < |data| && size <= |data| && n <= size
    ensures Slots(data, Wrap(front + n, |data|), size - n) == Slots(data, front, size)[n..]
    ensures Wrap(Wrap(front + n, |data|) + (size - n), |data|) == Wrap(front + size, |data|)
  {
  }

  lemma Regrouped<T>(before: seq<T>, s: seq<T>, n: nat)
    requires n <= |s|
    ensures before + s == (before + s[..n]) + s[n..]
  {
  }

  /** memcpy between different arrays. */
  method Copy<T>(dst: array<T>, at: nat, src: array<T>, from: nat, n: nat)
    requires dst != src && at + n <= dst.Length && from + n <= src.Length
    modifies dst
    ensures forall k :: at <= k < at + n ==> dst[k] == src[k - at + from]
    ensures forall k :: 0 <= k < dst.Length && !(at <= k < at + n) ==> dst[k] == old(dst[k])
  {
    for i := 0 to n
      invariant forall k :: at <= k < at + i ==> dst[k] == src[k - at + from]
      invariant forall k :: 0 <= k < dst.Length && !(at <= k < at + i) ==> dst[k] == old(dst[k])
    {
      dst[at + i] := src[from + i];
    }
  }

  /** Into the ring, from `rear` on, in at most two pieces. */
  method CopyIn<T>(data: array<T>, rear: nat, buf: array<T>, n: nat)
    requires buf != data && n <= buf.Length && n <= data.Length && rear < data.Length
    modifies data
    ensures CopiedIn(old(data[..]), data[..], rear, buf[..n], FirstPart(n, rear, data.Length))
  {
    var first := FirstPart(n, rear, data.Length);
    Copy(data, rear, buf, 0, first);
    if n > first {
      Copy(data, 0, buf, first, n - first);
    }
  }

  /** Out of the ring, from `start` on, in at most two pieces. */
  method CopyOut<T>(data: array<T>, start: nat, buf: array<T>, n: nat)
    requires buf != data && n <= buf.Length && n <= data.Length && start < data.Length
    modifies buf
    ensures CopiedOut(data[..], buf[..], start, n, FirstPart(n, start, data.Length))
    ensures forall k :: n <= k < buf.Length ==> buf[k] == old(buf[k])
  {
    var first := FirstPart(n, start, data.Length);
    Copy(buf, 0, data, start, first);
    if n > first {
      Copy(buf, first, data, 0, n - first);
    }
  }
}

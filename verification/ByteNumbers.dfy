/** The number that a run of bytes stands for, most or least significant byte first. */
module ByteNumbers {

  function Big(s: seq<bv8>): nat {
    if s == [] then 0 else 256 * Big(s[..|s| - 1]) + s[|s| - 1] as nat
  }

  function Little(s: seq<bv8>): nat {
    if s == [] then 0 else s[0] as nat + 256 * Little(s[1..])
  }

  function Number(s: seq<bv8>, bigEndian: bool): nat {
    if bigEndian then Big(s) else Little(s)
  }

  function Reversed(s: seq<bv8>): (r: seq<bv8>)
    ensures |r| == |s|
  {
    if s == [] then [] else Reversed(s[1..]) + [s[0]]
  }

  /** In big-endian order the first byte is the most significant one, in little-endian order the least. */
  lemma {:induction false} FirstByteWeighs(s: seq<bv8>)
    requires s != []
    ensures Number(s, true) == Pow256(|s| - 1) * (s[0] as nat) + Number(s[1..], true)
    ensures Number(s, false) == s[0] as nat + 256 * Number(s[1..], false)
  {
    if |s| > 1 {
      FirstByteWeighs(s[..|s| - 1]);
      assert s[..|s| - 1][1..] == s[1..][..|s| - 2];
      Factored(Pow256(|s| - 2), s[0] as nat);
    }
  }

  /** Reading in one byte order is reading the mirrored bytes in the other. */
  lemma {:induction false} OrdersMirror(s: seq<bv8>)
    ensures Big(Reversed(s)) == Little(s)
  {
    if s != [] {
      OrdersMirror(s[1..]);
      assert Reversed(s)[..|s| - 1] == Reversed(s[1..]);
    }
  }

  /** Nothing is lost: the value and the width give the bytes back. */
  lemma {:induction false} LittleInjective(s: seq<bv8>, t: seq<bv8>)
    requires |s| == |t| && Little(s) == Little(t)
    ensures s == t
  {
    if s != [] {
      DigitsUnique(s[0], Little(s[1..]), t[0], Little(t[1..]));
      LittleInjective(s[1..], t[1..]);
      assert s == [s[0]] + s[1..] && t == [t[0]] + t[1..];
    }
  }

  lemma {:induction false} BigInjective(s: seq<bv8>, t: seq<bv8>)
    requires |s| == |t| && Big(s) == Big(t)
    ensures s == t
  {
    if s != [] {
      var k := |s| - 1;
      DigitsUnique(s[k], Big(s[..k]), t[k], Big(t[..k]));
      BigInjective(s[..k], t[..k]);
      assert s == s[..k] + [s[k]] && t == t[..k] + [t[k]];
    }
  }

  lemma ByteAsNat(a: bv8)
    ensures a as nat < 256 && (a as nat) as bv8 == a
  {
  }

  lemma DigitsUnique(a: bv8, m: nat, b: bv8, n: nat)
    requires a as nat + 256 * m == b as nat + 256 * n
    ensures a == b && m == n
  {
    ByteAsNat(a);
    ByteAsNat(b);
  }

  // ---------------------------------------------------------------- shifting and or-ing

  function Pow256(k: nat): (p: nat)
    ensures p > 0
  {
    if k == 0 then 1 else 256 * Pow256(k - 1)
  }

  lemma SmallPowers()
    ensures Pow256(0) == 1 && Pow256(1) == 256 && Pow256(2) == 65536 && Pow256(3) == 16777216
  {
    assert Pow256(2) == 256 * Pow256(1);
  }

  /** How many bytes up the decoding loop moves byte `i` of `width`. */
  function Rank(i: nat, width: nat, bigEndian: bool): nat
    requires i < width
  {
    if bigEndian then width - 1 - i else i
  }

  /** The value after the first `n` rounds of the decoding loop. */
  function Partial(s: seq<bv8>, bigEndian: bool, n: nat): nat
    requires n <= |s|
  {
    if n == 0 then 0
    else Partial(s, bigEndian, n - 1) + Pow256(Rank(n - 1, |s|, bigEndian)) * (s[n - 1] as nat)
  }

  lemma {:induction false} LittleSnoc(s: seq<bv8>, b: bv8)
    ensures Little(s + [b]) == Little(s) + Pow256(|s|) * (b as nat)
  {
    if s == [] {
      assert ([] + [b])[1..] == [];
    } else {
      LittleSnoc(s[1..], b);
      assert (s + [b])[1..] == s[1..] + [b];
      Factored(Pow256(|s| - 1), b as nat);
    }
  }

  lemma Factored(p: nat, b: nat)
    ensures 256 * (p * b) == (256 * p) * b
  {
  }

  lemma {:induction false} PartialLittle(s: seq<bv8>, n: nat)
    requires n <= |s|
    ensures Partial(s, false, n) == Little(s[..n])
  {
    if n > 0 {
      PartialLittle(s, n - 1);
      LittleSnoc(s[..n - 1], s[n - 1]);
      assert s[..n - 1] + [s[n - 1]] == s[..n];
    }
  }

  lemma {:induction false} PartialBig(s: seq<bv8>, n: nat)
    requires n <= |s|
    ensures Partial(s, true, n) == Big(s[..n]) * Pow256(|s| - n)
  {
    if n > 0 {
      PartialBig(s, n - 1);
      assert s[..n][..n - 1] == s[..n - 1];
      Regroup(Big(s[..n - 1]), s[n - 1] as nat, Pow256(|s| - n));
    }
  }

  lemma Regroup(m: nat, b: nat, p: nat)
    ensures m * (256 * p) + p * b == (256 * m + b) * p
  {
  }

  /** All rounds together give the base-256 number, whatever the width. */
  lemma PartialIsNumber(s: seq<bv8>, bigEndian: bool)
    ensures Partial(s, bigEndian, |s|) == Number(s, bigEndian)
  {
    assert s[..|s|] == s;
    if bigEndian {
      PartialBig(s, |s|);
    } else {
      PartialLittle(s, |s|);
    }
  }

  /** The four shift amounts that `8 * rank` takes. */
  lemma ShiftWrittenOut(b: bv8, rank: nat)
    requires rank < 4
    ensures rank == 0 ==> (b as bv32) << (8 * rank) == (b as bv32) << 0
    ensures rank == 1 ==> (b as bv32) << (8 * rank) == (b as bv32) << 8
    ensures rank == 2 ==> (b as bv32) << (8 * rank) == (b as bv32) << 16
    ensures rank == 3 ==> (b as bv32) << (8 * rank) == (b as bv32) << 24
  {
    if rank == 0 {
    } else if rank == 1 {
    } else if rank == 2 {
    } else {
      assert rank == 3;
    }
  }

  /** The four literal shifts that OrIn makes are the one computed shift. */
  method ShiftUp(b: bv8, rank: nat) returns (x: bv32)
    requires rank < 4
    ensures x == (b as bv32) << (8 * rank)
  {
    ShiftWrittenOut(b, rank);
    if rank == 0 {
      x := (b as bv32) << 0;
    } else if rank == 1 {
      x := (b as bv32) << 8;
    } else if rank == 2 {
      x := (b as bv32) << 16;
    } else {
      x := (b as bv32) << 24;
    }
  }

  lemma OrByte0(v: bv32, b: bv8)
    requires v & 0xFF == 0
    ensures (v | ((b as bv32) << 0)) as nat == v as nat + b as nat
    ensures (v | ((b as bv32) << 0)) & 0xFFFFFF00 == v & 0xFFFFFF00
  {
  }

  lemma OrByte1(v: bv32, b: bv8)
    requires v & 0xFF00 == 0
    ensures (v | ((b as bv32) << 8)) as nat == v as nat + 256 * (b as nat)
    ensures (v | ((b as bv32) << 8)) & 0xFFFF00FF == v & 0xFFFF00FF
  {
  }

  lemma OrByte2(v: bv32, b: bv8)
    requires v & 0xFF0000 == 0
    ensures (v | ((b as bv32) << 16)) as nat == v as nat + 65536 * (b as nat)
    ensures (v | ((b as bv32) << 16)) & 0xFF00FFFF == v & 0xFF00FFFF
  {
  }

  lemma OrByte3(v: bv32, b: bv8)
    requires v & 0xFF000000 == 0
    ensures (v | ((b as bv32) << 24)) as nat == v as nat + 16777216 * (b as nat)
    ensures (v | ((b as bv32) << 24)) & 0x00FFFFFF == v & 0x00FFFFFF
  {
  }

  /**
   * `v | (b << 8 * rank)`, with the shift amount written out for the four ranks (see ShiftUp):
   * when byte `rank` of `v` is zero, or-ing adds, and the other bytes that are zero stay zero.
   */
  method OrIn(v: bv32, b: bv8, rank: nat) returns (r: bv32)
    requires rank < 4
    requires rank == 0 ==> v & 0xFF == 0
    requires rank == 1 ==> v & 0xFF00 == 0
    requires rank == 2 ==> v & 0xFF0000 == 0
    requires rank == 3 ==> v & 0xFF000000 == 0
    ensures r as nat == v as nat + Pow256(rank) * (b as nat)
    ensures rank != 0 && v & 0xFF == 0 ==> r & 0xFF == 0
    ensures rank != 1 && v & 0xFF00 == 0 ==> r & 0xFF00 == 0
    ensures rank != 2 && v & 0xFF0000 == 0 ==> r & 0xFF0000 == 0
    ensures rank != 3 && v & 0xFF000000 == 0 ==> r & 0xFF000000 == 0
  {
    SmallPowers();
    if rank == 0 {
      r := v | ((b as bv32) << 0);
      OrByte0(v, b);
    } else if rank == 1 {
      r := v | ((b as bv32) << 8);
      OrByte1(v, b);
    } else if rank == 2 {
      r := v | ((b as bv32) << 16);
      OrByte2(v, b);
    } else {
      r := v | ((b as bv32) << 24);
      OrByte3(v, b);
    }
  }

  predicate Pending(rank: nat, i: nat, width: nat, bigEndian: bool) {
    if bigEndian then rank + i < width else i <= rank
  }

  /** The decoding loop: the bytes of `s` in the chosen order, as a number. */
  method Decode(s: seq<bv8>, bigEndian: bool) returns (val: bv32)
    requires |s| <= 4
    ensures val as nat == Number(s, bigEndian)
  {
    val := 0;
    for i := 0 to |s|
      invariant val as nat == Partial(s, bigEndian, i)
      invariant Pending(0, i, |s|, bigEndian) ==> val & 0xFF == 0
      invariant Pending(1, i, |s|, bigEndian) ==> val & 0xFF00 == 0
      invariant Pending(2, i, |s|, bigEndian) ==> val & 0xFF0000 == 0
      invariant Pending(3, i, |s|, bigEndian) ==> val & 0xFF000000 == 0
    {
      val := OrIn(val, s[i], Rank(i, |s|, bigEndian));
    }
    PartialIsNumber(s, bigEndian);
  }
}

/**
 * ByteRingBuffer: a fixed array used as a ring of bytes, filled and emptied with copies in two pieces. A null
 * pointer is a null array; a pointer to one value is an array of one element.
 */
module ByteRing {
  import opened ByteNumbers
  import opened Ring

  function Min(a: nat, b: nat): (m: nat)
    ensures m <= a && m <= b && (m == a || m == b)
  {
    if a <= b then a else b
  }

  class ByteRingBuffer {
    const capacity: nat
    const mData: array<bv8>
    var mSize: nat
    var mFront: nat
    var mRear: nat

    ghost var accepted: seq<bv8>        // every byte write() took, oldest first
    ghost var consumed: seq<bv8>        // every byte read or dropped, oldest first

    ghost predicate Shaped()
      reads this
    {
      && 0 < capacity && mData.Length == capacity
      && mSize <= capacity && mFront < capacity && mRear == Wrap(mFront + mSize, capacity)
    }

    /** What went in is what came out followed by what is still there. */
    ghost predicate Valid()
      reads this, mData
    {
      Shaped() && accepted == consumed + Contents()
    }

    ghost function Contents(): (s: seq<bv8>)
      requires Shaped()
      reads this, mData
      ensures |s| == mSize
    {
      Slots(mData[..], mFront, mSize)
    }

    constructor (capacity: nat)
      requires capacity > 0
      ensures Valid() && this.capacity == capacity && Contents() == [] && accepted == [] && consumed == []
      ensures fresh(mData)
    {
      this.capacity := capacity;
      mData := new bv8[capacity](_ => 0);
      mSize, mFront, mRear := 0, 0, 0;
      accepted, consumed := [], [];
    }

    /** Takes the longest prefix of `buf` that fits. */
    method Write(buf: array?<bv8>, len: nat) returns (n: nat)
      requires Valid() && buf != mData && (buf != null ==> len <= buf.Length)
      modifies this`mSize, this`mRear, this`accepted, mData
      ensures Valid() && consumed == old(consumed)
      ensures n == if buf == null then 0 else Min(len, capacity - old(mSize))
      ensures Contents() == old(Contents()) + if buf == null then [] else buf[..n]
      ensures accepted == old(accepted) + if buf == null then [] else buf[..n]
    {
      if buf == null || len == 0 {
        return 0;
      }
      n := Min(len, capacity - mSize);
      if n == 0 {
        return 0;
      }
      ghost var was, data, taken := Contents(), mData[..], buf[..n];
      CopyIn(mData, mRear, buf, n);
      AfterCopyIn(data, mData[..], mFront, mSize, taken, FirstPart(n, mRear, capacity));
      mRear := Index(mRear + n, capacity);
      mSize := mSize + n;
      accepted := accepted + taken;
      assert consumed + (was + taken) == (consumed + was) + taken;
    }

    /** `_peek`: copies up to `len` bytes from `offset` on; the buffer itself does not change. */
    method PeekAt(offset: nat, buf: array?<bv8>, len: nat) returns (n: nat)
      requires Valid() && buf != mData && (buf != null ==> len <= buf.Length)
      modifies buf
      ensures Valid() && Contents() == old(Contents())
      ensures n == if offset >= mSize then 0 else Min(len, mSize - offset)
      ensures buf != null && offset < mSize ==> buf[..n] == Contents()[offset..offset + n]
      ensures buf != null ==> forall k :: n <= k < buf.Length ==> buf[k] == old(buf[k])
    {
      if offset >= mSize || len == 0 {
        return 0;
      }
      n := Min(len, mSize - offset);
      var start := Index(mFront + offset, capacity);
      if buf != null {
        CopyOut(mData, start, buf, n);
        AfterCopyOut(mData[..], buf[..], mFront, mSize, offset, n, FirstPart(n, start, capacity));
      }
    }

    method Peek(buf: array?<bv8>, len: nat) returns (n: nat)
      requires Valid() && buf != mData && (buf != null ==> len <= buf.Length)
      modifies buf
      ensures Valid() && Contents() == old(Contents())
      ensures n == if buf == null then 0 else Min(len, mSize)
      ensures buf != null ==> buf[..n] == Contents()[..n]
      ensures buf != null ==> forall k :: n <= k < buf.Length ==> buf[k] == old(buf[k])
    {
      if buf == null || len == 0 {
        return 0;
      }
      n := PeekAt(0, buf, len);
    }

    /** Drops all of `size` bytes or none. */
    method Drop(size: nat) returns (ok: bool)
      requires Valid()
      modifies this`mSize, this`mFront, this`consumed
      ensures Valid() && ok == (size <= old(mSize))
      ensures Contents() == if ok then old(Contents())[size..] else old(Contents())
      ensures consumed == old(consumed) + if ok then old(Contents())[..size] else []
    {
      if mSize < size {
        return false;
      }
      ghost var was := Contents();
      AfterDrop(mData[..], mFront, mSize, size);
      Regrouped(consumed, was, size);
      mFront := Index(mFront + size, capacity);
      mSize := mSize - size;
      consumed := consumed + was[..size];
      ok := true;
    }

    method Read(buf: array?<bv8>, len: nat) returns (n: nat)
      requires Valid() && buf != mData && (buf != null ==> len <= buf.Length)
      modifies this`mSize, this`mFront, this`consumed, buf
      ensures Valid() && n == if buf == null then 0 else Min(len, old(mSize))
      ensures Contents() == old(Contents())[n..] && consumed == old(consumed) + old(Contents())[..n]
      ensures buf != null ==> buf[..n] == old(Contents())[..n]
      ensures buf != null ==> forall k :: n <= k < buf.Length ==> buf[k] == old(buf[k])
    {
      if buf == null || len == 0 {
        return 0;
      }
      n := PeekAt(0, buf, len);
      if n > 0 {
        var dropped := Drop(n);
      }
    }

    /** `_peekType` for a type of `width` bytes; a failure leaves the value alone. */
    method PeekType(offset: nat, val: array?<bv32>, width: nat, bigEndian: bool) returns (ok: bool)
      requires Valid() && 0 < width <= 4 && (val != null ==> val.Length == 1)
      modifies val
      ensures Valid() && Contents() == old(Contents())
      ensures ok <==> val != null && offset + width <= mSize
      ensures ok ==> val[0] as nat == Number(Contents()[offset..offset + width], bigEndian)
      ensures !ok && val != null ==> val[0] == old(val[0])
    {
      var temp := new bv8[width];
      if val == null {
        return false;
      }
      var n := PeekAt(offset, temp, width);
      if n != width {
        return false;
      }
      assert temp[..] == Contents()[offset..offset + width];
      val[0] := Decode(temp[..], bigEndian);
      ok := true;
    }

    /** `_readType`: on success the bytes are consumed, on failure nothing changes. */
    method ReadType(val: array?<bv32>, width: nat, bigEndian: bool) returns (ok: bool)
      requires Valid() && 0 < width <= 4 && (val != null ==> val.Length == 1)
      modifies this`mSize, this`mFront, this`consumed, val
      ensures Valid() && (ok <==> val != null && width <= old(mSize))
      ensures ok ==> val[0] as nat == Number(old(Contents())[..width], bigEndian)
      ensures ok ==> Contents() == old(Contents())[width..] && consumed == old(consumed) + old(Contents())[..width]
      ensures !ok ==> Contents() == old(Contents()) && consumed == old(consumed) && mFront == old(mFront)
      ensures !ok && val != null ==> val[0] == old(val[0])
    {
      ok := PeekType(0, val, width, bigEndian);
      if ok {
        var dropped := Drop(width);
      }
    }
  }
}

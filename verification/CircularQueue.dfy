/** CircularQueue: a fixed array used as a ring, behaving as a bounded FIFO sequence. */
module Circular {
  import opened Options
  import opened Ring

  class CircularQueue<T> {
    const capacity: nat
    const mBuffer: array<T>
    var mSize: nat
    var mFront: nat
    var mRear: nat

    ghost predicate Valid()
      reads this
    {
      && 0 < capacity && mBuffer.Length == capacity
      && mSize <= capacity && mFront < capacity && mRear == Wrap(mFront + mSize, capacity)
    }

    ghost function Contents(): (s: seq<T>)
      requires Valid()
      reads this, mBuffer
      ensures |s| == mSize
    {
      Slots(mBuffer[..], mFront, mSize)
    }

    /** `filler` stands for the default-constructed elements of std::array. */
    constructor (size: nat, filler: T)
      requires size > 0
      ensures Valid() && capacity == size && Contents() == [] && fresh(mBuffer)
    {
      capacity := size;
      mBuffer := new T[size](_ => filler);
      mSize, mFront, mRear := 0, 0, 0;
    }

    predicate IsFull()
      reads this
    {
      mSize >= capacity
    }

    predicate IsEmpty()
      reads this
    {
      mSize == 0
    }

    method Put(t: T) returns (ok: bool)
      requires Valid()
      modifies this`mSize, this`mRear, mBuffer
      ensures Valid() && ok == (|old(Contents())| < capacity)
      ensures Contents() == if ok then old(Contents()) + [t] else old(Contents())
    {
      if IsFull() {
        return false;
      }
      ghost var was := Contents();
      mBuffer[mRear] := t;
      mRear := Index(mRear + 1, capacity);
      mSize := mSize + 1;
      assert Contents() == was + [t];
      ok := true;
    }

    /** The original's `get(nullptr)` is a get whose value the caller ignores. */
    method Get() returns (t: Option<T>)
      requires Valid()
      modifies this`mSize, this`mFront
      ensures Valid() && (t.None? <==> old(Contents()) == [])
      ensures t.Some? ==> old(Contents()) == [t.value] + Contents()
      ensures t.None? ==> Contents() == old(Contents())
    {
      if IsEmpty() {
        return None;
      }
      ghost var was := Contents();
      t := Some(mBuffer[mFront]);
      mFront := Index(mFront + 1, capacity);
      mSize := mSize - 1;
      assert was == [t.value] + Contents();
    }
  }
}

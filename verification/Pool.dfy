/** Pool: fixed storage with an index-linked free list and a bitmap of used slots. */
module StoragePool {
  import opened Bitmap

  type Address = nat          // 0 is the null pointer

  // ---------------------------------------------------------------- addresses

  /** Where the element of index `i` starts. */
  function AddressOf(start: Address, size: nat, i: nat): Address {
    start + i * size
  }

  /** `getIndex`: the index whose element starts at `ptr`, or the capacity. */
  function IndexAt(start: Address, size: nat, capacity: nat, ptr: Address): (i: nat)
    requires size > 0
  {
    if ptr == 0 || ptr < start then capacity
    else
      var offset := ptr - start;
      if offset >= capacity * size || offset % size != 0 then capacity else offset / size
  }

  lemma MultipleDivides(i: nat, size: nat)
    requires size > 0
    ensures (i * size) % size == 0 && (i * size) / size == i
  {
    var q, r := (i * size) / size, (i * size) % size;
    assert (i - q) * size == r;
    if i - q >= 1 {
      FactorAtLeast(i - q, size);
    } else if i - q <= -1 {
      assert (q - i) * size == -r;
      FactorAtLeast(q - i, size);
    }
  }

  lemma FactorAtLeast(k: nat, size: nat)
    requires k >= 1
    ensures k * size >= size
  {
  }

  lemma FactorOrder(a: nat, b: nat, size: nat)
    requires size > 0
    ensures a < b <==> a * size < b * size
  {
    if a < b {
      assert (b - a) * size >= size by { FactorAtLeast(b - a, size); }
    } else {
      assert (a - b) * size >= 0;
    }
  }

  /** `getIndex` inverts the slot addresses, and accepts nothing else. */
  lemma IndexInvertsAddress(start: Address, size: nat, capacity: nat, ptr: Address, i: nat)
    requires size > 0 && start > 0 && i < capacity
    ensures IndexAt(start, size, capacity, ptr) == i <==> ptr == AddressOf(start, size, i)
  {
    if ptr == AddressOf(start, size, i) {
      MultipleDivides(i, size);
      FactorOrder(i, capacity, size);
    } else if ptr >= start && (ptr - start) % size == 0 {
      var q := (ptr - start) / size;
      assert ptr - start == q * size;
    }
  }

  lemma AddressesDiffer(start: Address, size: nat, i: nat, j: nat)
    requires size > 0 && i != j
    ensures AddressOf(start, size, i) != AddressOf(start, size, j)
  {
    FactorOrder(i, j, size);
    FactorOrder(j, i, size);
  }

  // ---------------------------------------------------------------- the free list

  /** Following `next` from `head` one visits exactly `free`, in order, and ends at the capacity. */
  ghost predicate Chain(next: seq<nat>, head: nat, free: seq<nat>)
    decreases free
  {
    if free == [] then head == |next|
    else head < |next| && free[0] == head && Chain(next, next[head], free[1..])
  }

  ghost predicate Distinct(s: seq<nat>) {
    forall i, j :: 0 <= i < j < |s| ==> s[i] != s[j]
  }

  /** Links outside the chain do not matter to it. */
  lemma {:induction false} ChainFrame(next: seq<nat>, next': seq<nat>, head: nat, free: seq<nat>)
    requires Chain(next, head, free) && |next'| == |next|
    requires forall i :: i in free && i < |next| ==> next'[i] == next[i]
    ensures Chain(next', head, free)
    decreases free
  {
    if free != [] {
      ChainFrame(next, next', next[head], free[1..]);
    }
  }

  function From(k: nat, n: nat): (s: seq<nat>)
    requires k <= n
    ensures |s| == n - k && forall i :: 0 <= i < |s| ==> s[i] == k + i
  {
    seq(n - k, i requires 0 <= i < n - k => k + i)
  }

  /** The links that the constructor and reset() write. */
  lemma {:induction false} FreshChain(next: seq<nat>, k: nat)
    requires k <= |next| && forall i :: 0 <= i < |next| ==> next[i] == i + 1
    ensures Chain(next, k, From(k, |next|))
    decreases |next| - k
  {
    if k < |next| {
      FreshChain(next, k + 1);
      assert From(k, |next|)[1..] == From(k + 1, |next|);
    }
  }

  /** The free list and the used slots are complementary. */
  ghost predicate Complementary(free: seq<nat>, used: set<nat>, capacity: nat) {
    && Distinct(free)
    && (forall i :: i in free ==> i < capacity)
    && (forall i :: i in used ==> i < capacity)
    && (forall i: nat :: i < capacity ==> (i in used <==> i !in free))
  }

  /** Moving the head of the free list into the used slots keeps them complementary. */
  lemma TakenHead(free: seq<nat>, used: set<nat>, capacity: nat)
    requires free != [] && Complementary(free, used, capacity)
    ensures Complementary(free[1..], used + {free[0]}, capacity) && free == [free[0]] + free[1..]
  {
    assert free == [free[0]] + free[1..];
    forall i | i in free[1..] ensures i in free && i != free[0] {
    }
  }

  /** And back: a used slot put in front of the free list. */
  lemma ReturnedHead(free: seq<nat>, used: set<nat>, capacity: nat, i: nat)
    requires i in used && Complementary(free, used, capacity)
    ensures Complementary([i] + free, used - {i}, capacity) && ([i] + free)[1..] == free
  {
    assert ([i] + free)[1..] == free;
    forall j | j in [i] + free ensures j == i || j in free {
    }
  }

  lemma {:induction false} AllBelow(used: set<nat>, n: nat)
    requires forall i: nat :: i in used <==> i < n
    ensures |used| == n
  {
    if n > 0 {
      AllBelow(used - {n - 1}, n - 1);
    }
  }

  lemma {:induction false} ComplementCounts(free: seq<nat>, used: set<nat>, capacity: nat)
    requires Complementary(free, used, capacity)
    ensures |free| + |used| == capacity
    decreases free
  {
    if free == [] {
      AllBelow(used, capacity);
    } else {
      TakenHead(free, used, capacity);
      ComplementCounts(free[1..], used + {free[0]}, capacity);
    }
  }

  /** The addresses of the given slots. */
  ghost function AddressesOf(start: Address, size: nat, slots: set<nat>): set<Address> {
    set i | i in slots :: AddressOf(start, size, i)
  }

  lemma InAddresses(start: Address, size: nat, slots: set<nat>, i: nat)
    requires size > 0
    ensures AddressOf(start, size, i) in AddressesOf(start, size, slots) <==> i in slots
  {
    forall j | j in slots && j != i ensures AddressOf(start, size, j) != AddressOf(start, size, i) {
      AddressesDiffer(start, size, i, j);
    }
  }

  lemma AddressesPlus(start: Address, size: nat, slots: set<nat>, i: nat)
    ensures AddressesOf(start, size, slots + {i}) == AddressesOf(start, size, slots) + {AddressOf(start, size, i)}
  {
    var one := {AddressOf(start, size, i)};
    forall a | a in AddressesOf(start, size, slots) + one ensures a in AddressesOf(start, size, slots + {i}) {
      if a in AddressesOf(start, size, slots) {
        var j :| j in slots && a == AddressOf(start, size, j);
        assert j in slots + {i};
      } else {
        assert i in slots + {i};
      }
    }
  }

  lemma AddressesMinus(start: Address, size: nat, slots: set<nat>, i: nat)
    requires size > 0
    ensures AddressesOf(start, size, slots - {i}) == AddressesOf(start, size, slots) - {AddressOf(start, size, i)}
  {
    InAddresses(start, size, slots - {i}, i);
    forall a | a in AddressesOf(start, size, slots) && a != AddressOf(start, size, i)
      ensures a in AddressesOf(start, size, slots - {i})
    {
      var j :| j in slots && a == AddressOf(start, size, j);
      assert j in slots - {i};
    }
  }

  class Pool {
    const capacity: nat
    const elementSize: nat           // sizeof(T)
    const storage: Address           // mStorage.data()
    const mUsedMap: UsedMap
    const mNext: array<nat>
    var mFreeHead: nat

    ghost var free: seq<nat>         // the free list, from its head

    ghost predicate Valid()
      reads this, mUsedMap, mUsedMap.chunks, mNext
    {
      && Shaped()
      && mUsedMap.Valid()
      && Chain(mNext[..], mFreeHead, free)
      && Complementary(free, Used(), capacity)
    }

    ghost predicate Shaped() {
      && capacity > 0 && elementSize > 0 && storage > 0
      && mUsedMap.capacity == capacity && mNext.Length == capacity && mUsedMap.chunks as object != mNext
    }

    /** The slots whose bit is set. */
    ghost function Used(): set<nat>
      reads mUsedMap
    {
      mUsedMap.marks
    }

    /** The addresses handed out and not given back. */
    ghost function Live(): set<Address>
      reads mUsedMap
    {
      AddressesOf(storage, elementSize, Used())
    }

    constructor (capacity: nat, elementSize: nat, storage: Address)
      requires capacity > 0 && elementSize > 0 && storage > 0
      ensures Valid() && this.capacity == capacity && this.elementSize == elementSize && this.storage == storage
      ensures free == From(0, capacity) && Used() == {} && Live() == {}
      ensures fresh(mUsedMap) && fresh(mUsedMap.chunks) && fresh(mNext)
    {
      this.capacity, this.elementSize, this.storage := capacity, elementSize, storage;
      mUsedMap := new UsedMap(capacity);
      mNext := new nat[capacity](_ => 0);
      mFreeHead := 0;
      free := From(0, capacity);
      new;
      LinkAll();
      AllFree();
    }

    /** The loop of the constructor and of reset(). */
    method LinkAll()
      requires Shaped()
      modifies mNext
      ensures forall i :: 0 <= i < capacity ==> mNext[i] == i + 1
    {
      var i := 0;
      while i + 1 < capacity
        invariant 0 <= i < capacity
        invariant forall j :: 0 <= j < i ==> mNext[j] == j + 1
      {
        mNext[i] := i + 1;
        i := i + 1;
      }
      mNext[capacity - 1] := capacity;
    }

    lemma AllFree()
      requires Shaped() && mUsedMap.Valid() && Used() == {} && mFreeHead == 0 && free == From(0, capacity)
      requires forall i :: 0 <= i < capacity ==> mNext[i] == i + 1
      ensures Valid() && Live() == {}
    {
      FreshChain(mNext[..], 0);
      forall i: nat | i < capacity ensures i in free {
        assert free[i] == i;
      }
    }

    method Alloc() returns (ptr: Address)
      requires Valid()
      modifies this`mFreeHead, this`free, mUsedMap, mUsedMap.chunks
      ensures Valid() && (ptr == 0 <==> old(free) == [])
      ensures old(free) == [] ==> free == [] && Used() == old(Used()) && Live() == old(Live())
      ensures old(free) != [] ==>
                && ptr == AddressOf(storage, elementSize, old(free)[0])
                && ptr !in old(Live()) && Live() == old(Live()) + {ptr}
                && old(free) == [old(free)[0]] + free
    {
      if mFreeHead == capacity {
        return 0;
      }
      var index := mFreeHead;
      mFreeHead := mNext[index];
      free := free[1..];
      mUsedMap.SetUsed(index);
      ptr := AddressOf(storage, elementSize, index);
      InAddresses(storage, elementSize, old(Used()), index);
      AddressesPlus(storage, elementSize, old(Used()), index);
      TakenHead(old(free), old(Used()), capacity);
    }

    method GetIndex(ptr: Address) returns (index: nat)
      requires Shaped()
      ensures index == IndexAt(storage, elementSize, capacity, ptr)
      ensures forall i: nat :: i < capacity ==> (index == i <==> ptr == AddressOf(storage, elementSize, i))
    {
      forall i: nat | i < capacity
        ensures IndexAt(storage, elementSize, capacity, ptr) == i <==> ptr == AddressOf(storage, elementSize, i)
      {
        IndexInvertsAddress(storage, elementSize, capacity, ptr, i);
      }
      if ptr == 0 {
        return capacity;
      }
      if ptr < storage {
        return capacity;
      }
      var offset := ptr - storage;
      if offset >= capacity * elementSize {
        return capacity;
      }
      if offset % elementSize != 0 {
        return capacity;
      }
      index := offset / elementSize;
    }

    method IsAllocated(ptr: Address) returns (yes: bool)
      requires Valid()
      ensures yes <==> ptr in Live()
    {
      var index := GetIndex(ptr);
      LiveIndex(ptr, index);
      yes := false;
      if index < capacity {
        yes := mUsedMap.IsUsed(index);
      }
    }

    lemma LiveIndex(ptr: Address, index: nat)
      requires Valid() && index == IndexAt(storage, elementSize, capacity, ptr)
      requires forall i: nat :: i < capacity ==> (index == i <==> ptr == AddressOf(storage, elementSize, i))
      ensures ptr in Live() <==> index < capacity && index in Used()
      ensures index < capacity ==> ptr == AddressOf(storage, elementSize, index)
      ensures 0 !in Live()
    {
    }

    /** Invalid pointers and pointers not allocated change nothing; the null pointer is accepted and ignored. */
    method Free(ptr: Address) returns (ok: bool)
      requires Valid()
      modifies this`mFreeHead, this`free, mUsedMap, mUsedMap.chunks, mNext
      ensures Valid() && (ok <==> ptr == 0 || ptr in old(Live()))
      ensures ptr !in old(Live()) ==>
                && free == old(free) && mFreeHead == old(mFreeHead) && mNext[..] == old(mNext[..])
                && Used() == old(Used()) && mUsedMap.chunks[..] == old(mUsedMap.chunks[..])
      ensures ptr in old(Live()) ==>
                && Live() == old(Live()) - {ptr}
                && free != [] && free[1..] == old(free) && ptr == AddressOf(storage, elementSize, free[0])
    {
      var index := GetIndex(ptr);
      LiveIndex(ptr, index);
      if ptr == 0 {
        return true;
      }
      if index == capacity {
        return false;
      }
      var used := mUsedMap.IsUsed(index);
      if !used {
        return false;
      }
      AddressesMinus(storage, elementSize, Used(), index);
      GiveBack(index);
      ok := true;
    }

    /** The part of free() after its checks: the slot's bit is cleared and the slot becomes the head. */
    method GiveBack(index: nat)
      requires Valid() && index in Used()
      modifies this`mFreeHead, this`free, mUsedMap, mUsedMap.chunks, mNext
      ensures Valid() && Used() == old(Used()) - {index} && free == [index] + old(free)
    {
      ghost var next := mNext[..];
      ReturnedHead(free, Used(), capacity, index);
      mUsedMap.SetFree(index);
      mNext[index] := mFreeHead;
      ChainFrame(next, mNext[..], mFreeHead, free);
      mFreeHead := index;
      free := [index] + free;
    }

    method Reset()
      requires Valid()
      modifies this`mFreeHead, this`free, mUsedMap, mUsedMap.chunks, mNext
      ensures Valid() && Used() == {} && Live() == {} && free == From(0, capacity)
    {
      mUsedMap.Fill();
      LinkAll();
      mFreeHead := 0;
      free := From(0, capacity);
      AllFree();
    }

    /** `cleaned` is what the cleanup callback was called with, in order: every live pointer, once. */
    method Clear() returns (cleaned: seq<Address>)
      requires Valid()
      modifies this`mFreeHead, this`free, mUsedMap, mUsedMap.chunks, mNext
      ensures Valid() && Used() == {} && Live() == {} && free == From(0, capacity)
      ensures forall a :: a in cleaned <==> a in old(Live())
      ensures forall i, j :: 0 <= i < j < |cleaned| ==> cleaned[i] < cleaned[j]
    {
      cleaned := [];
      for i := 0 to capacity
        invariant Valid() && Used() == old(Used())
        invariant forall a :: a in cleaned <==>
                    exists k: nat :: k < i && k in Used() && a == AddressOf(storage, elementSize, k)
        invariant forall j, k :: 0 <= j < k < |cleaned| ==> cleaned[j] < cleaned[k]
        invariant forall j :: 0 <= j < |cleaned| ==> cleaned[j] < AddressOf(storage, elementSize, i)
      {
        FactorOrder(i, i + 1, elementSize);
        var used := mUsedMap.IsUsed(i);
        if used {
          cleaned := cleaned + [AddressOf(storage, elementSize, i)];
        }
      }
      Reset();
    }

    /** Free and used slots make up the capacity, so alloc fails exactly when every slot is used. */
    lemma FreeAndUsed()
      requires Valid()
      ensures |free| + |Used()| == capacity
      ensures free == [] <==> |Used()| == capacity
    {
      ComplementCounts(free, Used(), capacity);
    }
  }
}

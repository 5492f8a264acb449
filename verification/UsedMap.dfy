/** The bitmap of Pool: 32 slots to a chunk, one bit a slot, read as the set of slots whose bit is set. */
module Bitmap {

  const BITS_PER_CHUNK: nat := 32

  /** The place of a slot's bit inside its chunk. */
  function Place(index: nat): bv5 {
    (index % BITS_PER_CHUNK) as bv5
  }

  function BitMask(index: nat): bv32 {
    (1 as bv32) << Place(index)
  }

  function BitmapSize(capacity: nat): nat
    requires capacity > 0
  {
    1 + (capacity - 1) / BITS_PER_CHUNK
  }

  lemma ChunkInRange(index: nat, capacity: nat)
    requires index < capacity
    ensures index / BITS_PER_CHUNK < BitmapSize(capacity)
  {
  }

  lemma PlaceValue(k: nat)
    requires k < BITS_PER_CHUNK
    ensures (k as bv5) as nat == k
  {
  }

  lemma PlacesDiffer(i: nat, j: nat)
    requires i / BITS_PER_CHUNK == j / BITS_PER_CHUNK && i != j
    ensures Place(i) != Place(j)
  {
    PlaceValue(i % BITS_PER_CHUNK);
    PlaceValue(j % BITS_PER_CHUNK);
    assert i == BITS_PER_CHUNK * (i / BITS_PER_CHUNK) + i % BITS_PER_CHUNK;
  }

  lemma ShiftsApart(k: bv5, l: bv5)
    requires k != l
    ensures ((1 as bv32) << k) & ((1 as bv32) << l) == 0
  {
  }

  lemma MasksApart(i: nat, j: nat)
    requires i / BITS_PER_CHUNK == j / BITS_PER_CHUNK && i != j
    ensures BitMask(i) & BitMask(j) == 0
  {
    PlacesDiffer(i, j);
    ShiftsApart(Place(i), Place(j));
  }

  lemma OrKeeps(x: bv32, a: bv32, b: bv32)
    requires a & b == 0
    ensures (x | a) & b == x & b
  {
  }

  lemma AndNotKeeps(x: bv32, a: bv32, b: bv32)
    requires a & b == 0
    ensures (x & !a) & b == x & b
  {
  }

  lemma OwnBit(x: bv32, k: bv5)
    ensures (x | ((1 as bv32) << k)) & ((1 as bv32) << k) != 0
    ensures (x & !((1 as bv32) << k)) & ((1 as bv32) << k) == 0
  {
  }

  lemma OrInChunk(x: bv32, i: nat, j: nat)
    requires i / BITS_PER_CHUNK == j / BITS_PER_CHUNK && i != j
    ensures (x | BitMask(i)) & BitMask(j) == x & BitMask(j)
  {
    MasksApart(i, j);
    OrKeeps(x, BitMask(i), BitMask(j));
  }

  lemma AndNotInChunk(x: bv32, i: nat, j: nat)
    requires i / BITS_PER_CHUNK == j / BITS_PER_CHUNK && i != j
    ensures (x & !BitMask(i)) & BitMask(j) == x & BitMask(j)
  {
    MasksApart(i, j);
    AndNotKeeps(x, BitMask(i), BitMask(j));
  }

  /** The test that isUsed makes on a slot's chunk. */
  predicate BitIn(chunk: bv32, index: nat) {
    chunk & BitMask(index) != 0
  }

  /** Within one chunk, or-ing a slot's mask sets that slot's bit and no other. */
  lemma OrBit(x: bv32, i: nat, j: nat)
    requires i / BITS_PER_CHUNK == j / BITS_PER_CHUNK
    ensures BitIn(x | BitMask(i), j) <==> i == j || BitIn(x, j)
  {
    if i == j {
      OwnBit(x, Place(i));
    } else {
      OrInChunk(x, i, j);
    }
  }

  /** Within one chunk, and-ing the inverted mask clears that slot's bit and no other. */
  lemma AndNotBit(x: bv32, i: nat, j: nat)
    requires i / BITS_PER_CHUNK == j / BITS_PER_CHUNK
    ensures BitIn(x & !BitMask(i), j) <==> i != j && BitIn(x, j)
  {
    if i == j {
      OwnBit(x, Place(i));
    } else {
      AndNotInChunk(x, i, j);
    }
  }

  class UsedMap {
    const capacity: nat
    const chunks: array<bv32>
    ghost var marks: set<nat>           // the slots whose bit is set

    ghost predicate Valid()
      reads this, chunks
    {
      && Shaped()
      && (forall i :: i in marks ==> i < capacity)
      && (forall i: nat {:trigger BitAt(i)} :: i < capacity ==> (BitAt(i) <==> i in marks))
    }

    predicate Shaped() {
      0 < capacity && chunks.Length == BitmapSize(capacity)
    }

    predicate BitAt(i: nat)
      requires Shaped() && i < capacity
      reads chunks
    {
      ChunkInRange(i, capacity);
      BitIn(chunks[i / BITS_PER_CHUNK], i)
    }

    constructor (capacity: nat)
      requires capacity > 0
      ensures Valid() && this.capacity == capacity && marks == {} && fresh(chunks)
    {
      this.capacity := capacity;
      chunks := new bv32[BitmapSize(capacity)](_ => 0);
      marks := {};
      new;
      forall i: nat | i < capacity ensures !BitAt(i) {
        ChunkInRange(i, capacity);
      }
    }

    method IsUsed(i: nat) returns (yes: bool)
      requires Valid() && i < capacity
      ensures yes <==> i in marks
    {
      ChunkInRange(i, capacity);
      yes := BitAt(i);
    }

    lemma ChunkTells(j: nat, c: nat)
      requires Valid() && j < capacity && c < chunks.Length && j / BITS_PER_CHUNK == c
      ensures BitIn(chunks[c], j) <==> j in marks
    {
      assert BitAt(j) <==> j in marks;
    }

    method SetUsed(i: nat)
      requires Valid() && i < capacity
      modifies this, chunks
      ensures Valid() && marks == old(marks) + {i}
    {
      ChunkInRange(i, capacity);
      var c := i / BITS_PER_CHUNK;
      var x := chunks[c];
      forall j: nat | j < capacity && j / BITS_PER_CHUNK == c ensures BitIn(x | BitMask(i), j) <==> j in marks + {i} {
        ChunkTells(j, c);
        OrBit(x, i, j);
      }
      Store(c, x | BitMask(i), marks + {i});
    }

    method SetFree(i: nat)
      requires Valid() && i < capacity
      modifies this, chunks
      ensures Valid() && marks == old(marks) - {i}
    {
      ChunkInRange(i, capacity);
      var c := i / BITS_PER_CHUNK;
      var x := chunks[c];
      forall j: nat | j < capacity && j / BITS_PER_CHUNK == c ensures BitIn(x & !BitMask(i), j) <==> j in marks - {i} {
        ChunkTells(j, c);
        AndNotBit(x, i, j);
      }
      Store(c, x & !BitMask(i), marks - {i});
    }

    /** The assignment to a chunk; `slots` are the slots whose bit is to be set after it. */
    method Store(c: nat, chunk: bv32, ghost slots: set<nat>)
      requires Valid() && c < chunks.Length
      requires forall j :: j in slots ==> j < capacity
      requires forall j: nat :: j < capacity && j / BITS_PER_CHUNK == c ==> (BitIn(chunk, j) <==> j in slots)
      requires forall j: nat :: j < capacity && j / BITS_PER_CHUNK != c ==> (j in marks <==> j in slots)
      modifies this, chunks
      ensures Valid() && marks == slots
    {
      chunks[c] := chunk;
      marks := slots;
      forall j: nat | j < capacity ensures BitAt(j) <==> j in marks {
        ChunkInRange(j, capacity);
        assert old(BitAt(j)) <==> j in old(marks);
        if j / BITS_PER_CHUNK == c {
          assert BitIn(chunk, j) <==> j in marks;
        } else {
          assert chunks[j / BITS_PER_CHUNK] == old(chunks[j / BITS_PER_CHUNK]);
        }
      }
    }

    method Fill()
      requires Valid()
      modifies this, chunks
      ensures Valid() && marks == {}
    {
      for c := 0 to chunks.Length
        invariant forall d :: 0 <= d < c ==> chunks[d] == 0
      {
        chunks[c] := 0;
      }
      marks := {};
      forall i: nat | i < capacity ensures !BitAt(i) {
        ChunkInRange(i, capacity);
      }
    }
  }
}

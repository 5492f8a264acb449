/** RawObserverList under its lock: what each critical section does to the slots, as functions on values,
  * and the class whose methods do it in place. */
module ObserverRegistry {

  /** A pointer to an observer; 0 is the null pointer. */
  type Observer = nat

  const NULL: Observer := 0

  datatype Entry = Entry(observer: Observer, activeCalls: nat, generation: nat, removed: bool, waitingRemoval: bool)

  const EMPTY := Entry(NULL, 0, 0, false, false)

  datatype RemoveResult = Removed | NotFound | NullObserver

  datatype Registry = Registry(entries: seq<Entry>, occupied: seq<bool>, generation: nat)
  {
    ghost predicate WellFormed(max: nat) {
      |entries| == max && |occupied| == max
    }

    function Max(): nat {
      |occupied|
    }
  }

  function EmptyRegistry(max: nat): (r: Registry)
    ensures r.WellFormed(max)
    ensures forall i :: 0 <= i < max ==> r.entries[i] == EMPTY && !r.occupied[i]
  {
    Registry(seq(max, _ => EMPTY), seq(max, _ => false), 0)
  }

  /** The first free slot at or after `i`, or the number of slots. */
  function FirstFree(r: Registry, i: nat): (f: nat)
    requires i <= r.Max()
    ensures i <= f <= r.Max()
    ensures f < r.Max() ==> !r.occupied[f]
    ensures forall j :: i <= j < f ==> r.occupied[j]
    decreases r.Max() - i
  {
    if i < r.Max() && r.occupied[i] then FirstFree(r, i + 1) else i
  }

  predicate Knows(r: Registry, o: Observer)
    requires r.WellFormed(r.Max())
  {
    exists i :: 0 <= i < r.Max() && r.occupied[i] && r.entries[i].observer == o
  }

  predicate ActiveAt(r: Registry, i: nat, o: Observer)
    requires r.WellFormed(r.Max()) && i < r.Max()
  {
    r.occupied[i] && r.entries[i].observer == o && !r.entries[i].removed
  }

  /** `findActiveEntryIndexLocked` from slot `i` on. */
  function FindActive(r: Registry, o: Observer, i: nat): (f: nat)
    requires r.WellFormed(r.Max()) && i <= r.Max()
    ensures i <= f <= r.Max()
    ensures f < r.Max() ==> ActiveAt(r, f, o)
    ensures forall j :: i <= j < f ==> !ActiveAt(r, j, o)
    decreases r.Max() - i
  {
    if i < r.Max() && !ActiveAt(r, i, o) then FindActive(r, o, i + 1) else i
  }

  /** Some slot holds the observer, not removed: `contains`. */
  predicate Registered(r: Registry, o: Observer)
    requires r.WellFormed(r.Max())
  {
    exists i :: 0 <= i < r.Max() && ActiveAt(r, i, o)
  }

  /** No two occupied slots hold the same observer, as `add` sees to. */
  predicate ApartObservers(r: Registry)
    requires r.WellFormed(r.Max())
  {
    forall i, j :: 0 <= i < j < r.Max() && r.occupied[i] && r.occupied[j] ==>
      r.entries[i].observer != r.entries[j].observer
  }

  function SetEntry(r: Registry, i: nat, e: Entry): Registry
    requires i < |r.entries|
  {
    r.(entries := r.entries[i := e])
  }

  /** `resetEntryLocked`. */
  function Reset(r: Registry, i: nat): Registry
    requires r.WellFormed(r.Max()) && i < r.Max()
  {
    r.(entries := r.entries[i := EMPTY], occupied := r.occupied[i := false])
  }

  predicate CanAdd(r: Registry, o: Observer)
    requires r.WellFormed(r.Max())
  {
    o != NULL && !Knows(r, o) && FirstFree(r, 0) < r.Max()
  }

  /** `add`. */
  function Add(r: Registry, o: Observer): Registry
    requires r.WellFormed(r.Max())
  {
    if !CanAdd(r, o) then r
    else
      var f := FirstFree(r, 0);
      Registry(r.entries[f := Entry(o, 0, r.generation + 1, false, false)], r.occupied[f := true], r.generation + 1)
  }

  /** `remove`. */
  function Remove(r: Registry, o: Observer): (Registry, RemoveResult)
    requires r.WellFormed(r.Max())
  {
    if o == NULL then (r, NullObserver)
    else
      var i := FindActive(r, o, 0);
      if i == r.Max() then (r, NotFound)
      else
        var e := r.entries[i].(removed := true);
        (if e.activeCalls == 0 && !e.waitingRemoval then Reset(r, i) else SetEntry(r, i, e), Removed)
  }

  datatype Wait = Returns(result: RemoveResult) | MustWait(slot: nat)

  /** `removeAndWait` up to its return or its wait. */
  function RemoveOrWait(r: Registry, o: Observer): (Registry, Wait)
    requires r.WellFormed(r.Max())
  {
    if o == NULL then (r, Returns(NullObserver))
    else
      var i := FindActive(r, o, 0);
      if i == r.Max() then (r, Returns(NotFound))
      else if r.entries[i].activeCalls == 0 then (Reset(r, i), Returns(Removed))
      else (SetEntry(r, i, r.entries[i].(removed := true, waitingRemoval := true)), MustWait(i))
  }

  predicate CanAcquire(r: Registry, i: nat, startGeneration: nat)
    requires r.WellFormed(r.Max()) && i < r.Max()
  {
    r.occupied[i] && !r.entries[i].removed && r.entries[i].generation <= startGeneration
  }

  /** `acquireForNotify`. */
  function Acquire(r: Registry, i: nat, startGeneration: nat): (Registry, Observer)
    requires r.WellFormed(r.Max()) && i < r.Max()
  {
    if CanAcquire(r, i, startGeneration) then
      (SetEntry(r, i, r.entries[i].(activeCalls := r.entries[i].activeCalls + 1)), r.entries[i].observer)
    else (r, NULL)
  }

  /** `releaseAfterNotify`: the slots afterwards, and whether a broadcast is owed. */
  function Release(r: Registry, i: nat): (Registry, bool)
    requires r.WellFormed(r.Max()) && i < r.Max()
  {
    if !r.occupied[i] then (r, false)
    else
      var e := r.entries[i];
      var e' := e.(activeCalls := if e.activeCalls > 0 then e.activeCalls - 1 else 0);
      if e'.activeCalls == 0 then
        (if e'.removed && !e'.waitingRemoval then Reset(r, i) else SetEntry(r, i, e'), e'.waitingRemoval)
      else (SetEntry(r, i, e'), false)
  }

  predicate Swept(r: Registry, i: nat)
    requires r.WellFormed(r.Max()) && i < r.Max()
  {
    r.occupied[i] && r.entries[i].removed && !r.entries[i].waitingRemoval && r.entries[i].activeCalls == 0
  }

  /** `releaseRemoved`. */
  function Sweep(r: Registry): Registry
    requires r.WellFormed(r.Max())
  {
    Registry(seq(r.Max(), i requires 0 <= i < r.Max() => if Swept(r, i) then EMPTY else r.entries[i]),
             seq(r.Max(), i requires 0 <= i < r.Max() => r.occupied[i] && !Swept(r, i)),
             r.generation)
  }

  /** The list itself. Each method is one critical section of the original, entered with mLock held. */
  class RawObserverList {
    const max: nat
    const mEntries: array<Entry>
    const mOccupiedBits: array<bool>
    var mGeneration: nat

    ghost predicate Valid()
      reads this
    {
      mEntries.Length == max && mOccupiedBits.Length == max
    }

    ghost function View(): (r: Registry)
      requires Valid()
      reads this, mEntries, mOccupiedBits
      ensures r.WellFormed(max)
    {
      Registry(mEntries[..], mOccupiedBits[..], mGeneration)
    }

    constructor (maxObservers: nat)
      ensures Valid() && max == maxObservers && fresh(mEntries) && fresh(mOccupiedBits)
      ensures View() == EmptyRegistry(maxObservers)
    {
      max := maxObservers;
      mEntries := new Entry[maxObservers](_ => EMPTY);
      mOccupiedBits := new bool[maxObservers](_ => false);
      mGeneration := 0;
    }

    method AddObserver(observer: Observer) returns (ok: bool)
      requires Valid()
      modifies this`mGeneration, mEntries, mOccupiedBits
      ensures Valid() && View() == Add(old(View()), observer)
      ensures ok <==> CanAdd(old(View()), observer)
      ensures ok <==> observer != NULL && !Knows(old(View()), observer)
                      && exists i :: 0 <= i < max && !old(mOccupiedBits[i])
      ensures ok ==> Registered(View(), observer)
      ensures !ok ==> View() == old(View())
    {
      if observer == NULL {
        return false;
      }
      var freeIndex: nat := max;
      ghost var was := View();
      for i := 0 to max
        invariant freeIndex <= max && |was.occupied| == max == |was.entries|
        invariant freeIndex < max ==> freeIndex < i && !was.occupied[freeIndex]
        invariant View() == was
        invariant forall j :: 0 <= j < i && j < freeIndex ==> was.occupied[j]
        invariant forall j :: 0 <= j < i && was.occupied[j] ==> was.entries[j].observer != observer
      {
        if !mOccupiedBits[i] {
          if freeIndex == max {
            freeIndex := i;
          }
        } else if mEntries[i].observer == observer {
          assert was.occupied[i] && was.entries[i].observer == observer;
          return false;
        }
      }
      assert freeIndex == FirstFree(was, 0);
      if freeIndex == max {
        return false;
      }
      mGeneration := mGeneration + 1;
      mEntries[freeIndex] := Entry(observer, 0, mGeneration, false, false);
      mOccupiedBits[freeIndex] := true;
      assert ActiveAt(View(), freeIndex, observer);
      ok := true;
    }

    method FindActiveEntryIndexLocked(observer: Observer) returns (index: nat)
      requires Valid()
      ensures index == FindActive(View(), observer, 0)
    {
      index := 0;
      while index < max
        invariant index <= max
        invariant forall j :: 0 <= j < index ==> !ActiveAt(View(), j, observer)
      {
        if mOccupiedBits[index] && mEntries[index].observer == observer && !mEntries[index].removed {
          assert ActiveAt(View(), index, observer);
          return;
        }
        index := index + 1;
      }
    }

    method ResetEntryLocked(index: nat)
      requires Valid() && index < max
      modifies mEntries, mOccupiedBits
      ensures View() == Reset(old(View()), index)
    {
      mEntries[index] := EMPTY;
      mOccupiedBits[index] := false;
    }

    method RemoveObserver(observer: Observer) returns (result: RemoveResult)
      requires Valid()
      modifies mEntries, mOccupiedBits
      ensures Valid() && (View(), result) == Remove(old(View()), observer)
      ensures result == NullObserver <==> observer == NULL
      ensures result == Removed <==> observer != NULL && Registered(old(View()), observer)
      ensures observer != NULL && ApartObservers(old(View())) ==> !Registered(View(), observer)
    {
      if observer == NULL {
        return NullObserver;
      }
      var index := FindActiveEntryIndexLocked(observer);
      if index == max {
        return NotFound;
      }
      ghost var was := View();
      mEntries[index] := mEntries[index].(removed := true);
      if mEntries[index].activeCalls == 0 && !mEntries[index].waitingRemoval {
        ResetEntryLocked(index);
        assert View() == Reset(was, index);
      } else {
        assert View() == SetEntry(was, index, was.entries[index].(removed := true));
      }
      result := Removed;
    }

    /** removeAndWait up to its return or its wait on mChanged. */
    method RemoveAndWaitBegin(observer: Observer) returns (w: Wait)
      requires Valid()
      modifies mEntries, mOccupiedBits
      ensures Valid() && (View(), w) == RemoveOrWait(old(View()), observer)
      ensures w == Returns(NullObserver) <==> observer == NULL
      ensures w == Returns(NotFound) <==> observer != NULL && !Registered(old(View()), observer)
      ensures w.MustWait? ==> w.slot < max && ActiveAt(old(View()), w.slot, observer)
                              && old(mEntries[w.slot].activeCalls) > 0
      ensures observer != NULL && ApartObservers(old(View())) ==> !Registered(View(), observer)
    {
      if observer == NULL {
        return Returns(NullObserver);
      }
      var index := FindActiveEntryIndexLocked(observer);
      if index == max {
        return Returns(NotFound);
      }
      ghost var was := View();
      mEntries[index] := mEntries[index].(removed := true);
      if mEntries[index].activeCalls == 0 {
        ResetEntryLocked(index);
        assert View() == Reset(was, index);
        return Returns(Removed);
      }
      mEntries[index] := mEntries[index].(waitingRemoval := true);
      assert View() == SetEntry(was, index, was.entries[index].(removed := true, waitingRemoval := true));
      w := MustWait(index);
    }

    method AcquireForNotify(index: nat, startGeneration: nat) returns (observer: Observer)
      requires Valid() && index < max
      modifies mEntries
      ensures Valid() && (View(), observer) == Acquire(old(View()), index, startGeneration)
    {
      if !mOccupiedBits[index] {
        return NULL;
      }
      if mEntries[index].removed || mEntries[index].generation > startGeneration {
        return NULL;
      }
      ghost var was := View();
      mEntries[index] := mEntries[index].(activeCalls := mEntries[index].activeCalls + 1);
      assert View() == Acquire(was, index, startGeneration).0;
      observer := mEntries[index].observer;
    }

    method ReleaseAfterNotify(index: nat) returns (notifyWaiter: bool)
      requires Valid() && index < max
      modifies mEntries, mOccupiedBits
      ensures Valid() && (View(), notifyWaiter) == Release(old(View()), index)
    {
      if !mOccupiedBits[index] {
        return false;
      }
      notifyWaiter := false;
      ghost var was := View();
      if mEntries[index].activeCalls > 0 {
        mEntries[index] := mEntries[index].(activeCalls := mEntries[index].activeCalls - 1);
      }
      ghost var e := mEntries[index];
      assert View() == SetEntry(was, index, e);
      if mEntries[index].activeCalls == 0 {
        notifyWaiter := mEntries[index].waitingRemoval;
        if mEntries[index].removed && !mEntries[index].waitingRemoval {
          ResetEntryLocked(index);
          assert View() == Reset(was, index);
        }
      }
    }

    method ReleaseRemoved()
      requires Valid()
      modifies mEntries, mOccupiedBits
      ensures Valid() && View() == Sweep(old(View()))
      ensures forall i :: 0 <= i < max ==>
                if old(mOccupiedBits[i] && mEntries[i].removed && !mEntries[i].waitingRemoval
                       && mEntries[i].activeCalls == 0)
                then !mOccupiedBits[i] && mEntries[i] == EMPTY
                else mOccupiedBits[i] == old(mOccupiedBits[i]) && mEntries[i] == old(mEntries[i])
    {
      ghost var was := View();
      for i := 0 to max
        invariant mGeneration == was.generation
        invariant forall j :: 0 <= j < i ==>
                    mEntries[j] == Sweep(was).entries[j] && mOccupiedBits[j] == Sweep(was).occupied[j]
        invariant forall j :: i <= j < max ==>
                    mEntries[j] == was.entries[j] && mOccupiedBits[j] == was.occupied[j]
      {
        if mOccupiedBits[i] && mEntries[i].removed && !mEntries[i].waitingRemoval && mEntries[i].activeCalls == 0 {
          ResetEntryLocked(i);
          assert forall j :: 0 <= j < max && j != i ==>
              mEntries[j] == View().entries[j] && mOccupiedBits[j] == View().occupied[j];
          assert View().entries[i] == EMPTY && !View().occupied[i];
        }
      }
      assert View().entries == Sweep(was).entries;
      assert View().occupied == Sweep(was).occupied;
    }
  }
}

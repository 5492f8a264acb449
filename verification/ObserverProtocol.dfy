/** RawObserverList used by any number of notifiers, adders, removers and waiters at once.
  *
  * A step is one critical section under mLock, or the broadcast that follows one. A callback that itself
  * calls add, remove or notify is covered: its calls are steps of other parties while its notifier is
  * still in the action. */
module ObserverProtocol {
  import opened ObserverRegistry

  type Party = nat

  /** One call of the action: the slot, the registration (by its generation) and the observer passed. */
  datatype Call = Call(slot: nat, generation: nat, observer: Observer)

  datatype NotifierPc =
    | Scanning                                     // before the next slot, or before the final sweep
    | Calling(observer: Observer, generation: nat) // inside action(target)
    | Owing                                        // released; mChanged.broadcast() comes next
    | Returned

  datatype Notifier = Notifier(
    startGeneration: nat, snapshot: seq<bool>, pc: NotifierPc,
    reached: seq<bool>,   // one entry per slot visited; history: was the slot's snapshot registration live then?
    listed: seq<nat>,     // history: the generation in each slot when the snapshot was taken
    calls: seq<Call>)     // history

  /** A thread in `removeAndWait` past its first look. */
  datatype Waiter = Waiter(slot: nat, generation: nat, asleep: bool)

  datatype Sys = Sys(
    reg: Registry,
    notifiers: map<Party, Notifier>,
    waiters: map<Party, Waiter>,
    book: seq<Observer>,  // history: the observer of generation g is book[g - 1]
    gone: set<nat>)       // history: generations whose removeAndWait has returned Removed

  datatype Act =
    | Register(o: Observer)
    | Unregister(o: Observer)
    | UnregisterAndWait(who: Party, o: Observer)
    | WakeUp(who: Party)          // spurious, or a broadcast meant for another slot
    | Recheck(who: Party)
    | Notify(who: Party)          // take the snapshot
    | Visit(who: Party)           // the next slot: skip it or acquireForNotify
    | Finish(who: Party)          // action returns; releaseAfterNotify
    | Broadcast(who: Party)
    | SweepUp(who: Party)         // releaseRemoved and return

  predicate At(s: Sys, who: Party, pc: NotifierPc) {
    who in s.notifiers && s.notifiers[who].pc == pc
  }

  ghost predicate Closed(s: Sys) {
    && s.reg.WellFormed(s.reg.Max())
    && (forall n :: n in s.notifiers ==> |s.notifiers[n].snapshot| == s.reg.Max() == |s.notifiers[n].listed|)
    && (forall n :: n in s.notifiers ==> |s.notifiers[n].reached| <= s.reg.Max())
    && (forall n :: n in s.notifiers && s.notifiers[n].pc.Calling? ==> s.notifiers[n].reached != [])
    && (forall w :: w in s.waiters ==> s.waiters[w].slot < s.reg.Max())
  }

  /** The slot a notifier is calling from. */
  function Slot(n: Notifier): int {
    |n.reached| - 1
  }

  ghost predicate Enabled(s: Sys, a: Act) {
    Closed(s) &&
    match a
    case Register(_) => true
    case Unregister(_) => true
    case UnregisterAndWait(who, _) => who !in s.waiters
    case WakeUp(who) => who in s.waiters
    case Recheck(who) => who in s.waiters && !s.waiters[who].asleep
    case Notify(who) => who !in s.notifiers
    case Visit(who) => At(s, who, Scanning) && |s.notifiers[who].reached| < s.reg.Max()
    case Finish(who) => who in s.notifiers && s.notifiers[who].pc.Calling?
    case Broadcast(who) => At(s, who, Owing)
    case SweepUp(who) => At(s, who, Scanning) && |s.notifiers[who].reached| == s.reg.Max()
  }

  /** Some slot holds registration `g` and it is not removed. */
  ghost predicate Live(r: Registry, g: nat)
    requires r.WellFormed(r.Max())
  {
    exists i :: 0 <= i < r.Max() && r.occupied[i] && !r.entries[i].removed && r.entries[i].generation == g
  }

  function Generations(r: Registry): (l: seq<nat>)
    requires r.WellFormed(r.Max())
    ensures |l| == r.Max() && forall i :: 0 <= i < |l| ==> l[i] == r.entries[i].generation
  {
    seq(r.Max(), i requires 0 <= i < r.Max() => r.entries[i].generation)
  }

  ghost function VisitSlot(s: Sys, n: Notifier): (Registry, Notifier)
    requires s.reg.WellFormed(s.reg.Max()) && |n.snapshot| == s.reg.Max() == |n.listed| && |n.reached| < s.reg.Max()
  {
    var i := |n.reached|;
    if !n.snapshot[i] then (s.reg, n.(reached := n.reached + [false]))
    else
      var (r, o) := Acquire(s.reg, i, n.startGeneration);
      var n' := n.(reached := n.reached + [Live(s.reg, n.listed[i])]);
      if o == NULL then (r, n')
      else
        var g := s.reg.entries[i].generation;
        (r, n'.(pc := Calling(o, g), calls := n.calls + [Call(i, g, o)]))
  }

  ghost function Do(s: Sys, a: Act): Sys
    requires Enabled(s, a)
  {
    match a
    case Register(o) => s.(reg := Add(s.reg, o), book := if CanAdd(s.reg, o) then s.book + [o] else s.book)
    case Unregister(o) => s.(reg := Remove(s.reg, o).0)
    case UnregisterAndWait(who, o) =>
      (match RemoveOrWait(s.reg, o).1
       case Returns(result) =>
         s.(reg := RemoveOrWait(s.reg, o).0,
            gone := if result == Removed then s.gone + {s.reg.entries[FindActive(s.reg, o, 0)].generation} else s.gone)
       case MustWait(i) =>
         s.(reg := RemoveOrWait(s.reg, o).0,
            waiters := s.waiters[who := Waiter(i, s.reg.entries[i].generation, true)]))
    case WakeUp(who) => s.(waiters := s.waiters[who := s.waiters[who].(asleep := false)])
    case Recheck(who) =>
      var w := s.waiters[who];
      if s.reg.entries[w.slot].activeCalls == 0 then
        s.(reg := Reset(s.reg, w.slot), waiters := s.waiters - {who}, gone := s.gone + {w.generation})
      else s.(waiters := s.waiters[who := w.(asleep := true)])
    case Notify(who) => s.(notifiers := s.notifiers[who := FreshNotifier(s.reg)])
    case Visit(who) =>
      var (r, n) := VisitSlot(s, s.notifiers[who]);
      s.(reg := r, notifiers := s.notifiers[who := n])
    case Finish(who) =>
      var n := s.notifiers[who];
      var (r, owes) := Release(s.reg, Slot(n));
      s.(reg := r, notifiers := s.notifiers[who := n.(pc := if owes then Owing else Scanning)])
    case Broadcast(who) =>
      s.(notifiers := s.notifiers[who := s.notifiers[who].(pc := Scanning)],
         waiters := map w | w in s.waiters :: s.waiters[w].(asleep := false))
    case SweepUp(who) =>
      s.(reg := Sweep(s.reg), notifiers := s.notifiers[who := s.notifiers[who].(pc := Returned)])
  }

  function Initial(max: nat): Sys {
    Sys(EmptyRegistry(max), map[], map[], [], {})
  }

  ghost predicate IsRun(run: seq<Sys>, acts: seq<Act>, max: nat) {
    && |run| == |acts| + 1
    && run[0] == Initial(max)
    && forall i :: 0 <= i < |acts| ==> Enabled(run[i], acts[i]) && run[i + 1] == Do(run[i], acts[i])
  }

  // ---------------------------------------------------------------- the invariant

  predicate Holds(n: Notifier, i: nat) {
    n.pc.Calling? && Slot(n) == i
  }

  /** The notifiers inside an action for slot `i`. */
  ghost function Holders(s: Sys, i: nat): set<Party> {
    set n | n in s.notifiers && Holds(s.notifiers[n], i)
  }

  predicate EntryOk(e: Entry, occupied: bool, generation: nat, book: seq<Observer>) {
    if !occupied then e == EMPTY
    else
      && e.observer != NULL
      && 0 < e.generation <= generation && generation == |book| && book[e.generation - 1] == e.observer
      && (e.waitingRemoval ==> e.removed)
      && (e.removed && !e.waitingRemoval ==> e.activeCalls > 0)
  }

  ghost predicate SlotsInv(s: Sys) {
    && Closed(s)
    && s.reg.generation == |s.book|
    && (forall i :: 0 <= i < s.reg.Max() ==> EntryOk(s.reg.entries[i], s.reg.occupied[i], s.reg.generation, s.book))
    && (forall i, j :: 0 <= i < j < s.reg.Max() && s.reg.occupied[i] && s.reg.occupied[j] ==>
          s.reg.entries[i].generation != s.reg.entries[j].generation
          && s.reg.entries[i].observer != s.reg.entries[j].observer)
    && (forall i :: 0 <= i < s.reg.Max() ==> s.reg.entries[i].activeCalls == |Holders(s, i)|)
  }

  /** A notifier in its action holds the very registration it acquired. */
  predicate CallOk(r: Registry, n: Notifier)
    requires r.WellFormed(r.Max()) && |n.reached| <= r.Max() && (n.pc.Calling? ==> n.reached != [])
  {
    n.pc.Calling? ==>
      var i := Slot(n);
      r.occupied[i] && r.entries[i].observer == n.pc.observer && r.entries[i].generation == n.pc.generation
  }

  ghost predicate CallsInv(s: Sys)
    requires Closed(s)
  {
    forall n :: n in s.notifiers ==> CallOk(s.reg, s.notifiers[n])
  }

  predicate WaiterOk(r: Registry, w: Waiter)
    requires r.WellFormed(r.Max()) && w.slot < r.Max()
  {
    r.occupied[w.slot] && r.entries[w.slot].waitingRemoval && r.entries[w.slot].generation == w.generation
  }

  ghost predicate SomeoneOwes(s: Sys) {
    exists n :: n in s.notifiers && s.notifiers[n].pc == Owing
  }

  ghost predicate Awaited(s: Sys, i: nat) {
    exists w :: w in s.waiters && s.waiters[w].slot == i
  }

  /** Each waiter's slot still holds the registration it waits for, marked for it. */
  ghost predicate WaitersSeated(s: Sys)
    requires Closed(s)
  {
    forall w :: w in s.waiters ==> WaiterOk(s.reg, s.waiters[w])
  }

  ghost predicate WaitersApart(s: Sys) {
    forall w, v :: w in s.waiters && v in s.waiters && w != v ==> s.waiters[w].slot != s.waiters[v].slot
  }

  ghost predicate MarksAwaited(s: Sys)
    requires Closed(s)
  {
    forall i :: 0 <= i < s.reg.Max() && s.reg.entries[i].waitingRemoval ==> Awaited(s, i)
  }

  /** A waiter asleep although nobody is left in its registration's callback will be woken. */
  ghost predicate WakeOwed(s: Sys)
    requires Closed(s)
  {
    SomeoneOwes(s) || forall w :: w in s.waiters && s.waiters[w].asleep ==>
                        s.reg.entries[s.waiters[w].slot].activeCalls > 0
  }

  ghost predicate WaitersInv(s: Sys)
    requires Closed(s)
  {
    WaitersSeated(s) && WaitersApart(s) && MarksAwaited(s) && WakeOwed(s)
  }

  ghost predicate GoneInv(s: Sys)
    requires Closed(s)
  {
    forall g :: g in s.gone ==> GoneFrom(s.reg, g)
  }

  /** Registration `g` has been and is no more. */
  ghost predicate GoneFrom(r: Registry, g: nat)
    requires r.WellFormed(r.Max())
  {
    0 < g <= r.generation && forall i :: 0 <= i < r.Max() && r.occupied[i] ==> r.entries[i].generation != g
  }

  /** What the calls made so far should be: the snapshot registrations found live when reached, in slot order. */
  function Expected(snapshot: seq<bool>, listed: seq<nat>, reached: seq<bool>, book: seq<Observer>): seq<Call>
    requires |reached| <= |snapshot| == |listed|
    requires forall i :: 0 <= i < |snapshot| && snapshot[i] ==> 0 < listed[i] <= |book|
  {
    if reached == [] then []
    else
      var i := |reached| - 1;
      Expected(snapshot, listed, reached[..i], book)
      + if snapshot[i] && reached[i] then [Call(i, listed[i], book[listed[i] - 1])] else []
  }

  ghost predicate SnapshotOk(r: Registry, book: seq<Observer>, n: Notifier)
    requires r.WellFormed(r.Max()) && |n.snapshot| == r.Max() == |n.listed| && |n.reached| <= r.Max()
  {
    && n.startGeneration <= r.generation
    && n.startGeneration <= |book|
    && (forall i :: 0 <= i < r.Max() && n.snapshot[i] ==> 0 < n.listed[i] <= n.startGeneration)
    && (forall i, j :: 0 <= i < j < r.Max() && n.snapshot[i] && n.snapshot[j] ==> n.listed[i] != n.listed[j])
    && (forall i :: 0 <= i < r.Max() && r.occupied[i] && r.entries[i].generation <= n.startGeneration ==>
          n.snapshot[i] && n.listed[i] == r.entries[i].generation)
    && n.calls == Expected(n.snapshot, n.listed, n.reached, book)
    && (n.pc == Returned ==> |n.reached| == |n.snapshot|)
  }

  ghost predicate SnapshotsInv(s: Sys)
    requires Closed(s)
  {
    forall n :: n in s.notifiers ==> SnapshotOk(s.reg, s.book, s.notifiers[n])
  }

  ghost predicate Inv(s: Sys) {
    SlotsInv(s) && CallsInv(s) && WaitersInv(s) && GoneInv(s) && SnapshotsInv(s)
  }

  // ---------------------------------------------------------------- preservation

  /** Slots other than `i` are as before, and so is the generation counter. */
  ghost predicate OnlySlot(r: Registry, r': Registry, i: nat)
    requires r.WellFormed(r.Max())
  {
    && r'.WellFormed(r.Max()) && r'.generation == r.generation
    && forall j :: 0 <= j < r.Max() && j != i ==> r'.entries[j] == r.entries[j] && r'.occupied[j] == r.occupied[j]
  }

  /** Slot `i` is reset or keeps its registration. */
  ghost predicate SlotKeptOrReset(r: Registry, r': Registry, i: nat)
    requires r.WellFormed(r.Max()) && i < r.Max()
  {
    && OnlySlot(r, r', i)
    && r.occupied[i]
    && (if r'.occupied[i] then
          r'.entries[i].observer == r.entries[i].observer && r'.entries[i].generation == r.entries[i].generation
          && (r.entries[i].removed ==> r'.entries[i].removed)
        else r'.entries[i] == EMPTY)
  }

  lemma SnapshotsOutlive(r: Registry, r': Registry, i: nat, book: seq<Observer>, n: Notifier)
    requires r.WellFormed(r.Max()) && i < r.Max() && SlotKeptOrReset(r, r', i)
    requires |n.snapshot| == r.Max() == |n.listed| && |n.reached| <= r.Max() && SnapshotOk(r, book, n)
    ensures SnapshotOk(r', book, n)
  {
  }

  /** The parts of the invariant after a step that touches slot `i` alone. */
  lemma SlotsKept(s: Sys, s': Sys, i: nat)
    requires SlotsInv(s) && Closed(s') && i < s.reg.Max() && s'.book == s.book
    requires SlotKeptOrReset(s.reg, s'.reg, i)
    requires EntryOk(s'.reg.entries[i], s'.reg.occupied[i], s'.reg.generation, s'.book)
    requires s'.reg.entries[i].activeCalls == |Holders(s', i)|
    requires forall j :: 0 <= j < s.reg.Max() && j != i ==> Holders(s', j) == Holders(s, j)
    ensures SlotsInv(s')
  {
    forall j | 0 <= j < s'.reg.Max()
      ensures EntryOk(s'.reg.entries[j], s'.reg.occupied[j], s'.reg.generation, s'.book)
      ensures s'.reg.entries[j].activeCalls == |Holders(s', j)|
    {
      if j != i {
        assert EntryOk(s.reg.entries[j], s.reg.occupied[j], s.reg.generation, s.book);
      }
    }
  }

  lemma CallsKept(s: Sys, s': Sys, i: nat)
    requires CallsInv'(s) && Closed(s') && i < s.reg.Max()
    requires SlotKeptOrReset(s.reg, s'.reg, i)
    requires s'.reg.occupied[i] || Holders(s', i) == {}
    requires forall n :: n in s'.notifiers && (n !in s.notifiers || s'.notifiers[n] != s.notifiers[n]) ==>
               CallOk(s'.reg, s'.notifiers[n])
    ensures CallsInv(s')
  {
    forall n | n in s'.notifiers ensures CallOk(s'.reg, s'.notifiers[n]) {
      if n in s.notifiers && s'.notifiers[n] == s.notifiers[n] {
        assert CallOk(s.reg, s.notifiers[n]);
        assert Holds(s'.notifiers[n], i) ==> n in Holders(s', i);
      }
    }
  }

  ghost predicate CallsInv'(s: Sys) {
    Closed(s) && CallsInv(s)
  }

  lemma SnapshotsKept(s: Sys, s': Sys, i: nat)
    requires Closed(s) && SnapshotsInv(s) && Closed(s') && i < s.reg.Max() && s'.book == s.book
    requires SlotKeptOrReset(s.reg, s'.reg, i)
    requires forall n :: n in s'.notifiers && (n !in s.notifiers || s'.notifiers[n] != s.notifiers[n]) ==>
               SnapshotOk(s'.reg, s'.book, s'.notifiers[n])
    ensures SnapshotsInv(s')
  {
    forall n | n in s'.notifiers ensures SnapshotOk(s'.reg, s'.book, s'.notifiers[n]) {
      if n in s.notifiers && s'.notifiers[n] == s.notifiers[n] {
        SnapshotsOutlive(s.reg, s'.reg, i, s.book, s.notifiers[n]);
      }
    }
  }

  lemma GoneKept(s: Sys, s': Sys, i: nat)
    requires SlotsInv(s) && GoneInv(s) && Closed(s') && i < s.reg.Max()
    requires SlotKeptOrReset(s.reg, s'.reg, i)
    requires s'.gone == s.gone || (!s'.reg.occupied[i] && s'.gone == s.gone + {s.reg.entries[i].generation})
    ensures GoneInv(s')
  {
    assert EntryOk(s.reg.entries[i], s.reg.occupied[i], s.reg.generation, s.book);
    forall g | g in s'.gone ensures GoneFrom(s'.reg, g) {
      assert g in s.gone ==> GoneFrom(s.reg, g);
    }
  }

  lemma WaitersKept(s: Sys, s': Sys, i: nat)
    requires Closed(s) && WaitersInv(s) && Closed(s') && i < s.reg.Max()
    requires SlotKeptOrReset(s.reg, s'.reg, i) && s'.waiters == s.waiters
    requires s'.reg.entries[i].waitingRemoval == s.reg.entries[i].waitingRemoval
    requires !s'.reg.occupied[i] ==> !s.reg.entries[i].waitingRemoval
    requires SomeoneOwes(s) ==> SomeoneOwes(s')
    requires s.reg.entries[i].waitingRemoval ==> s'.reg.entries[i].activeCalls > 0 || SomeoneOwes(s')
    ensures WaitersInv(s')
  {
    forall w | w in s.waiters ensures WaiterOk(s'.reg, s'.waiters[w]) {
      assert WaiterOk(s.reg, s.waiters[w]);
    }
    forall j | 0 <= j < s'.reg.Max() && s'.reg.entries[j].waitingRemoval ensures Awaited(s', j) {
      assert Awaited(s, j);
      AwaitedStays(s, s', j, {});
    }
  }

  /** A step that touches slot `i` and nobody's position: a removal without waiting. */
  lemma SlotStep(s: Sys, s': Sys, i: nat)
    requires Inv(s) && i < s.reg.Max() && SlotKeptOrReset(s.reg, s'.reg, i)
    requires s'.notifiers == s.notifiers && s'.waiters == s.waiters && s'.book == s.book
    requires EntryOk(s'.reg.entries[i], s'.reg.occupied[i], s'.reg.generation, s'.book)
    requires s'.reg.entries[i].activeCalls == s.reg.entries[i].activeCalls
    requires !s.reg.entries[i].waitingRemoval && !s'.reg.entries[i].waitingRemoval
    requires s'.gone == s.gone || (!s'.reg.occupied[i] && s'.gone == s.gone + {s.reg.entries[i].generation})
    ensures Inv(s')
  {
    assert forall j :: Holders(s', j) == Holders(s, j);
    SlotsKept(s, s', i);
    CallsKept(s, s', i);
    SnapshotsKept(s, s', i);
    GoneKept(s, s', i);
    assert SomeoneOwes(s) ==> SomeoneOwes(s');
    WaitersKept(s, s', i);
  }

  /** What `remove` does to the slot it finds. */
  lemma RemoveTouchesItsSlot(r: Registry, o: Observer, i: nat, book: seq<Observer>)
    requires r.WellFormed(r.Max()) && o != NULL && i == FindActive(r, o, 0) && i < r.Max()
    requires EntryOk(r.entries[i], r.occupied[i], r.generation, book)
    ensures var r' := Remove(r, o).0;
            && SlotKeptOrReset(r, r', i)
            && EntryOk(r'.entries[i], r'.occupied[i], r'.generation, book)
            && r'.entries[i].activeCalls == r.entries[i].activeCalls
            && !r.entries[i].waitingRemoval && !r'.entries[i].waitingRemoval
  {
  }

  lemma UnregisterKeeps(s: Sys, o: Observer)
    requires Inv(s) && Enabled(s, Unregister(o))
    ensures Inv(Do(s, Unregister(o)))
  {
    var i := FindActive(s.reg, o, 0);
    if o != NULL && i < s.reg.Max() {
      RemoveTouchesItsSlot(s.reg, o, i, s.book);
      SlotStep(s, s.(reg := Remove(s.reg, o).0), i);
    }
  }

  /** A registration that is removed at once: removeAndWait finding nobody in a callback. */
  lemma UnregisterNowKeeps(s: Sys, who: Party, o: Observer)
    requires Inv(s) && Enabled(s, UnregisterAndWait(who, o)) && RemoveOrWait(s.reg, o).1.Returns?
    ensures Inv(Do(s, UnregisterAndWait(who, o)))
  {
    var i := FindActive(s.reg, o, 0);
    if o != NULL && i < s.reg.Max() {
      assert EntryOk(s.reg.entries[i], s.reg.occupied[i], s.reg.generation, s.book);
      SlotStep(s, Do(s, UnregisterAndWait(who, o)), i);
    }
  }

  /** Waiters enter, turn or leave: the four parts one by one. */
  lemma AwaitedStays(s: Sys, s': Sys, j: nat, gone: set<Party>)
    requires Awaited(s, j)
    requires forall w :: w in s.waiters && w !in gone ==> w in s'.waiters && s'.waiters[w].slot == s.waiters[w].slot
    requires forall w :: w in gone && w in s.waiters ==> s.waiters[w].slot != j
    ensures Awaited(s', j)
  {
    var w :| w in s.waiters && s.waiters[w].slot == j;
    assert w in s'.waiters && s'.waiters[w].slot == j;
  }

  /** Thread `who` starts to wait for slot `i`, which nobody waited for. */
  lemma WaiterJoins(s: Sys, s': Sys, who: Party, i: nat)
    requires Closed(s) && WaitersInv(s) && Closed(s') && i < s.reg.Max() && OnlySlot(s.reg, s'.reg, i)
    requires who !in s.waiters && !s.reg.entries[i].waitingRemoval && s'.notifiers == s.notifiers
    requires s'.waiters == s.waiters[who := Waiter(i, s'.reg.entries[i].generation, true)]
    requires s'.reg.occupied[i] && s'.reg.entries[i].waitingRemoval && s'.reg.entries[i].activeCalls > 0
    ensures WaitersInv(s')
  {
    NobodyElseJoins(s, s', who, i);
    JoinedIsAwaited(s, s', who, i);
    OwedAsBefore(s, s');
    JoinKeepsWake(s, s', who, i);
  }

  lemma NobodyElseJoins(s: Sys, s': Sys, who: Party, i: nat)
    requires Closed(s) && WaitersSeated(s) && WaitersApart(s) && Closed(s') && i < s.reg.Max()
    requires OnlySlot(s.reg, s'.reg, i) && who !in s.waiters && !s.reg.entries[i].waitingRemoval
    requires s'.waiters == s.waiters[who := Waiter(i, s'.reg.entries[i].generation, true)]
    requires s'.reg.occupied[i] && s'.reg.entries[i].waitingRemoval
    ensures WaitersSeated(s') && WaitersApart(s')
  {
    forall w | w in s.waiters ensures s.waiters[w].slot != i && WaiterOk(s'.reg, s.waiters[w]) {
      assert WaiterOk(s.reg, s.waiters[w]);
    }
  }

  lemma OwedAsBefore(s: Sys, s': Sys)
    requires s'.notifiers == s.notifiers
    ensures SomeoneOwes(s') <==> SomeoneOwes(s)
  {
  }

  lemma JoinKeepsWake(s: Sys, s': Sys, who: Party, i: nat)
    requires Closed(s) && WakeOwed(s) && Closed(s') && i < s.reg.Max() && OnlySlot(s.reg, s'.reg, i)
    requires SomeoneOwes(s') <==> SomeoneOwes(s)
    requires s'.waiters == s.waiters[who := Waiter(i, s'.reg.entries[i].generation, true)]
    requires s'.reg.entries[i].activeCalls > 0
    ensures WakeOwed(s')
  {
  }

  lemma JoinedIsAwaited(s: Sys, s': Sys, who: Party, i: nat)
    requires Closed(s) && MarksAwaited(s) && Closed(s') && i < s.reg.Max() && OnlySlot(s.reg, s'.reg, i)
    requires who !in s.waiters && s'.waiters == s.waiters[who := Waiter(i, s'.reg.entries[i].generation, true)]
    ensures MarksAwaited(s')
  {
    assert s'.waiters[who].slot == i;
    forall j | 0 <= j < s'.reg.Max() && s'.reg.entries[j].waitingRemoval ensures Awaited(s', j) {
      if j != i {
        AwaitedStays(s, s', j, {});
      }
    }
  }

  lemma WaitBegins(s: Sys, s': Sys, who: Party, i: nat)
    requires Inv(s) && i < s.reg.Max() && s.reg.occupied[i] && !s.reg.entries[i].removed
    requires s.reg.entries[i].activeCalls > 0 && who !in s.waiters
    requires s'.reg == SetEntry(s.reg, i, s.reg.entries[i].(removed := true, waitingRemoval := true))
    requires s'.waiters == s.waiters[who := Waiter(i, s.reg.entries[i].generation, true)]
    requires s'.notifiers == s.notifiers && s'.book == s.book && s'.gone == s.gone
    ensures Inv(s')
  {
    var e := s.reg.entries[i];
    assert EntryOk(e, true, s.reg.generation, s.book);
    assert EntryOk(e.(removed := true, waitingRemoval := true), true, s.reg.generation, s.book);
    MarkedForWait(s, s', i);
    WaiterJoins(s, s', who, i);
  }

  lemma MarkedForWait(s: Sys, s': Sys, i: nat)
    requires Inv(s) && Closed(s') && i < s.reg.Max() && SlotKeptOrReset(s.reg, s'.reg, i) && s'.reg.occupied[i]
    requires EntryOk(s'.reg.entries[i], true, s'.reg.generation, s'.book)
    requires s'.reg.entries[i].activeCalls == s.reg.entries[i].activeCalls
    requires s'.notifiers == s.notifiers && s'.book == s.book && s'.gone == s.gone
    ensures SlotsInv(s') && CallsInv(s') && SnapshotsInv(s') && GoneInv(s')
  {
    assert forall j :: Holders(s', j) == Holders(s, j);
    SlotsKept(s, s', i);
    CallsKept(s, s', i);
    SnapshotsKept(s, s', i);
    GoneKept(s, s', i);
  }

  lemma UnregisterAndWaitKeeps(s: Sys, who: Party, o: Observer)
    requires Inv(s) && Enabled(s, UnregisterAndWait(who, o))
    ensures Inv(Do(s, UnregisterAndWait(who, o)))
  {
    if RemoveOrWait(s.reg, o).1.Returns? {
      UnregisterNowKeeps(s, who, o);
    } else {
      WaitBegins(s, Do(s, UnregisterAndWait(who, o)), who, FindActive(s.reg, o, 0));
    }
  }

  lemma RegistryUntouched(s: Sys, s': Sys)
    requires Inv(s) && s'.reg == s.reg && s'.book == s.book && s'.gone == s.gone && s'.notifiers == s.notifiers
    requires Closed(s') && WaitersInv(s')
    ensures Inv(s')
  {
    assert forall j :: Holders(s', j) == Holders(s, j);
  }

  /** One waiter falls asleep or wakes. */
  lemma WaiterTurns(s: Sys, s': Sys, who: Party, asleep: bool)
    requires Closed(s) && WaitersInv(s) && who in s.waiters && s'.reg == s.reg && s'.notifiers == s.notifiers
    requires s'.waiters == s.waiters[who := s.waiters[who].(asleep := asleep)]
    requires asleep ==> s.reg.entries[s.waiters[who].slot].activeCalls > 0
    ensures Closed(s') && WaitersInv(s')
  {
    WaitersSameSeats(s, s');
    OwedAsBefore(s, s');
    TurnKeepsWake(s, s', who, asleep);
  }

  lemma TurnKeepsWake(s: Sys, s': Sys, who: Party, asleep: bool)
    requires Closed(s) && WakeOwed(s) && Closed(s') && who in s.waiters && s'.reg == s.reg
    requires SomeoneOwes(s') <==> SomeoneOwes(s)
    requires s'.waiters == s.waiters[who := s.waiters[who].(asleep := asleep)]
    requires asleep ==> s.reg.entries[s.waiters[who].slot].activeCalls > 0
    ensures WakeOwed(s')
  {
  }

  lemma WaitersSameSeats(s: Sys, s': Sys)
    requires Closed(s) && WaitersInv(s) && s'.reg == s.reg && s'.waiters.Keys == s.waiters.Keys
    requires forall w :: w in s.waiters ==>
               s'.waiters[w].slot == s.waiters[w].slot && s'.waiters[w].generation == s.waiters[w].generation
    requires Closed(s')
    ensures WaitersSeated(s') && WaitersApart(s') && MarksAwaited(s')
  {
    forall w | w in s'.waiters ensures WaiterOk(s'.reg, s'.waiters[w]) {
      assert WaiterOk(s.reg, s.waiters[w]);
    }
    forall j | 0 <= j < s.reg.Max() && s.reg.entries[j].waitingRemoval ensures Awaited(s', j) {
      AwaitedStays(s, s', j, {});
    }
  }

  lemma WaiterLeaves(s: Sys, s': Sys, who: Party)
    requires Closed(s) && WaitersInv(s) && Closed(s') && who in s.waiters && s'.notifiers == s.notifiers
    requires s'.waiters == s.waiters - {who} && s'.reg == Reset(s.reg, s.waiters[who].slot)
    ensures WaitersInv(s')
  {
    forall j | 0 <= j < s'.reg.Max() && s'.reg.entries[j].waitingRemoval ensures Awaited(s', j) {
      AwaitedStays(s, s', j, {who});
    }
    assert WakeOwed(s);
    assert SomeoneOwes(s) ==> SomeoneOwes(s');
    forall w | w in s'.waiters ensures WaiterOk(s'.reg, s'.waiters[w]) {
      assert WaiterOk(s.reg, s.waiters[w]);
    }
  }

  lemma WaiterLeavesKeeps(s: Sys, s': Sys, who: Party)
    requires Inv(s) && who in s.waiters && s.reg.entries[s.waiters[who].slot].activeCalls == 0
    requires s'.waiters == s.waiters - {who} && s'.reg == Reset(s.reg, s.waiters[who].slot)
    requires s'.notifiers == s.notifiers && s'.book == s.book && s'.gone == s.gone + {s.waiters[who].generation}
    ensures Inv(s')
  {
    var i := s.waiters[who].slot;
    assert WaiterOk(s.reg, s.waiters[who]);
    assert forall j :: Holders(s', j) == Holders(s, j);
    WaiterLeaves(s, s', who);
    SlotsKept(s, s', i);
    CallsKept(s, s', i);
    SnapshotsKept(s, s', i);
    GoneKept(s, s', i);
  }

  lemma WaiterStepsKeep(s: Sys, a: Act)
    requires Inv(s) && Enabled(s, a) && (a.WakeUp? || a.Recheck?)
    ensures Inv(Do(s, a))
  {
    var s' := Do(s, a);
    if a.Recheck? && s.reg.entries[s.waiters[a.who].slot].activeCalls == 0 {
      WaiterLeavesKeeps(s, s', a.who);
    } else {
      WaiterTurns(s, s', a.who, a.Recheck?);
      RegistryUntouched(s, s');
    }
  }

  // the notifiers

  lemma {:induction false} ExpectedGrows(snapshot: seq<bool>, listed: seq<nat>, reached: seq<bool>,
                                         book: seq<Observer>, o: Observer)
    requires |reached| <= |snapshot| == |listed|
    requires forall i :: 0 <= i < |snapshot| && snapshot[i] ==> 0 < listed[i] <= |book|
    ensures Expected(snapshot, listed, reached, book + [o]) == Expected(snapshot, listed, reached, book)
  {
    if reached != [] {
      ExpectedGrows(snapshot, listed, reached[..|reached| - 1], book, o);
    }
  }

  lemma RegisterKeepsSnapshots(s: Sys, o: Observer)
    requires Inv(s) && CanAdd(s.reg, o)
    ensures SnapshotsInv(Do(s, Register(o)))
  {
    var s' := Do(s, Register(o));
    forall n | n in s'.notifiers ensures SnapshotOk(s'.reg, s'.book, s'.notifiers[n]) {
      var x := s.notifiers[n];
      assert SnapshotOk(s.reg, s.book, x);
      ExpectedGrows(x.snapshot, x.listed, x.reached, s.book, o);
    }
  }

  lemma RegisterKeepsSlots(s: Sys, o: Observer)
    requires Inv(s) && CanAdd(s.reg, o)
    ensures SlotsInv(Do(s, Register(o))) && CallsInv(Do(s, Register(o)))
  {
    var s' := Do(s, Register(o));
    var f := FirstFree(s.reg, 0);
    assert EntryOk(s.reg.entries[f], s.reg.occupied[f], s.reg.generation, s.book);
    assert forall j :: Holders(s', j) == Holders(s, j);
    forall j | 0 <= j < s'.reg.Max() && j != f
      ensures EntryOk(s'.reg.entries[j], s'.reg.occupied[j], s'.reg.generation, s'.book)
      ensures s'.reg.occupied[j] ==> s'.reg.entries[j].generation <= s.reg.generation && s'.reg.entries[j].observer != o
    {
      assert EntryOk(s.reg.entries[j], s.reg.occupied[j], s.reg.generation, s.book);
    }
    forall n | n in s'.notifiers ensures CallOk(s'.reg, s'.notifiers[n]) {
      assert CallOk(s.reg, s.notifiers[n]);
    }
  }

  lemma RegisterKeepsWaiters(s: Sys, o: Observer)
    requires Inv(s) && CanAdd(s.reg, o)
    ensures Closed(Do(s, Register(o))) && WaitersInv(Do(s, Register(o)))
  {
    var s' := Do(s, Register(o));
    var f := FirstFree(s.reg, 0);
    assert EntryOk(s.reg.entries[f], s.reg.occupied[f], s.reg.generation, s.book);
    forall w | w in s'.waiters ensures WaiterOk(s'.reg, s'.waiters[w]) && s'.waiters[w].slot != f {
      assert WaiterOk(s.reg, s.waiters[w]);
    }
    forall j | 0 <= j < s'.reg.Max() && s'.reg.entries[j].waitingRemoval ensures Awaited(s', j) {
      AwaitedStays(s, s', j, {});
    }
    assert SomeoneOwes(s) ==> SomeoneOwes(s');
  }

  lemma RegisterKeeps(s: Sys, o: Observer)
    requires Inv(s) && Enabled(s, Register(o))
    ensures Inv(Do(s, Register(o)))
  {
    if CanAdd(s.reg, o) {
      var s' := Do(s, Register(o));
      RegisterKeepsSlots(s, o);
      RegisterKeepsSnapshots(s, o);
      RegisterKeepsWaiters(s, o);
      forall g | g in s'.gone ensures GoneFrom(s'.reg, g) {
        assert GoneFrom(s.reg, g);
      }
    }
  }

  // a notifier's own steps

  /** Notifier `who` alone changes, and only it enters or leaves an action. */
  lemma OtherHolders(s: Sys, s': Sys, who: Party, n: Notifier)
    requires s'.notifiers == s.notifiers[who := n]
    ensures forall j :: Holders(s', j) == if Holds(n, j) then Holders(s, j) + {who} else Holders(s, j) - {who}
  {
  }

  lemma TurningKeepsSlots(s: Sys, s': Sys, who: Party, n: Notifier)
    requires SlotsInv(s) && CallsInv(s) && s' == s.(notifiers := s.notifiers[who := n]) && Closed(s')
    requires !n.pc.Calling? && (who in s.notifiers ==> !s.notifiers[who].pc.Calling?)
    ensures SlotsInv(s') && CallsInv(s')
  {
    OtherHolders(s, s', who, n);
    assert forall j :: who !in Holders(s, j);
    assert forall j :: Holders(s', j) == Holders(s, j);
  }

  lemma TurningKeepsWaiters(s: Sys, s': Sys, who: Party, n: Notifier)
    requires Closed(s) && WaitersInv(s) && s' == s.(notifiers := s.notifiers[who := n]) && Closed(s')
    requires !At(s, who, Owing)
    ensures WaitersInv(s')
  {
    assert forall j :: Awaited(s, j) ==> Awaited(s', j);
    OwingStays(s, s', who, n);
  }

  lemma NotifierTurns(s: Sys, s': Sys, who: Party, n: Notifier)
    requires Inv(s) && s' == s.(notifiers := s.notifiers[who := n]) && Closed(s')
    requires !n.pc.Calling? && (who in s.notifiers ==> s.notifiers[who].pc == Scanning)
    requires |n.snapshot| == s.reg.Max() == |n.listed| && |n.reached| <= s.reg.Max() && SnapshotOk(s.reg, s.book, n)
    ensures Inv(s')
  {
    TurningKeepsSlots(s, s', who, n);
    TurningKeepsWaiters(s, s', who, n);
    assert SnapshotsInv(s') && GoneInv(s');
  }

  lemma OwingStays(s: Sys, s': Sys, who: Party, n: Notifier)
    requires s'.notifiers == s.notifiers[who := n] && (n.pc == Owing || !At(s, who, Owing))
    ensures SomeoneOwes(s) ==> SomeoneOwes(s')
  {
    if SomeoneOwes(s) {
      var m :| m in s.notifiers && s.notifiers[m].pc == Owing;
      assert m == who || s'.notifiers[m].pc == Owing;
      assert m == who ==> s'.notifiers[who].pc == Owing;
    }
  }

  lemma ExpectedSnoc(n: Notifier, book: seq<Observer>, live: bool)
    requires |n.reached| < |n.snapshot| == |n.listed|
    requires forall i :: 0 <= i < |n.snapshot| && n.snapshot[i] ==> 0 < n.listed[i] <= |book|
    ensures var i := |n.reached|;
            Expected(n.snapshot, n.listed, n.reached + [live], book)
            == Expected(n.snapshot, n.listed, n.reached, book)
               + if n.snapshot[i] && live then [Call(i, n.listed[i], book[n.listed[i] - 1])] else []
  {
    var i, more := |n.reached|, n.reached + [live];
    assert more[..i] == n.reached && more[i] == live && |more| - 1 == i;
  }

  /** A slot of the snapshot is acquired exactly when the registration that was in it is still there and
    * not removed; a newcomer in the same slot is not. */
  lemma AcquiresTheSnapshotted(s: Sys, who: Party, i: nat)
    requires Closed(s) && SnapshotsInv(s) && who in s.notifiers && i < s.reg.Max() && s.notifiers[who].snapshot[i]
    ensures var n := s.notifiers[who];
            && (CanAcquire(s.reg, i, n.startGeneration) <==> Live(s.reg, n.listed[i]))
            && (CanAcquire(s.reg, i, n.startGeneration) ==> s.reg.entries[i].generation == n.listed[i])
  {
    var n := s.notifiers[who];
    assert SnapshotOk(s.reg, s.book, n);
    if Live(s.reg, n.listed[i]) {
      var j :| 0 <= j < s.reg.Max() && s.reg.occupied[j] && !s.reg.entries[j].removed
               && s.reg.entries[j].generation == n.listed[i];
      assert n.snapshot[j] && n.listed[j] == n.listed[i];
    }
  }

  /** A notifier that has just taken its snapshot. */
  function FreshNotifier(r: Registry): Notifier
    requires r.WellFormed(r.Max())
  {
    Notifier(r.generation, r.occupied, Scanning, [], Generations(r), [])
  }

  lemma FreshSnapshotOk(r: Registry, book: seq<Observer>)
    requires r.WellFormed(r.Max()) && r.generation == |book|
    requires forall i :: 0 <= i < r.Max() ==> EntryOk(r.entries[i], r.occupied[i], r.generation, book)
    requires forall i, j :: 0 <= i < j < r.Max() && r.occupied[i] && r.occupied[j] ==>
               r.entries[i].generation != r.entries[j].generation
    ensures SnapshotOk(r, book, FreshNotifier(r))
  {
    assert forall i :: 0 <= i < r.Max() && r.occupied[i] ==> 0 < r.entries[i].generation <= r.generation;
  }

  lemma NotifyParts(s: Sys, who: Party)
    requires SlotsInv(s) && Enabled(s, Notify(who))
    ensures Do(s, Notify(who)) == s.(notifiers := s.notifiers[who := FreshNotifier(s.reg)])
    ensures Closed(Do(s, Notify(who))) && SnapshotOk(s.reg, s.book, FreshNotifier(s.reg))
  {
    FreshSnapshotOk(s.reg, s.book);
  }

  lemma NotifyKeeps(s: Sys, who: Party)
    requires Inv(s) && Enabled(s, Notify(who))
    ensures Inv(Do(s, Notify(who)))
  {
    NotifyParts(s, who);
    NotifierTurns(s, Do(s, Notify(who)), who, FreshNotifier(s.reg));
  }

  lemma PassSnapshotOk(r: Registry, book: seq<Observer>, n: Notifier)
    requires r.WellFormed(r.Max()) && |n.snapshot| == r.Max() == |n.listed| && |n.reached| < r.Max()
    requires SnapshotOk(r, book, n) && n.pc == Scanning
    ensures SnapshotOk(r, book, n.(reached := n.reached + [false]))
  {
    ExpectedSnoc(n, book, false);
  }

  /** A visit that acquires nothing only notes that. */
  lemma VisitPasses(s: Sys, who: Party)
    requires Closed(s) && SnapshotsInv(s) && Enabled(s, Visit(who))
    requires var n := s.notifiers[who];
             n.snapshot[|n.reached|] ==> !CanAcquire(s.reg, |n.reached|, n.startGeneration)
    ensures var n := s.notifiers[who];
            Do(s, Visit(who)) == s.(notifiers := s.notifiers[who := n.(reached := n.reached + [false])])
  {
    var n := s.notifiers[who];
    if n.snapshot[|n.reached|] {
      AcquiresTheSnapshotted(s, who, |n.reached|);
    }
  }

  lemma PassKeeps(s: Sys, who: Party)
    requires Inv(s) && Enabled(s, Visit(who))
    requires var n := s.notifiers[who];
             n.snapshot[|n.reached|] ==> !CanAcquire(s.reg, |n.reached|, n.startGeneration)
    ensures Inv(Do(s, Visit(who)))
  {
    var n := s.notifiers[who];
    assert SnapshotOk(s.reg, s.book, n);
    PassSnapshotOk(s.reg, s.book, n);
    VisitPasses(s, who);
    NotifierTurns(s, Do(s, Visit(who)), who, n.(reached := n.reached + [false]));
  }

  /** The slot and the notifier after an acquisition, apart from the notifier's history. */
  ghost predicate Acquires(s: Sys, s': Sys, who: Party, n': Notifier, i: nat)
    requires s.reg.WellFormed(s.reg.Max())
  {
    && who in s.notifiers && s.notifiers[who].pc == Scanning
    && i < s.reg.Max() && s.reg.occupied[i] && !s.reg.entries[i].removed
    && s' == s.(reg := SetEntry(s.reg, i, s.reg.entries[i].(activeCalls := s.reg.entries[i].activeCalls + 1)),
                notifiers := s.notifiers[who := n'])
    && Holds(n', i) && n'.pc == Calling(s.reg.entries[i].observer, s.reg.entries[i].generation)
  }

  lemma AcquireKeepsSlots(s: Sys, s': Sys, who: Party, n': Notifier, i: nat)
    requires SlotsInv(s) && Acquires(s, s', who, n', i) && Closed(s')
    ensures SlotsInv(s')
  {
    var e := s.reg.entries[i];
    assert EntryOk(e, true, s.reg.generation, s.book);
    assert EntryOk(e.(activeCalls := e.activeCalls + 1), true, s.reg.generation, s.book);
    OtherHolders(s, s', who, n');
    assert who !in Holders(s, i);
    SlotsKept(s, s', i);
  }

  lemma AcquireKeepsCalls(s: Sys, s': Sys, who: Party, n': Notifier, i: nat)
    requires SlotsInv(s) && CallsInv(s) && GoneInv(s) && Acquires(s, s', who, n', i) && Closed(s')
    ensures CallsInv(s') && GoneInv(s')
  {
    assert CallOk(s'.reg, n');
    CallsKept(s, s', i);
    GoneKept(s, s', i);
  }

  lemma AcquireKeepsWaiters(s: Sys, s': Sys, who: Party, n': Notifier, i: nat)
    requires Closed(s) && WaitersInv(s) && Acquires(s, s', who, n', i) && Closed(s')
    ensures WaitersInv(s')
  {
    OwingStays(s, s', who, n');
    WaitersKept(s, s', i);
  }

  /** The notifier that acquires slot `i` has made the call it should. */
  lemma AcquiredSnapshotOk(r: Registry, r': Registry, book: seq<Observer>, n: Notifier, n': Notifier, i: nat)
    requires r.WellFormed(r.Max()) && i < r.Max() && SlotKeptOrReset(r, r', i)
    requires |n.snapshot| == r.Max() == |n.listed| && |n.reached| == i && SnapshotOk(r, book, n) && n.snapshot[i]
    requires book[n.listed[i] - 1] == r.entries[i].observer
    requires n'.pc.Calling?
    requires n' == n.(pc := n'.pc, reached := n.reached + [true],
                      calls := n.calls + [Call(i, n.listed[i], r.entries[i].observer)])
    ensures SnapshotOk(r', book, n')
  {
    ExpectedSnoc(n, book, true);
    SnapshotsOutlive(r, r', i, book, n);
  }

  lemma AcquiredIsBooked(s: Sys, who: Party, i: nat)
    requires SlotsInv(s) && who in s.notifiers && i < s.reg.Max() && s.reg.occupied[i]
    requires s.notifiers[who].listed[i] == s.reg.entries[i].generation
    ensures 0 < s.notifiers[who].listed[i] <= |s.book|
    ensures s.book[s.notifiers[who].listed[i] - 1] == s.reg.entries[i].observer
  {
    assert EntryOk(s.reg.entries[i], s.reg.occupied[i], s.reg.generation, s.book);
  }

  /** One notifier's record changes and stays right; the others' are as they were. */
  lemma OneSnapshotChanges(s: Sys, s': Sys, who: Party, n': Notifier, i: nat)
    requires Closed(s) && SnapshotsInv(s) && Closed(s') && i < s.reg.Max() && s'.book == s.book
    requires SlotKeptOrReset(s.reg, s'.reg, i) && s'.notifiers == s.notifiers[who := n']
    requires |n'.snapshot| == s'.reg.Max() == |n'.listed| && |n'.reached| <= s'.reg.Max()
    requires SnapshotOk(s'.reg, s'.book, n')
    ensures SnapshotsInv(s')
  {
    SnapshotsKept(s, s', i);
  }

  lemma AcquireKeepsSnapshots(s: Sys, s': Sys, who: Party, n': Notifier, i: nat)
    requires SlotsInv(s) && SnapshotsInv(s) && Acquires(s, s', who, n', i) && Closed(s')
    requires i == |s.notifiers[who].reached|
    requires var n := s.notifiers[who];
             && n.snapshot[i] && n.listed[i] == s.reg.entries[i].generation
             && n' == n.(pc := n'.pc, reached := n.reached + [true],
                         calls := n.calls + [Call(i, n.listed[i], s.reg.entries[i].observer)])
    ensures SnapshotsInv(s')
  {
    var n := s.notifiers[who];
    assert SnapshotOk(s.reg, s.book, n);
    AcquiredIsBooked(s, who, i);
    AcquiredSnapshotOk(s.reg, s'.reg, s.book, n, n', i);
    OneSnapshotChanges(s, s', who, n', i);
  }

  /** The whole of an acquiring visit. */
  ghost predicate AcquiresNext(s: Sys, s': Sys, who: Party, n': Notifier, i: nat)
    requires s.reg.WellFormed(s.reg.Max())
  {
    && Acquires(s, s', who, n', i)
    && var n := s.notifiers[who];
    && i == |n.reached| && i < |n.snapshot| == |n.listed|
    && n.snapshot[i] && n.listed[i] == s.reg.entries[i].generation
    && n' == n.(pc := n'.pc, reached := n.reached + [true],
                calls := n.calls + [Call(i, n.listed[i], s.reg.entries[i].observer)])
  }

  lemma VisitSlotAcquires(s: Sys, n: Notifier, i: nat)
    requires s.reg.WellFormed(s.reg.Max()) && |n.snapshot| == s.reg.Max() == |n.listed|
    requires |n.reached| == i < s.reg.Max()
    requires n.snapshot[i] && CanAcquire(s.reg, i, n.startGeneration) && s.reg.entries[i].observer != NULL
    requires n.listed[i] == s.reg.entries[i].generation
    ensures var e := s.reg.entries[i];
            VisitSlot(s, n)
            == (SetEntry(s.reg, i, e.(activeCalls := e.activeCalls + 1)),
                n.(pc := Calling(e.observer, e.generation), reached := n.reached + [true],
                   calls := n.calls + [Call(i, n.listed[i], e.observer)]))
  {
    assert s.reg.occupied[i] && !s.reg.entries[i].removed && s.reg.entries[i].generation == n.listed[i];
  }

  lemma VisitReady(s: Sys, who: Party, i: nat)
    requires SlotsInv(s) && SnapshotsInv(s) && Enabled(s, Visit(who)) && i == |s.notifiers[who].reached|
    requires s.notifiers[who].snapshot[i] && CanAcquire(s.reg, i, s.notifiers[who].startGeneration)
    ensures s.reg.entries[i].observer != NULL && s.notifiers[who].listed[i] == s.reg.entries[i].generation
  {
    AcquiresTheSnapshotted(s, who, i);
    assert EntryOk(s.reg.entries[i], s.reg.occupied[i], s.reg.generation, s.book);
  }

  lemma VisitAcquires(s: Sys, who: Party, i: nat)
    requires Enabled(s, Visit(who)) && i == |s.notifiers[who].reached|
    requires s.reg.entries[i].observer != NULL
    requires var n := s.notifiers[who];
             && n.snapshot[i] && CanAcquire(s.reg, i, n.startGeneration)
             && n.listed[i] == s.reg.entries[i].generation
    ensures var s' := Do(s, Visit(who));
            Closed(s') && who in s'.notifiers && AcquiresNext(s, s', who, s'.notifiers[who], i)
  {
    VisitSlotAcquires(s, s.notifiers[who], i);
  }

  lemma AcquiringKeeps(s: Sys, s': Sys, who: Party, n': Notifier, i: nat)
    requires Inv(s) && Closed(s') && AcquiresNext(s, s', who, n', i)
    ensures Inv(s')
  {
    AcquireKeepsSlots(s, s', who, n', i);
    AcquireKeepsCalls(s, s', who, n', i);
    AcquireKeepsWaiters(s, s', who, n', i);
    AcquireKeepsSnapshots(s, s', who, n', i);
  }

  lemma AcquireKeeps(s: Sys, who: Party)
    requires Inv(s) && Enabled(s, Visit(who))
    requires var n := s.notifiers[who];
             n.snapshot[|n.reached|] && CanAcquire(s.reg, |n.reached|, n.startGeneration)
    ensures Inv(Do(s, Visit(who)))
  {
    var i := |s.notifiers[who].reached|;
    VisitReady(s, who, i);
    VisitAcquires(s, who, i);
    AcquiringKeeps(s, Do(s, Visit(who)), who, Do(s, Visit(who)).notifiers[who], i);
  }

  /** In a reachable state a release finds its slot occupied and counted: both guards of
    * `releaseAfterNotify` pass, and the registration is the one acquired. */
  lemma ReleaseFindsItsSlot(s: Sys, who: Party)
    requires SlotsInv(s) && CallsInv(s) && Enabled(s, Finish(who))
    ensures var n := s.notifiers[who];
            && s.reg.occupied[Slot(n)] && s.reg.entries[Slot(n)].activeCalls > 0
            && s.reg.entries[Slot(n)].generation == n.pc.generation
            && s.reg.entries[Slot(n)].observer == n.pc.observer
  {
    var n := s.notifiers[who];
    assert CallOk(s.reg, n);
    assert who in Holders(s, Slot(n));
  }

  lemma FinishKeepsWaiters(s: Sys, s': Sys, who: Party, i: nat, n': Notifier)
    requires Closed(s) && WaitersInv(s) && Closed(s') && who in s.notifiers && s.notifiers[who].pc.Calling?
    requires i < s.reg.Max()
    requires s' == s.(reg := s'.reg, notifiers := s.notifiers[who := n']) && SlotKeptOrReset(s.reg, s'.reg, i)
    requires s'.reg.entries[i].waitingRemoval == s.reg.entries[i].waitingRemoval
    requires !s'.reg.occupied[i] ==> !s.reg.entries[i].waitingRemoval
    requires s.reg.entries[i].waitingRemoval && s'.reg.entries[i].activeCalls == 0 ==> n'.pc == Owing
    ensures WaitersInv(s')
  {
    OwingStays(s, s', who, n');
    assert n'.pc == Owing ==> s'.notifiers[who].pc == Owing;
    WaitersKept(s, s', i);
  }

  lemma FinishCounts(s: Sys, s': Sys, who: Party, i: nat, n': Notifier)
    requires SlotsInv(s) && who in s.notifiers && Holds(s.notifiers[who], i) && i < s.reg.Max() && !n'.pc.Calling?
    requires s' == s.(reg := s'.reg, notifiers := s.notifiers[who := n'])
    ensures |Holders(s', i)| == s.reg.entries[i].activeCalls - 1
    ensures forall j :: 0 <= j < s.reg.Max() && j != i ==> Holders(s', j) == Holders(s, j)
  {
    OtherHolders(s, s', who, n');
    assert who in Holders(s, i);
    assert Holders(s', i) == Holders(s, i) - {who};
    forall j | 0 <= j < s.reg.Max() && j != i ensures Holders(s', j) == Holders(s, j) {
      assert who !in Holders(s, j);
    }
  }

  /** The state after a release, part by part. */
  lemma FinishParts(s: Sys, who: Party, i: nat)
    requires SlotsInv(s) && CallsInv(s) && Enabled(s, Finish(who)) && i == Slot(s.notifiers[who])
    ensures var s', n := Do(s, Finish(who)), s.notifiers[who];
            && Closed(s') && who in s'.notifiers
            && s' == s.(reg := Release(s.reg, i).0, notifiers := s.notifiers[who := s'.notifiers[who]])
            && s'.notifiers[who] == n.(pc := if Release(s.reg, i).1 then Owing else Scanning)
  {
    ReleaseFindsItsSlot(s, who);
  }

  lemma FinishKeeps(s: Sys, who: Party)
    requires Inv(s) && Enabled(s, Finish(who))
    ensures Inv(Do(s, Finish(who)))
  {
    var i: nat := Slot(s.notifiers[who]);
    ReleaseFindsItsSlot(s, who);
    FinishParts(s, who, i);
    assert EntryOk(s.reg.entries[i], s.reg.occupied[i], s.reg.generation, s.book);
    ReleaseTouchesItsSlot(s.reg, i, s.book);
    Finishes(s, Do(s, Finish(who)), who, i, Do(s, Finish(who)).notifiers[who]);
  }

  lemma Finishes(s: Sys, s': Sys, who: Party, i: nat, n': Notifier)
    requires Inv(s) && Closed(s') && who in s.notifiers && Holds(s.notifiers[who], i) && i < s.reg.Max()
    requires s' == s.(reg := s'.reg, notifiers := s.notifiers[who := n']) && SlotKeptOrReset(s.reg, s'.reg, i)
    requires n' == s.notifiers[who].(pc := n'.pc) && (n'.pc.Scanning? || n'.pc.Owing?)
    requires EntryOk(s'.reg.entries[i], s'.reg.occupied[i], s'.reg.generation, s'.book)
    requires s'.reg.entries[i].activeCalls == s.reg.entries[i].activeCalls - 1
    requires s'.reg.entries[i].waitingRemoval == s.reg.entries[i].waitingRemoval
    requires !s'.reg.occupied[i] ==> !s.reg.entries[i].waitingRemoval && s'.reg.entries[i].activeCalls == 0
    requires s.reg.entries[i].waitingRemoval && s'.reg.entries[i].activeCalls == 0 ==> n'.pc == Owing
    ensures Inv(s')
  {
    FinishCounts(s, s', who, i, n');
    FinishKeepsWaiters(s, s', who, i, n');
    FinishKeepsSlots(s, s', who, i, n');
  }

  /** What a release does to an occupied, counted slot. */
  lemma ReleaseTouchesItsSlot(r: Registry, i: nat, book: seq<Observer>)
    requires r.WellFormed(r.Max()) && i < r.Max() && r.occupied[i] && r.entries[i].activeCalls > 0
    requires EntryOk(r.entries[i], r.occupied[i], r.generation, book)
    ensures var (r', owes) := Release(r, i);
            && SlotKeptOrReset(r, r', i)
            && EntryOk(r'.entries[i], r'.occupied[i], r'.generation, book)
            && r'.entries[i].activeCalls == r.entries[i].activeCalls - 1
            && r'.entries[i].waitingRemoval == r.entries[i].waitingRemoval
            && (!r'.occupied[i] ==> !r.entries[i].waitingRemoval && r.entries[i].activeCalls == 1)
            && (owes <==> r.entries[i].waitingRemoval && r.entries[i].activeCalls == 1)
  {
  }

  lemma FinishKeepsSlots(s: Sys, s': Sys, who: Party, i: nat, n': Notifier)
    requires Inv(s) && Closed(s') && who in s.notifiers && i < s.reg.Max() && SlotKeptOrReset(s.reg, s'.reg, i)
    requires s' == s.(reg := s'.reg, notifiers := s.notifiers[who := n'])
    requires EntryOk(s'.reg.entries[i], s'.reg.occupied[i], s'.reg.generation, s'.book)
    requires s'.reg.entries[i].activeCalls == |Holders(s', i)|
    requires !s'.reg.occupied[i] ==> s'.reg.entries[i].activeCalls == 0
    requires forall j :: 0 <= j < s.reg.Max() && j != i ==> Holders(s', j) == Holders(s, j)
    requires n' == s.notifiers[who].(pc := n'.pc) && (n'.pc.Scanning? || n'.pc.Owing?)
    ensures SlotsInv(s') && CallsInv(s') && GoneInv(s') && SnapshotsInv(s')
  {
    SlotsKept(s, s', i);
    CallsKept(s, s', i);
    GoneKept(s, s', i);
    FinishKeepsSnapshots(s, s', who, i, n');
  }

  lemma FinishKeepsSnapshots(s: Sys, s': Sys, who: Party, i: nat, n': Notifier)
    requires Closed(s) && SnapshotsInv(s) && Closed(s') && who in s.notifiers && i < s.reg.Max()
    requires SlotKeptOrReset(s.reg, s'.reg, i)
    requires s' == s.(reg := s'.reg, notifiers := s.notifiers[who := n'])
    requires n' == s.notifiers[who].(pc := n'.pc) && (n'.pc.Scanning? || n'.pc.Owing?)
    ensures SnapshotsInv(s')
  {
    SnapshotsOutlive(s.reg, s'.reg, i, s.book, s.notifiers[who]);
    OneSnapshotChanges(s, s', who, n', i);
  }

  lemma BroadcastWakes(s: Sys, m: Sys)
    requires Inv(s) && m == s.(waiters := map w | w in s.waiters :: s.waiters[w].(asleep := false))
    ensures Inv(m)
  {
    WaitersSameSeats(s, m);
    assert WakeOwed(m);
    RegistryUntouched(s, m);
  }

  /** With every waiter awake the broadcast is no longer owed. */
  lemma OwingEnds(s: Sys, s': Sys, who: Party)
    requires Inv(s) && At(s, who, Owing) && forall w :: w in s.waiters ==> !s.waiters[w].asleep
    requires s' == s.(notifiers := s.notifiers[who := s.notifiers[who].(pc := Scanning)])
    ensures Inv(s')
  {
    TurningKeepsSlots(s, s', who, s'.notifiers[who]);
    OwingEndsForWaiters(s, s', who);
    assert SnapshotOk(s.reg, s.book, s.notifiers[who]);
    assert SnapshotsInv(s') && GoneInv(s');
  }

  lemma OwingEndsForWaiters(s: Sys, s': Sys, who: Party)
    requires Closed(s) && WaitersInv(s) && Closed(s') && forall w :: w in s.waiters ==> !s.waiters[w].asleep
    requires s'.reg == s.reg && s'.waiters == s.waiters
    ensures WaitersInv(s')
  {
    forall j | 0 <= j < s'.reg.Max() && s'.reg.entries[j].waitingRemoval ensures Awaited(s', j) {
      AwaitedStays(s, s', j, {});
    }
  }

  lemma BroadcastKeeps(s: Sys, who: Party)
    requires Inv(s) && Enabled(s, Broadcast(who))
    ensures Inv(Do(s, Broadcast(who)))
  {
    var m := s.(waiters := map w | w in s.waiters :: s.waiters[w].(asleep := false));
    BroadcastWakes(s, m);
    OwingEnds(m, Do(s, Broadcast(who)), who);
  }

  /** The final sweep of `notify` finds nothing to reset. */
  lemma SweepFindsNothing(s: Sys)
    requires SlotsInv(s)
    ensures Sweep(s.reg) == s.reg
  {
    forall i | 0 <= i < s.reg.Max() ensures !Swept(s.reg, i) {
      assert EntryOk(s.reg.entries[i], s.reg.occupied[i], s.reg.generation, s.book);
    }
    assert Sweep(s.reg).entries == s.reg.entries && Sweep(s.reg).occupied == s.reg.occupied;
  }

  lemma VisitKeeps(s: Sys, who: Party)
    requires Inv(s) && Enabled(s, Visit(who))
    ensures Inv(Do(s, Visit(who)))
  {
    var n := s.notifiers[who];
    if n.snapshot[|n.reached|] && CanAcquire(s.reg, |n.reached|, n.startGeneration) {
      AcquireKeeps(s, who);
    } else {
      PassKeeps(s, who);
    }
  }

  lemma SweepKeeps(s: Sys, who: Party)
    requires Inv(s) && Enabled(s, SweepUp(who))
    ensures Inv(Do(s, SweepUp(who)))
  {
    SweepFindsNothing(s);
    assert SnapshotOk(s.reg, s.book, s.notifiers[who]);
    NotifierTurns(s, Do(s, SweepUp(who)), who, s.notifiers[who].(pc := Returned));
  }

  lemma StepKeepsInv(s: Sys, a: Act)
    requires Inv(s) && Enabled(s, a)
    ensures Inv(Do(s, a))
  {
    match a
    case Register(o) => RegisterKeeps(s, o);
    case Unregister(o) => UnregisterKeeps(s, o);
    case UnregisterAndWait(who, o) => UnregisterAndWaitKeeps(s, who, o);
    case WakeUp(_) => WaiterStepsKeep(s, a);
    case Recheck(_) => WaiterStepsKeep(s, a);
    case Notify(who) => NotifyKeeps(s, who);
    case Visit(who) => VisitKeeps(s, who);
    case Finish(who) => FinishKeeps(s, who);
    case Broadcast(who) => BroadcastKeeps(s, who);
    case SweepUp(who) => SweepKeeps(s, who);
  }
}

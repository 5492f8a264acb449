/** What holds in every run of the observer list. */
module ObserverTheorems {
  import opened ObserverRegistry
  import opened ObserverProtocol

  lemma {:induction false} InvInRun(run: seq<Sys>, acts: seq<Act>, max: nat, i: nat)
    requires IsRun(run, acts, max) && i < |run|
    ensures Inv(run[i]) && run[i].reg.Max() == max
  {
    if i > 0 {
      InvInRun(run, acts, max, i - 1);
      StepKeepsInv(run[i - 1], acts[i - 1]);
      MaxStays(run[i - 1], acts[i - 1]);
    } else {
      assert forall j :: Holders(run[0], j) == {};
      assert forall j :: 0 <= j < max ==> EntryOk(run[0].reg.entries[j], run[0].reg.occupied[j], 0, []);
    }
  }

  lemma MaxStays(s: Sys, a: Act)
    requires Enabled(s, a)
    ensures Do(s, a).reg.Max() == s.reg.Max()
  {
  }

  // ---------------------------------------------------------------- slots

  /** activeCalls of a slot is the number of notifiers inside an action for it; occupied slots hold distinct
    * observers and distinct registrations; a removed slot is kept only by a caller or a waiter. */
  lemma SlotsAreAccounted(run: seq<Sys>, acts: seq<Act>, max: nat, k: nat)
    requires IsRun(run, acts, max) && k < |run|
    ensures var s := run[k];
            && s.reg.WellFormed(max)
            && (forall i :: 0 <= i < max ==>
                  s.reg.entries[i].activeCalls == |set n | n in s.notifiers && Holds(s.notifiers[n], i)|)
            && (forall i, j :: 0 <= i < j < max && s.reg.occupied[i] && s.reg.occupied[j] ==>
                  s.reg.entries[i].observer != s.reg.entries[j].observer
                  && s.reg.entries[i].generation != s.reg.entries[j].generation)
            && (forall i :: 0 <= i < max && s.reg.entries[i].removed ==>
                  s.reg.entries[i].activeCalls > 0 || Awaited(s, i))
  {
    InvInRun(run, acts, max, k);
    var s := run[k];
    forall i | 0 <= i < max
      ensures s.reg.entries[i].activeCalls == |set n | n in s.notifiers && Holds(s.notifiers[n], i)|
      ensures s.reg.entries[i].removed ==> s.reg.entries[i].activeCalls > 0 || Awaited(s, i)
    {
      assert EntryOk(s.reg.entries[i], s.reg.occupied[i], s.reg.generation, s.book);
      assert Holders(s, i) == set n | n in s.notifiers && Holds(s.notifiers[n], i);
    }
  }

  /** Each release finds its slot occupied, counted, and by the very registration it acquired; the sweep at the
    * end of `notify` changes nothing. */
  lemma ReleasesAndSweeps(run: seq<Sys>, acts: seq<Act>, max: nat, k: nat)
    requires IsRun(run, acts, max) && k < |acts|
    ensures acts[k].Finish? ==>
              var n := run[k].notifiers[acts[k].who];
              && run[k].reg.occupied[Slot(n)] && run[k].reg.entries[Slot(n)].activeCalls > 0
              && run[k].reg.entries[Slot(n)].generation == n.pc.generation
              && run[k].reg.entries[Slot(n)].observer == n.pc.observer
    ensures acts[k].SweepUp? ==> run[k + 1].reg == run[k].reg
  {
    InvInRun(run, acts, max, k);
    if acts[k].Finish? {
      ReleaseFindsItsSlot(run[k], acts[k].who);
    } else if acts[k].SweepUp? {
      SweepFindsNothing(run[k]);
    }
  }

  // ---------------------------------------------------------------- removal

  /** The notifiers inside an action for registration `g`. */
  ghost function Callers(s: Sys, g: nat): set<Party> {
    set n | n in s.notifiers && s.notifiers[n].pc.Calling? && s.notifiers[n].pc.generation == g
  }

  lemma NewCallerFoundItLive(s: Sys, a: Act, g: nat, n: Party)
    requires Enabled(s, a) && n in Callers(Do(s, a), g) && n !in Callers(s, g)
    ensures Live(s.reg, g)
  {
    var i := |s.notifiers[n].reached|;
    assert s.reg.occupied[i] && !s.reg.entries[i].removed && s.reg.entries[i].generation == g;
  }

  lemma NewCallersComeLive(s: Sys, a: Act, g: nat)
    requires Enabled(s, a) && !Live(s.reg, g)
    ensures Callers(Do(s, a), g) <= Callers(s, g)
  {
    forall n | n in Callers(Do(s, a), g) ensures n in Callers(s, g) {
      if n !in Callers(s, g) {
        NewCallerFoundItLive(s, a, g, n);
      }
    }
  }

  /** Every step changes one slot, keeping or clearing its registration, or registers in a free slot, or
    * leaves the slots alone. */
  lemma DeadAfterSlot(r: Registry, r': Registry, i: nat, g: nat)
    requires r.WellFormed(r.Max()) && i < r.Max() && SlotKeptOrReset(r, r', i) && !Live(r, g)
    ensures !Live(r', g)
  {
    forall j | 0 <= j < r'.Max() ensures !(r'.occupied[j] && !r'.entries[j].removed && r'.entries[j].generation == g) {
      assert !(r.occupied[j] && !r.entries[j].removed && r.entries[j].generation == g);
    }
  }

  lemma DeadAfterAdd(r: Registry, o: Observer, g: nat)
    requires r.WellFormed(r.Max()) && g <= r.generation && !Live(r, g)
    ensures Add(r, o).WellFormed(r.Max()) && !Live(Add(r, o), g) && r.generation <= Add(r, o).generation
  {
    var r' := Add(r, o);
    forall j | 0 <= j < r'.Max() ensures !(r'.occupied[j] && !r'.entries[j].removed && r'.entries[j].generation == g) {
      assert !(r.occupied[j] && !r.entries[j].removed && r.entries[j].generation == g);
    }
  }

  lemma VisitSlotKept(s: Sys, who: Party)
    requires Closed(s) && Enabled(s, Visit(who))
    ensures Do(s, Visit(who)).reg == s.reg
            || SlotKeptOrReset(s.reg, Do(s, Visit(who)).reg, |s.notifiers[who].reached|)
  {
  }

  lemma FinishSlotKept(s: Sys, who: Party)
    requires SlotsInv(s) && CallsInv(s) && Enabled(s, Finish(who))
    ensures SlotKeptOrReset(s.reg, Do(s, Finish(who)).reg, Slot(s.notifiers[who]))
  {
    var i: nat := Slot(s.notifiers[who]);
    ReleaseFindsItsSlot(s, who);
    assert EntryOk(s.reg.entries[i], s.reg.occupied[i], s.reg.generation, s.book);
    ReleaseTouchesItsSlot(s.reg, i, s.book);
  }

  lemma RemovalSlotKept(r: Registry, o: Observer)
    requires r.WellFormed(r.Max())
    ensures var i := FindActive(r, o, 0);
            && (Remove(r, o).0 == r || (i < r.Max() && SlotKeptOrReset(r, Remove(r, o).0, i)))
            && (RemoveOrWait(r, o).0 == r || (i < r.Max() && SlotKeptOrReset(r, RemoveOrWait(r, o).0, i)))
  {
  }

  lemma RecheckSlotKept(s: Sys, who: Party)
    requires Closed(s) && WaitersSeated(s) && Enabled(s, Recheck(who))
    ensures Do(s, Recheck(who)).reg == s.reg
            || SlotKeptOrReset(s.reg, Do(s, Recheck(who)).reg, s.waiters[who].slot)
  {
    assert WaiterOk(s.reg, s.waiters[who]);
  }

  lemma StepSlot(s: Sys, a: Act) returns (i: nat)
    requires Inv(s) && Enabled(s, a) && !a.Register?
    ensures Do(s, a).reg == s.reg || (i < s.reg.Max() && SlotKeptOrReset(s.reg, Do(s, a).reg, i))
  {
    i := 0;
    match a
    case Unregister(o) =>
      RemovalSlotKept(s.reg, o);
      i := FindActive(s.reg, o, 0);
    case UnregisterAndWait(_, o) =>
      RemovalSlotKept(s.reg, o);
      i := FindActive(s.reg, o, 0);
    case Recheck(who) =>
      RecheckSlotKept(s, who);
      i := s.waiters[who].slot;
    case Visit(who) =>
      VisitSlotKept(s, who);
      i := |s.notifiers[who].reached|;
    case Finish(who) =>
      FinishSlotKept(s, who);
      i := Slot(s.notifiers[who]);
    case SweepUp(_) => SweepFindsNothing(s);
    case _ =>
  }

  lemma DeadStaysDead(s: Sys, a: Act, g: nat)
    requires Inv(s) && Enabled(s, a) && g <= s.reg.generation && !Live(s.reg, g)
    ensures Do(s, a).reg.WellFormed(s.reg.Max()) && !Live(Do(s, a).reg, g) && g <= Do(s, a).reg.generation
  {
    if a.Register? {
      DeadAfterAdd(s.reg, a.o, g);
    } else {
      var i := StepSlot(s, a);
      if Do(s, a).reg != s.reg {
        DeadAfterSlot(s.reg, Do(s, a).reg, i, g);
      }
    }
  }

  ghost predicate Dead(r: Registry, max: nat, g: nat) {
    r.WellFormed(max) && r.Max() == max && g <= r.generation && !Live(r, g)
  }

  lemma DeadNext(s: Sys, a: Act, max: nat, g: nat)
    requires Inv(s) && Enabled(s, a) && Dead(s.reg, max, g)
    ensures Dead(Do(s, a).reg, max, g)
  {
    DeadStaysDead(s, a, g);
  }

  lemma DeadNextInRun(run: seq<Sys>, acts: seq<Act>, max: nat, k: nat, g: nat)
    requires IsRun(run, acts, max) && k < |acts| && Dead(run[k].reg, max, g)
    ensures Dead(run[k + 1].reg, max, g)
  {
    InvInRun(run, acts, max, k);
    DeadNext(run[k], acts[k], max, g);
  }

  lemma {:induction false} DeadInRun(run: seq<Sys>, acts: seq<Act>, max: nat, i: nat, j: nat, g: nat)
    requires IsRun(run, acts, max) && i <= j < |run| && Dead(run[i].reg, max, g)
    ensures Dead(run[j].reg, max, g)
  {
    if i < j {
      DeadInRun(run, acts, max, i, j - 1, g);
      DeadNextInRun(run, acts, max, j - 1, g);
    }
  }

  /** After `remove` of a registration no notifier enters its callback any more: who is inside at any later
    * time was inside when the registration died. */
  lemma {:induction false} RemovedIsNotCalledAgain(run: seq<Sys>, acts: seq<Act>, max: nat, i: nat, j: nat, g: nat)
    requires IsRun(run, acts, max) && i <= j < |run| && Dead(run[i].reg, max, g)
    ensures Callers(run[j], g) <= Callers(run[i], g)
  {
    if i < j {
      RemovedIsNotCalledAgain(run, acts, max, i, j - 1, g);
      DeadInRun(run, acts, max, i, j - 1, g);
      NewCallersComeLive(run[j - 1], acts[j - 1], g);
    }
  }

  /** `remove` that reports Removed has killed the registration it found. */
  lemma RemoveKills(run: seq<Sys>, acts: seq<Act>, max: nat, k: nat, o: Observer)
    requires IsRun(run, acts, max) && k < |acts| && acts[k] == Unregister(o)
    requires run[k].reg.WellFormed(run[k].reg.Max()) && Remove(run[k].reg, o).1 == Removed
    ensures var g := run[k].reg.entries[FindActive(run[k].reg, o, 0)].generation;
            Live(run[k].reg, g) && Dead(run[k + 1].reg, max, g)
  {
    InvInRun(run, acts, max, k);
    var r, r' := run[k].reg, run[k + 1].reg;
    var i := FindActive(r, o, 0);
    var g := r.entries[i].generation;
    assert ActiveAt(r, i, o) && EntryOk(r.entries[i], r.occupied[i], r.generation, run[k].book);
    forall j | 0 <= j < r'.Max() && r'.occupied[j] && !r'.entries[j].removed ensures r'.entries[j].generation != g {
      assert j != i && r'.entries[j] == r.entries[j];
    }
  }

  lemma GoneGrows(s: Sys, a: Act)
    requires Enabled(s, a)
    ensures s.gone <= Do(s, a).gone
  {
  }

  lemma {:induction false} GoneStays(run: seq<Sys>, acts: seq<Act>, max: nat, i: nat, j: nat)
    requires IsRun(run, acts, max) && i <= j < |run|
    ensures run[i].gone <= run[j].gone
  {
    if i < j {
      GoneStays(run, acts, max, i, j - 1);
      GoneGrows(run[j - 1], acts[j - 1]);
    }
  }

  /** The registration a `removeAndWait` call reports as Removed in this step, if it does. */
  predicate ReturnsRemoved(s: Sys, a: Act, g: nat)
    requires s.reg.WellFormed(s.reg.Max())
  {
    match a
    case UnregisterAndWait(_, o) =>
      o != NULL && FindActive(s.reg, o, 0) < s.reg.Max() && RemoveOrWait(s.reg, o).1 == Returns(Removed)
      && s.reg.entries[FindActive(s.reg, o, 0)].generation == g
    case Recheck(who) =>
      who in s.waiters && s.waiters[who].slot < s.reg.Max() && s.reg.entries[s.waiters[who].slot].activeCalls == 0
      && s.waiters[who].generation == g
    case _ => false
  }

  /** From a return of `removeAndWait` that reports Removed on, no notifier is inside an action for that
    * registration, none will enter one, and no slot will ever hold it. */
  lemma RemoveAndWaitIsFinal(run: seq<Sys>, acts: seq<Act>, max: nat, i: nat, j: nat, g: nat)
    requires IsRun(run, acts, max) && i < j < |run|
    requires run[i].reg.WellFormed(run[i].reg.Max()) && ReturnsRemoved(run[i], acts[i], g)
    ensures Callers(run[j], g) == {}
    ensures run[j].reg.WellFormed(max)
    ensures forall k :: 0 <= k < max && run[j].reg.occupied[k] ==> run[j].reg.entries[k].generation != g
  {
    assert g in run[i + 1].gone;
    GoneStays(run, acts, max, i + 1, j);
    InvInRun(run, acts, max, j);
    var s := run[j];
    assert GoneFrom(s.reg, g);
    forall n | n in s.notifiers ensures n !in Callers(s, g) {
      assert CallOk(s.reg, s.notifiers[n]);
    }
  }

  /** Some notifier is inside an action for observer `o`. */
  ghost predicate InCallback(s: Sys, o: Observer) {
    exists n :: n in s.notifiers && s.notifiers[n].pc.Calling? && s.notifiers[n].pc.observer == o
  }

  /** `remove` has marked a slot of observer `o` that is still being called. */
  predicate MarkedInUse(r: Registry, o: Observer)
    requires r.WellFormed(r.Max())
  {
    exists i :: 0 <= i < r.Max() && r.occupied[i] && r.entries[i].observer == o
                && r.entries[i].removed && r.entries[i].activeCalls > 0
  }

  lemma CallerIsInItsSlot(s: Sys, n: Party)
    requires SlotsInv(s) && CallsInv(s) && n in s.notifiers && s.notifiers[n].pc.Calling?
    ensures var i := Slot(s.notifiers[n]);
            0 <= i < s.reg.Max() && s.reg.occupied[i] && s.reg.entries[i].observer == s.notifiers[n].pc.observer
            && s.reg.entries[i].activeCalls > 0
  {
    var i: nat := Slot(s.notifiers[n]);
    assert CallOk(s.reg, s.notifiers[n]);
    assert n in Holders(s, i);
    assert s.reg.entries[i].activeCalls == |Holders(s, i)|;
  }

  lemma CalledSlotHasCaller(s: Sys, i: nat)
    requires SlotsInv(s) && CallsInv(s) && i < s.reg.Max() && s.reg.entries[i].activeCalls > 0
    ensures InCallback(s, s.reg.entries[i].observer)
  {
    assert |Holders(s, i)| > 0;
    var n :| n in Holders(s, i);
    assert CallOk(s.reg, s.notifiers[n]);
  }

  /** The slot of an observer that `removeAndWait` did not wait for is not active and in use. */
  lemma NotWaitedFor(r: Registry, o: Observer, i: nat)
    requires r.WellFormed(r.Max()) && i < r.Max() && o != NULL && RemoveOrWait(r, o).1.Returns?
    requires r.occupied[i] && r.entries[i].observer == o && r.entries[i].activeCalls > 0
    requires forall j :: 0 <= j < r.Max() && j != i && r.occupied[j] ==> r.entries[j].observer != o
    ensures r.entries[i].removed
  {
    var f := FindActive(r, o, 0);
    assert f == r.Max() || f == i;
    assert f == r.Max() ==> !ActiveAt(r, i, o);
  }

  lemma ReturnLeavesIff(s: Sys, who: Party, o: Observer)
    requires Inv(s) && Enabled(s, UnregisterAndWait(who, o)) && o != NULL && RemoveOrWait(s.reg, o).1.Returns?
    ensures InCallback(Do(s, UnregisterAndWait(who, o)), o) <==> MarkedInUse(s.reg, o)
  {
    var s' := Do(s, UnregisterAndWait(who, o));
    assert s'.notifiers == s.notifiers;
    if InCallback(s', o) {
      var n :| n in s.notifiers && s.notifiers[n].pc.Calling? && s.notifiers[n].pc.observer == o;
      CallerIsInItsSlot(s, n);
      NotWaitedFor(s.reg, o, Slot(s.notifiers[n]));
    }
    if MarkedInUse(s.reg, o) {
      var i :| 0 <= i < s.reg.Max() && s.reg.occupied[i] && s.reg.entries[i].observer == o
               && s.reg.entries[i].removed && s.reg.entries[i].activeCalls > 0;
      CalledSlotHasCaller(s, i);
    }
  }

  /** When `removeAndWait` returns at once, a callback of that observer is still under way exactly if an earlier
    * `remove` has marked its slot while it was being called: then NotFound is no proof of rest. */
  lemma ReturnLeavesCallbackIff(run: seq<Sys>, acts: seq<Act>, max: nat, i: nat, who: Party, o: Observer)
    requires IsRun(run, acts, max) && i < |acts| && acts[i] == UnregisterAndWait(who, o) && o != NULL
    requires run[i].reg.WellFormed(run[i].reg.Max()) && RemoveOrWait(run[i].reg, o).1.Returns?
    ensures InCallback(run[i + 1], o) <==> MarkedInUse(run[i].reg, o)
    ensures MarkedInUse(run[i].reg, o) ==> RemoveOrWait(run[i].reg, o).1 == Returns(NotFound)
  {
    InvInRun(run, acts, max, i);
    ReturnLeavesIff(run[i], who, o);
  }

  /** A return after the wait leaves no callback of that observer. */
  lemma WaitedReturnLeavesNone(run: seq<Sys>, acts: seq<Act>, max: nat, i: nat, who: Party)
    requires IsRun(run, acts, max) && i < |acts| && acts[i] == Recheck(who) && who in run[i].waiters
    requires run[i].waiters[who].slot < |run[i].reg.entries| && who !in run[i + 1].waiters
    ensures !InCallback(run[i + 1], run[i].reg.entries[run[i].waiters[who].slot].observer)
  {
    InvInRun(run, acts, max, i);
    RecheckLeavesNone(run[i], who);
  }

  lemma RecheckLeavesNone(s: Sys, who: Party)
    requires Inv(s) && Enabled(s, Recheck(who)) && s.reg.entries[s.waiters[who].slot].activeCalls == 0
    ensures !InCallback(Do(s, Recheck(who)), s.reg.entries[s.waiters[who].slot].observer)
  {
    assert WaiterOk(s.reg, s.waiters[who]);
    UncalledSlot(s, s.waiters[who].slot);
  }

  lemma UncalledSlot(s: Sys, i: nat)
    requires SlotsInv(s) && CallsInv(s) && i < s.reg.Max() && s.reg.occupied[i] && s.reg.entries[i].activeCalls == 0
    ensures !InCallback(s, s.reg.entries[i].observer)
  {
    if InCallback(s, s.reg.entries[i].observer) {
      var n :| n in s.notifiers && s.notifiers[n].pc.Calling?
               && s.notifiers[n].pc.observer == s.reg.entries[i].observer;
      CallerIsInItsSlot(s, n);
    }
  }

  /** One slot, one observer, one notifier on its way to it. */
  function OneSlot(e: Entry, n: Notifier): Sys {
    Sys(Registry([e], [true], 1), map[0 := n], map[], [1], {})
  }

  const CALLED := Notifier(1, [true], Calling(1, 1), [true], [1], [Call(0, 1, 1)])

  lemma RegisterFirst()
    ensures Enabled(Initial(1), Register(1))
    ensures Do(Initial(1), Register(1)) ==
              Sys(Registry([Entry(1, 0, 1, false, false)], [true], 1), map[], map[], [1], {})
  {
  }

  lemma NotifyFirst(s: Sys)
    requires s == Sys(Registry([Entry(1, 0, 1, false, false)], [true], 1), map[], map[], [1], {})
    ensures Enabled(s, Notify(0))
    ensures Do(s, Notify(0)) == OneSlot(Entry(1, 0, 1, false, false), Notifier(1, [true], Scanning, [], [1], []))
  {
    assert Generations(s.reg) == [1];
  }

  lemma VisitFirst(s: Sys)
    requires s == OneSlot(Entry(1, 0, 1, false, false), Notifier(1, [true], Scanning, [], [1], []))
    ensures Enabled(s, Visit(0)) && Do(s, Visit(0)) == OneSlot(Entry(1, 1, 1, false, false), CALLED)
  {
    assert s.reg.occupied[0] && !s.reg.entries[0].removed && s.reg.entries[0].generation == 1;
    assert s.reg.entries[0 := Entry(1, 1, 1, false, false)] == [Entry(1, 1, 1, false, false)];
    assert Acquire(s.reg, 0, 1) == (Registry([Entry(1, 1, 1, false, false)], [true], 1), 1);
    assert Live(s.reg, 1) && [] + [true] == [true] && [] + [Call(0, 1, 1)] == [Call(0, 1, 1)];
    assert VisitSlot(s, s.notifiers[0]).1 == CALLED;
  }

  lemma RemoveInCallback(s: Sys)
    requires s == OneSlot(Entry(1, 1, 1, false, false), CALLED)
    ensures Enabled(s, Unregister(1)) && Do(s, Unregister(1)) == OneSlot(Entry(1, 1, 1, true, false), CALLED)
  {
  }

  lemma NotFoundAtOnce(s: Sys)
    requires s == OneSlot(Entry(1, 1, 1, true, false), CALLED)
    ensures Enabled(s, UnregisterAndWait(5, 1)) && RemoveOrWait(s.reg, 1) == (s.reg, Returns(NotFound))
    ensures Do(s, UnregisterAndWait(5, 1)) == s && InCallback(s, 1)
  {
    assert 0 in s.notifiers;
  }

  lemma OneMore(run: seq<Sys>, acts: seq<Act>, max: nat, a: Act) returns (run': seq<Sys>, acts': seq<Act>)
    requires IsRun(run, acts, max) && Enabled(run[|acts|], a)
    ensures IsRun(run', acts', max) && |acts'| == |acts| + 1 && acts'[|acts|] == a
    ensures run'[|acts|] == run[|acts|] && run'[|acts| + 1] == Do(run[|acts|], a)
  {
    run', acts' := run + [Do(run[|acts|], a)], acts + [a];
  }

  /** A run in which it happens: a callback removes its observer, and removeAndWait returns NotFound beside it. */
  lemma NotFoundBesideCallback() returns (run: seq<Sys>, acts: seq<Act>)
    ensures IsRun(run, acts, 1) && |acts| == 5 && acts[4] == UnregisterAndWait(5, 1)
    ensures run[4].reg.WellFormed(1) && RemoveOrWait(run[4].reg, 1).1 == Returns(NotFound) && InCallback(run[5], 1)
  {
    var s1 := Sys(Registry([Entry(1, 0, 1, false, false)], [true], 1), map[], map[], [1], {});
    var s2 := OneSlot(Entry(1, 0, 1, false, false), Notifier(1, [true], Scanning, [], [1], []));
    var s3, s4 := OneSlot(Entry(1, 1, 1, false, false), CALLED), OneSlot(Entry(1, 1, 1, true, false), CALLED);
    RegisterFirst();
    run, acts := OneMore([Initial(1)], [], 1, Register(1));
    NotifyFirst(s1);
    run, acts := OneMore(run, acts, 1, Notify(0));
    VisitFirst(s2);
    run, acts := OneMore(run, acts, 1, Visit(0));
    RemoveInCallback(s3);
    run, acts := OneMore(run, acts, 1, Unregister(1));
    NotFoundAtOnce(s4);
    run, acts := OneMore(run, acts, 1, UnregisterAndWait(5, 1));
  }

  /** A waiter asleep although its registration's callbacks are over is owed a broadcast by some notifier. */
  lemma NoLostWakeup(run: seq<Sys>, acts: seq<Act>, max: nat, k: nat, who: Party)
    requires IsRun(run, acts, max) && k < |run| && who in run[k].waiters && run[k].waiters[who].asleep
    requires run[k].waiters[who].slot < |run[k].reg.entries|
    requires run[k].reg.entries[run[k].waiters[who].slot].activeCalls == 0
    ensures exists n :: n in run[k].notifiers && run[k].notifiers[n].pc == Owing
  {
    InvInRun(run, acts, max, k);
    assert WakeOwed(run[k]);
  }

  /** A waiter asleep has somebody to wait for: a notifier inside its registration's callback, or one that owes
    * the broadcast. */
  lemma WaiterIsNeverStuck(run: seq<Sys>, acts: seq<Act>, max: nat, k: nat, who: Party)
    requires IsRun(run, acts, max) && k < |run| && who in run[k].waiters && run[k].waiters[who].asleep
    ensures exists n :: n in run[k].notifiers
              && (Holds(run[k].notifiers[n], run[k].waiters[who].slot) || run[k].notifiers[n].pc == Owing)
  {
    InvInRun(run, acts, max, k);
    SomeoneHoldsOrOwes(run[k], who);
  }

  lemma SomeoneHoldsOrOwes(s: Sys, who: Party)
    requires SlotsInv(s) && WakeOwed(s) && who in s.waiters && s.waiters[who].asleep
    ensures exists n :: n in s.notifiers && (Holds(s.notifiers[n], s.waiters[who].slot) || s.notifiers[n].pc == Owing)
  {
    if !SomeoneOwes(s) {
      assert |Holders(s, s.waiters[who].slot)| > 0;
      var n :| n in Holders(s, s.waiters[who].slot);
    }
  }

  // ---------------------------------------------------------------- notify

  /** Reaching slot `i`, `notify` calls the registration that its snapshot saw there exactly if it is still
    * registered and not removed, and never one added after the snapshot. */
  lemma VisitCallsIff(run: seq<Sys>, acts: seq<Act>, max: nat, k: nat, who: Party)
    requires IsRun(run, acts, max) && k < |acts| && acts[k] == Visit(who)
    ensures var n := run[k].notifiers[who];
            var i := |n.reached|;
            && run[k].reg.WellFormed(max) && i < max == |n.snapshot| == |n.listed| && who in run[k + 1].notifiers
            && (run[k + 1].notifiers[who].pc.Calling? <==> n.snapshot[i] && Live(run[k].reg, n.listed[i]))
            && (run[k + 1].notifiers[who].pc.Calling? ==>
                  0 < n.listed[i] <= n.startGeneration && n.listed[i] <= |run[k].book|
                  && run[k + 1].notifiers[who].calls
                     == n.calls + [Call(i, n.listed[i], run[k].book[n.listed[i] - 1])])
            && (!run[k + 1].notifiers[who].pc.Calling? ==> run[k + 1].notifiers[who].calls == n.calls)
  {
    InvInRun(run, acts, max, k);
    VisitOutcome(run[k], who);
  }

  /** What a visit does to its notifier's record of calls. */
  ghost predicate VisitRecord(s: Sys, n: Notifier, n': Notifier)
    requires Closed(s) && |n.snapshot| == s.reg.Max() == |n.listed| && |n.reached| < s.reg.Max()
  {
    var i := |n.reached|;
    && (n'.pc.Calling? <==> n.snapshot[i] && Live(s.reg, n.listed[i]))
    && (n'.pc.Calling? ==>
          0 < n.listed[i] <= n.startGeneration && n.listed[i] <= |s.book|
          && n'.calls == n.calls + [Call(i, n.listed[i], s.book[n.listed[i] - 1])])
    && (!n'.pc.Calling? ==> n'.calls == n.calls)
  }

  lemma AcquiringRecord(s: Sys, who: Party, i: nat)
    requires SlotsInv(s) && SnapshotsInv(s) && Enabled(s, Visit(who)) && i == |s.notifiers[who].reached|
    requires s.notifiers[who].snapshot[i] && CanAcquire(s.reg, i, s.notifiers[who].startGeneration)
    ensures who in Do(s, Visit(who)).notifiers && VisitRecord(s, s.notifiers[who], Do(s, Visit(who)).notifiers[who])
  {
    VisitReady(s, who, i);
    VisitAcquires(s, who, i);
    AcquiresTheSnapshotted(s, who, i);
    AcquiredIsBooked(s, who, i);
    assert SnapshotOk(s.reg, s.book, s.notifiers[who]);
  }

  lemma PassingRecord(s: Sys, who: Party, i: nat)
    requires Closed(s) && SnapshotsInv(s) && Enabled(s, Visit(who)) && i == |s.notifiers[who].reached|
    requires s.notifiers[who].snapshot[i] ==> !CanAcquire(s.reg, i, s.notifiers[who].startGeneration)
    ensures who in Do(s, Visit(who)).notifiers && VisitRecord(s, s.notifiers[who], Do(s, Visit(who)).notifiers[who])
  {
    VisitPasses(s, who);
    PassedIsDead(s, who, i);
  }

  lemma VisitOutcome(s: Sys, who: Party)
    requires SlotsInv(s) && SnapshotsInv(s) && Enabled(s, Visit(who))
    ensures who in Do(s, Visit(who)).notifiers && VisitRecord(s, s.notifiers[who], Do(s, Visit(who)).notifiers[who])
  {
    var n := s.notifiers[who];
    if n.snapshot[|n.reached|] && CanAcquire(s.reg, |n.reached|, n.startGeneration) {
      AcquiringRecord(s, who, |n.reached|);
    } else {
      PassingRecord(s, who, |n.reached|);
    }
  }

  lemma PassedIsDead(s: Sys, who: Party, i: nat)
    requires Closed(s) && SnapshotsInv(s) && who in s.notifiers && i < s.reg.Max()
    requires s.notifiers[who].snapshot[i] ==> !CanAcquire(s.reg, i, s.notifiers[who].startGeneration)
    ensures s.notifiers[who].snapshot[i] ==> !Live(s.reg, s.notifiers[who].listed[i])
  {
    if s.notifiers[who].snapshot[i] {
      AcquiresTheSnapshotted(s, who, i);
    }
  }

  /** In slot order, each for a slot of the snapshot that was found live. */
  ghost predicate CallsFit(calls: seq<Call>, snapshot: seq<bool>, listed: seq<nat>, reached: seq<bool>,
                           book: seq<Observer>)
    requires |reached| <= |snapshot| == |listed|
    requires forall i :: 0 <= i < |snapshot| && snapshot[i] ==> 0 < listed[i] <= |book|
  {
    && (forall a, b :: 0 <= a < b < |calls| ==> calls[a].slot < calls[b].slot)
    && (forall c :: c in calls ==>
          c.slot < |reached| && snapshot[c.slot] && reached[c.slot]
          && c.generation == listed[c.slot] && c.observer == book[c.generation - 1])
  }

  lemma OneMoreFits(front: seq<Call>, snapshot: seq<bool>, listed: seq<nat>, reached: seq<bool>, book: seq<Observer>)
    requires 0 < |reached| <= |snapshot| == |listed|
    requires forall i :: 0 <= i < |snapshot| && snapshot[i] ==> 0 < listed[i] <= |book|
    requires CallsFit(front, snapshot, listed, reached[..|reached| - 1], book)
    ensures CallsFit(front, snapshot, listed, reached, book)
    ensures var k := |reached| - 1;
            snapshot[k] && reached[k] ==>
              CallsFit(front + [Call(k, listed[k], book[listed[k] - 1])], snapshot, listed, reached, book)
  {
    assert forall a :: 0 <= a < |front| ==> front[a] in front;
  }

  lemma {:induction false} ExpectedIsSound(snapshot: seq<bool>, listed: seq<nat>, reached: seq<bool>,
                                           book: seq<Observer>)
    requires |reached| <= |snapshot| == |listed|
    requires forall i :: 0 <= i < |snapshot| && snapshot[i] ==> 0 < listed[i] <= |book|
    ensures CallsFit(Expected(snapshot, listed, reached, book), snapshot, listed, reached, book)
  {
    if reached != [] {
      var front := Expected(snapshot, listed, reached[..|reached| - 1], book);
      ExpectedIsSound(snapshot, listed, reached[..|reached| - 1], book);
      OneMoreFits(front, snapshot, listed, reached, book);
      assert front + [] == front;
    }
  }

  lemma {:induction false} ExpectedIsComplete(snapshot: seq<bool>, listed: seq<nat>, reached: seq<bool>,
                                              book: seq<Observer>, i: nat)
    requires i < |reached| <= |snapshot| == |listed| && snapshot[i] && reached[i]
    requires forall j :: 0 <= j < |snapshot| && snapshot[j] ==> 0 < listed[j] <= |book|
    ensures Call(i, listed[i], book[listed[i] - 1]) in Expected(snapshot, listed, reached, book)
  {
    if i < |reached| - 1 {
      ExpectedIsComplete(snapshot, listed, reached[..|reached| - 1], book, i);
    }
  }

  /** What `Expected` means: calls in slot order, one for each slot of the snapshot found live, none other. */
  lemma ExpectedMeans(snapshot: seq<bool>, listed: seq<nat>, reached: seq<bool>, book: seq<Observer>)
    requires |reached| <= |snapshot| == |listed|
    requires forall i :: 0 <= i < |snapshot| && snapshot[i] ==> 0 < listed[i] <= |book|
    ensures var calls := Expected(snapshot, listed, reached, book);
            && CallsFit(calls, snapshot, listed, reached, book)
            && (forall i :: 0 <= i < |reached| && snapshot[i] && reached[i] ==>
                  Call(i, listed[i], book[listed[i] - 1]) in calls)
  {
    ExpectedIsSound(snapshot, listed, reached, book);
    forall i | 0 <= i < |reached| && snapshot[i] && reached[i]
      ensures Call(i, listed[i], book[listed[i] - 1]) in Expected(snapshot, listed, reached, book)
    {
      ExpectedIsComplete(snapshot, listed, reached, book, i);
    }
  }

  /** The calls of a notifier are, in slot order and once each, the registrations of its snapshot that were
    * still live when their slot was reached. */
  ghost predicate CalledTheLive(n: Notifier, book: seq<Observer>)
    requires |n.snapshot| == |n.listed| == |n.reached|
  {
    && (forall a, b :: 0 <= a < b < |n.calls| ==> n.calls[a].slot < n.calls[b].slot)
    && (forall c :: c in n.calls ==>
          c.slot < |n.reached| && n.snapshot[c.slot] && n.reached[c.slot] && c.generation == n.listed[c.slot]
          && 0 < c.generation <= n.startGeneration <= |book| && c.observer == book[c.generation - 1])
    && (forall i :: 0 <= i < |n.reached| && n.snapshot[i] && n.reached[i] ==>
          0 < n.listed[i] <= |book| && Call(i, n.listed[i], book[n.listed[i] - 1]) in n.calls)
  }

  lemma CalledAsExpected(r: Registry, n: Notifier, book: seq<Observer>)
    requires r.WellFormed(r.Max()) && |n.snapshot| == r.Max() == |n.listed| && |n.reached| <= r.Max()
    requires SnapshotOk(r, book, n) && n.pc == Returned
    ensures |n.reached| == r.Max() && CalledTheLive(n, book)
  {
    ExpectedMeans(n.snapshot, n.listed, n.reached, book);
  }

  /** When `notify` has returned it has visited every slot and made just those calls. */
  lemma NotifyCallsTheSnapshot(run: seq<Sys>, acts: seq<Act>, max: nat, k: nat, who: Party)
    requires IsRun(run, acts, max) && k < |run| && At(run[k], who, Returned)
    ensures var n := run[k].notifiers[who];
            |n.snapshot| == |n.listed| == |n.reached| == max && CalledTheLive(n, run[k].book)
  {
    InvInRun(run, acts, max, k);
    CalledAsExpected(run[k].reg, run[k].notifiers[who], run[k].book);
  }
}

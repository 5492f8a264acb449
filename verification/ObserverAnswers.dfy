/** What each call on the observer list answers and does, in terms of the observers registered and of the callbacks
  * under way. */
module ObserverAnswers {
  import opened ObserverRegistry
  import opened ObserverProtocol
  import opened ObserverTheorems

  // ---------------------------------------------------------------- on the slots

  lemma RegistersOne(r: Registry, o: Observer, p: Observer)
    requires r.WellFormed(r.Max())
    ensures var r', free := Add(r, o), exists i :: 0 <= i < r.Max() && !r.occupied[i];
            && r'.WellFormed(r.Max())
            && (if o != NULL && !Knows(r, o) && free then
                  Live(r', r.generation + 1) && r'.generation == r.generation + 1
                  && (Registered(r', p) <==> p == o || Registered(r, p))
                else r' == r)
  {
    var r' := Add(r, o);
    if CanAdd(r, o) {
      var f := FirstFree(r, 0);
      assert r'.occupied[f] && !r'.entries[f].removed && r'.entries[f].generation == r.generation + 1;
      OtherSlotsStay(r, r', f, p);
      assert ActiveAt(r', f, o);
    }
  }

  /** Registration outside slot `i`. */
  ghost predicate RegisteredElsewhere(r: Registry, o: Observer, i: nat)
    requires r.WellFormed(r.Max())
  {
    exists j :: 0 <= j < r.Max() && j != i && ActiveAt(r, j, o)
  }

  lemma OtherSlotsStay(r: Registry, r': Registry, i: nat, o: Observer)
    requires r.WellFormed(r.Max()) && r'.WellFormed(r.Max()) && i < r.Max()
    requires forall j :: 0 <= j < r.Max() && j != i ==> r'.entries[j] == r.entries[j] && r'.occupied[j] == r.occupied[j]
    ensures RegisteredElsewhere(r', o, i) <==> RegisteredElsewhere(r, o, i)
    ensures Registered(r, o) <==> ActiveAt(r, i, o) || RegisteredElsewhere(r, o, i)
    ensures Registered(r', o) <==> ActiveAt(r', i, o) || RegisteredElsewhere(r', o, i)
  {
    forall j | 0 <= j < r.Max() && j != i ensures ActiveAt(r', j, o) <==> ActiveAt(r, j, o) {
    }
  }

  /** A step that leaves slot `i`, which held `o`, free or removed, takes `o` and nobody else off. */
  lemma Deregisters(r: Registry, r': Registry, i: nat, o: Observer, p: Observer)
    requires r.WellFormed(r.Max()) && r'.WellFormed(r.Max()) && i < r.Max() && ApartObservers(r) && ActiveAt(r, i, o)
    requires forall j :: 0 <= j < r.Max() && j != i ==> r'.entries[j] == r.entries[j] && r'.occupied[j] == r.occupied[j]
    requires !r'.occupied[i] || r'.entries[i].removed
    ensures Registered(r', p) <==> p != o && Registered(r, p)
  {
    OtherSlotsStay(r, r', i, p);
    if RegisteredElsewhere(r, p, i) {
      var j :| 0 <= j < r.Max() && j != i && ActiveAt(r, j, p);
      assert r.entries[i].observer != r.entries[j].observer;
    }
  }

  lemma NotFoundIff(r: Registry, o: Observer)
    requires r.WellFormed(r.Max())
    ensures FindActive(r, o, 0) == r.Max() <==> !Registered(r, o)
  {
    if FindActive(r, o, 0) < r.Max() {
      assert ActiveAt(r, FindActive(r, o, 0), o);
    }
  }

  lemma RemovesOne(r: Registry, o: Observer, p: Observer)
    requires r.WellFormed(r.Max()) && ApartObservers(r) && o != NULL
    ensures Remove(r, o).1 == if Registered(r, o) then Removed else NotFound
    ensures Remove(r, o).0.WellFormed(r.Max()) && (Registered(Remove(r, o).0, p) <==> p != o && Registered(r, p))
  {
    NotFoundIff(r, o);
    if Registered(r, o) {
      Deregisters(r, Remove(r, o).0, FindActive(r, o, 0), o, p);
    }
  }

  lemma RemovesOneOrWaits(r: Registry, o: Observer, p: Observer)
    requires r.WellFormed(r.Max()) && ApartObservers(r) && o != NULL
    ensures RemoveOrWait(r, o).1 == Returns(NotFound) <==> !Registered(r, o)
    ensures RemoveOrWait(r, o).0.WellFormed(r.Max())
         && (Registered(RemoveOrWait(r, o).0, p) <==> p != o && Registered(r, p))
  {
    NotFoundIff(r, o);
    if Registered(r, o) {
      Deregisters(r, RemoveOrWait(r, o).0, FindActive(r, o, 0), o, p);
    }
  }

  // ---------------------------------------------------------------- in every run

  lemma ApartInRun(run: seq<Sys>, acts: seq<Act>, max: nat, k: nat)
    requires IsRun(run, acts, max) && k < |run|
    ensures Inv(run[k]) && run[k].reg.Max() == max && ApartObservers(run[k].reg)
  {
    InvInRun(run, acts, max, k);
  }

  /** `add` registers the observer exactly if it is not null, no slot holds it, removed or not, and a slot is free;
    * the registration is live under a fresh generation, the others are untouched. */
  lemma AddAnswers(run: seq<Sys>, acts: seq<Act>, max: nat, k: nat, o: Observer, p: Observer)
    requires IsRun(run, acts, max) && k < |acts| && acts[k] == Register(o)
    ensures run[k].reg.WellFormed(max) && run[k + 1].reg.WellFormed(max)
    ensures var r, r' := run[k].reg, run[k + 1].reg;
            if o != NULL && (forall i :: 0 <= i < max && r.occupied[i] ==> r.entries[i].observer != o)
               && (exists i :: 0 <= i < max && !r.occupied[i])
            then Live(r', r.generation + 1) && r'.generation == r.generation + 1
                 && (Registered(r', p) <==> p == o || Registered(r, p))
            else r' == r
  {
    ApartInRun(run, acts, max, k);
    RegistersOne(run[k].reg, o, p);
  }

  /** `remove` answers Removed exactly if the observer was registered; afterwards it is not, and all others are as
    * before. */
  lemma RemoveAnswers(run: seq<Sys>, acts: seq<Act>, max: nat, k: nat, o: Observer, p: Observer)
    requires IsRun(run, acts, max) && k < |acts| && acts[k] == Unregister(o) && o != NULL
    ensures run[k].reg.WellFormed(max) && run[k + 1].reg.WellFormed(max)
    ensures Remove(run[k].reg, o).1 == if Registered(run[k].reg, o) then Removed else NotFound
    ensures Registered(run[k + 1].reg, p) <==> p != o && Registered(run[k].reg, p)
  {
    ApartInRun(run, acts, max, k);
    RemovesOne(run[k].reg, o, p);
  }

  lemma RegisteredCalledIff(s: Sys, o: Observer, i: nat)
    requires SlotsInv(s) && CallsInv(s) && i < s.reg.Max() && ActiveAt(s.reg, i, o)
    ensures InCallback(s, o) <==> s.reg.entries[i].activeCalls > 0
  {
    if s.reg.entries[i].activeCalls > 0 {
      CalledSlotHasCaller(s, i);
    }
    if InCallback(s, o) {
      var n :| n in s.notifiers && s.notifiers[n].pc.Calling? && s.notifiers[n].pc.observer == o;
      CallerIsInItsSlot(s, n);
    }
  }

  lemma WaitsIff(s: Sys, o: Observer)
    requires Inv(s) && o != NULL
    ensures RemoveOrWait(s.reg, o).1.MustWait? <==> Registered(s.reg, o) && InCallback(s, o)
  {
    NotFoundIff(s.reg, o);
    if Registered(s.reg, o) {
      RegisteredCalledIff(s, o, FindActive(s.reg, o, 0));
    }
  }

  /** `removeAndWait` waits exactly if the observer is registered and some notifier is inside its callback, answers
    * Removed at once if it is registered and nobody is, and NotFound if it is not registered. In every case it is
    * not registered afterwards, and all others are as before. */
  lemma RemoveAndWaitAnswers(run: seq<Sys>, acts: seq<Act>, max: nat, k: nat, who: Party, o: Observer, p: Observer)
    requires IsRun(run, acts, max) && k < |acts| && acts[k] == UnregisterAndWait(who, o) && o != NULL
    ensures run[k].reg.WellFormed(max) && run[k + 1].reg.WellFormed(max)
    ensures (who in run[k + 1].waiters && run[k + 1].waiters[who].asleep) <==>
              Registered(run[k].reg, o) && InCallback(run[k], o)
    ensures RemoveOrWait(run[k].reg, o).1 == Returns(Removed) <==> Registered(run[k].reg, o) && !InCallback(run[k], o)
    ensures RemoveOrWait(run[k].reg, o).1 == Returns(NotFound) <==> !Registered(run[k].reg, o)
    ensures Registered(run[k + 1].reg, p) <==> p != o && Registered(run[k].reg, p)
  {
    ApartInRun(run, acts, max, k);
    WaitsIff(run[k], o);
    RemovesOneOrWaits(run[k].reg, o, p);
  }

  lemma SlotCalledIff(s: Sys, i: nat)
    requires SlotsInv(s) && CallsInv(s) && i < s.reg.Max() && s.reg.occupied[i]
    ensures InCallback(s, s.reg.entries[i].observer) <==> s.reg.entries[i].activeCalls > 0
  {
    if s.reg.entries[i].activeCalls > 0 {
      CalledSlotHasCaller(s, i);
    } else {
      UncalledSlot(s, i);
    }
  }

  /** A waiter that is awake returns exactly if no notifier is inside its observer's callback, and its slot is free
    * then; otherwise it sleeps again. */
  lemma RecheckAnswers(run: seq<Sys>, acts: seq<Act>, max: nat, k: nat, who: Party)
    requires IsRun(run, acts, max) && k < |acts| && acts[k] == Recheck(who) && who in run[k].waiters
    ensures run[k].reg.WellFormed(max) && run[k + 1].reg.WellFormed(max) && run[k].waiters[who].slot < max
    ensures var i := run[k].waiters[who].slot;
            if InCallback(run[k], run[k].reg.entries[i].observer) then
              run[k + 1].reg == run[k].reg && who in run[k + 1].waiters && run[k + 1].waiters[who].asleep
            else who !in run[k + 1].waiters && !run[k + 1].reg.occupied[i]
  {
    ApartInRun(run, acts, max, k);
    assert WaiterOk(run[k].reg, run[k].waiters[who]);
    SlotCalledIff(run[k], run[k].waiters[who].slot);
  }

  /** `notify` begins by noting which slots are occupied and the latest generation, and calls nobody yet. */
  lemma NotifyBegins(run: seq<Sys>, acts: seq<Act>, max: nat, k: nat, who: Party)
    requires IsRun(run, acts, max) && k < |acts| && acts[k] == Notify(who)
    ensures run[k].reg.WellFormed(max) && run[k + 1].reg == run[k].reg && who in run[k + 1].notifiers
    ensures var n := run[k + 1].notifiers[who];
            && n.pc == Scanning && n.calls == [] && n.reached == []
            && n.startGeneration == run[k].reg.generation && |n.snapshot| == max == |n.listed|
            && forall i :: 0 <= i < max ==>
                 (n.snapshot[i] <==> run[k].reg.occupied[i]) && n.listed[i] == run[k].reg.entries[i].generation
  {
    ApartInRun(run, acts, max, k);
  }

  /** When a callback ends, its slot is freed exactly if it is marked, nobody waits for it and no other notifier is
    * inside it; the notifier goes on to the next slot, or first to the broadcast that a waiter is owed. */
  lemma FinishAnswers(run: seq<Sys>, acts: seq<Act>, max: nat, k: nat, who: Party)
    requires IsRun(run, acts, max) && k < |acts| && acts[k] == Finish(who) && who in run[k].notifiers
    ensures run[k].reg.WellFormed(max) && run[k + 1].reg.WellFormed(max) && 0 <= Slot(run[k].notifiers[who]) < max
    ensures var i, s, s' := Slot(run[k].notifiers[who]), run[k], run[k + 1];
            var last := forall n :: n in s.notifiers && n != who ==> !Holds(s.notifiers[n], i);
            && (!s'.reg.occupied[i] <==> last && s.reg.entries[i].removed && !Awaited(s, i))
            && s'.notifiers[who] == s.notifiers[who].(pc := if last && Awaited(s, i) then Owing else Scanning)
  {
    ApartInRun(run, acts, max, k);
    FinishMeans(run[k], who);
  }

  lemma LastHolder(s: Sys, who: Party, i: nat)
    requires SlotsInv(s) && who in s.notifiers && i < s.reg.Max() && Holds(s.notifiers[who], i)
    ensures s.reg.entries[i].activeCalls == 1 <==>
              forall n :: n in s.notifiers && n != who ==> !Holds(s.notifiers[n], i)
  {
    var h := Holders(s, i);
    assert who in h;
    assert |h - {who}| == |h| - 1;
    if |h| == 1 {
      assert h - {who} == {};
      forall n | n in s.notifiers && n != who ensures !Holds(s.notifiers[n], i) {
        assert n in h ==> n in h - {who};
      }
    } else {
      var n :| n in h - {who};
    }
  }

  lemma AwaitedIff(s: Sys, i: nat)
    requires Closed(s) && WaitersSeated(s) && MarksAwaited(s) && i < s.reg.Max()
    ensures s.reg.entries[i].waitingRemoval <==> Awaited(s, i)
  {
    if Awaited(s, i) {
      var w :| w in s.waiters && s.waiters[w].slot == i;
      assert WaiterOk(s.reg, s.waiters[w]);
    }
  }

  lemma FinishMeans(s: Sys, who: Party)
    requires Inv(s) && Enabled(s, Finish(who))
    ensures 0 <= Slot(s.notifiers[who]) < s.reg.Max() && Do(s, Finish(who)).reg.WellFormed(s.reg.Max())
    ensures var i, s' := Slot(s.notifiers[who]), Do(s, Finish(who));
            var last := forall n :: n in s.notifiers && n != who ==> !Holds(s.notifiers[n], i);
            && (!s'.reg.occupied[i] <==> last && s.reg.entries[i].removed && !Awaited(s, i))
            && s'.notifiers[who] == s.notifiers[who].(pc := if last && Awaited(s, i) then Owing else Scanning)
  {
    var i: nat := Slot(s.notifiers[who]);
    ReleaseFindsItsSlot(s, who);
    LastHolder(s, who, i);
    AwaitedIff(s, i);
  }

  predicate NobodySleeps(s: Sys) {
    forall w :: w in s.waiters ==> !s.waiters[w].asleep
  }

  /** The broadcast that a notifier owes wakes every waiter and ends its debt; the final sweep, after the last slot,
    * ends `notify`. */
  lemma BroadcastAnswers(run: seq<Sys>, acts: seq<Act>, max: nat, k: nat, who: Party)
    requires IsRun(run, acts, max) && k < |acts| && who in run[k].notifiers
    ensures acts[k] == Broadcast(who) ==>
              && run[k + 1].reg == run[k].reg && run[k + 1].waiters.Keys == run[k].waiters.Keys
              && NobodySleeps(run[k + 1])
              && run[k + 1].notifiers == run[k].notifiers[who := run[k].notifiers[who].(pc := Scanning)]
    ensures acts[k] == SweepUp(who) ==>
              && run[k + 1].reg == run[k].reg && run[k + 1].waiters == run[k].waiters
              && |run[k].notifiers[who].reached| == max
              && run[k + 1].notifiers == run[k].notifiers[who := run[k].notifiers[who].(pc := Returned)]
  {
    ApartInRun(run, acts, max, k);
    if acts[k] == SweepUp(who) {
      SweepFindsNothing(run[k]);
    }
  }

  lemma NotifierGoesOn(s: Sys, who: Party)
    requires Closed(s) && who in s.notifiers && !s.notifiers[who].pc.Returned?
    ensures Enabled(s, Visit(who)) || Enabled(s, Finish(who)) || Enabled(s, Broadcast(who)) || Enabled(s, SweepUp(who))
  {
  }

  /** Nobody is held up by the list itself: a notifier that has not returned always has its next step, a waiter that
    * is awake can look again, and one that sleeps may wake for no reason; every call can begin. */
  lemma EveryoneGoesOn(run: seq<Sys>, acts: seq<Act>, max: nat, k: nat, who: Party, o: Observer)
    requires IsRun(run, acts, max) && k < |run|
    ensures who in run[k].notifiers && !run[k].notifiers[who].pc.Returned? ==>
              Enabled(run[k], Visit(who)) || Enabled(run[k], Finish(who)) || Enabled(run[k], Broadcast(who))
              || Enabled(run[k], SweepUp(who))
    ensures who in run[k].waiters ==>
              Enabled(run[k], if run[k].waiters[who].asleep then WakeUp(who) else Recheck(who))
    ensures who !in run[k].notifiers ==> Enabled(run[k], Notify(who))
    ensures who !in run[k].waiters ==> Enabled(run[k], UnregisterAndWait(who, o))
    ensures Enabled(run[k], Register(o)) && Enabled(run[k], Unregister(o))
  {
    InvInRun(run, acts, max, k);
    if who in run[k].notifiers && !run[k].notifiers[who].pc.Returned? {
      NotifierGoesOn(run[k], who);
    }
  }
}

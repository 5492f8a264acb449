/** SyncQueue: a bounded FIFO under one mutex with two condition variables, used by any number of threads.
  *
  * `Look` is what put and get do each time they hold mLock; the class performs it on the ring, and the step
  * system uses it for every interleaving of putters, getters, forced puts, flushes and setEOS calls. */
module SyncQueueProtocol {
  import opened Circular
  import opened Options

  type Item = nat
  type Thread = nat

  /** INFINITE, 0 and positive timeouts; the length of a positive one does not matter here. */
  datatype Patience = Forever | Never | ForAWhile

  datatype Look = Sleeps | Refused | Proceeds

  /** The loop head and the checks behind it, in put. */
  function PutLook(full: bool, eos: bool, p: Patience): Look {
    if full && !eos then (if p.Never? then Refused else Sleeps)
    else if full || eos then Refused else Proceeds
  }

  /** The same in get. */
  function GetLook(empty: bool, eos: bool, p: Patience): Look {
    if empty && !eos then (if p.Never? then Refused else Sleeps)
    else if empty || eos then Refused else Proceeds
  }

  /** The data under mLock; each method is one section, its condition-variable operations left to the caller. */
  class SyncQueue {
    const mQueue: CircularQueue<Item>
    var mEOS: bool

    ghost predicate Valid()
      reads this, mQueue
    {
      mQueue.Valid()
    }

    constructor (capacity: nat)
      requires capacity > 0
      ensures Valid() && mQueue.capacity == capacity && mQueue.Contents() == [] && !mEOS
      ensures fresh(mQueue) && fresh(mQueue.mBuffer)
    {
      mQueue := new CircularQueue(capacity, 0);
      mEOS := false;
    }

    /** One pass of put under the lock; on Proceeds one getter is signalled. */
    method PutPass(t: Item, p: Patience) returns (look: Look)
      requires Valid()
      modifies mQueue`mSize, mQueue`mRear, mQueue.mBuffer
      ensures Valid() && look == PutLook(|old(mQueue.Contents())| == mQueue.capacity, mEOS, p)
      ensures look.Sleeps? <==> |old(mQueue.Contents())| == mQueue.capacity && !mEOS && p != Never
      ensures look.Refused? <==> mEOS || (|old(mQueue.Contents())| == mQueue.capacity && p == Never)
      ensures mQueue.Contents() == old(mQueue.Contents()) + if look.Proceeds? then [t] else []
    {
      if mQueue.IsFull() && !mEOS {
        return if p.Never? then Refused else Sleeps;
      }
      if mQueue.IsFull() {
        return Refused;
      }
      if mEOS {
        return Refused;
      }
      var ok := mQueue.Put(t);
      look := Proceeds;
    }

    /** One pass of get under the lock; on Proceeds one putter is signalled. */
    method GetPass(p: Patience) returns (look: Look, t: Option<Item>)
      requires Valid()
      modifies mQueue`mSize, mQueue`mFront
      ensures Valid() && look == GetLook(old(mQueue.Contents()) == [], mEOS, p)
      ensures look.Sleeps? <==> old(mQueue.Contents()) == [] && !mEOS && p != Never
      ensures look.Refused? <==> mEOS || (old(mQueue.Contents()) == [] && p == Never)
      ensures t.Some? <==> look.Proceeds?
      ensures old(mQueue.Contents()) == (if t.Some? then [t.value] else []) + mQueue.Contents()
    {
      t := None;
      if mQueue.IsEmpty() && !mEOS {
        return if p.Never? then Refused else Sleeps, None;
      }
      if mQueue.IsEmpty() {
        return Refused, None;
      }
      if mEOS {
        return Refused, None;
      }
      t := mQueue.Get();
      look := Proceeds;
    }

    /** The section of putForce; `displaced` is what dispose() gets afterwards. */
    method PutForcePass(t: Item) returns (refused: bool, displaced: Option<Item>)
      requires Valid()
      modifies mQueue`mSize, mQueue`mFront, mQueue`mRear, mQueue.mBuffer
      ensures Valid() && refused == mEOS
      ensures displaced.Some? <==> !refused && |old(mQueue.Contents())| == mQueue.capacity
      ensures !refused ==>
                (if displaced.Some? then [displaced.value] else []) + mQueue.Contents() == old(mQueue.Contents()) + [t]
      ensures refused ==> mQueue.Contents() == old(mQueue.Contents())
    {
      displaced := None;
      if mEOS {
        return true, None;
      }
      ghost var was := mQueue.Contents();
      if mQueue.IsFull() {
        displaced := mQueue.Get();
      }
      ghost var rest := mQueue.Contents();
      assert (if displaced.Some? then [displaced.value] else []) + rest == was;
      var ok := mQueue.Put(t);
      assert mQueue.Contents() == rest + [t];
      refused := false;
    }

    /** The sections of a flush that nobody interrupts; `disposed` is what dispose() gets, in order. */
    method FlushSections() returns (disposed: seq<Item>)
      requires Valid()
      modifies mQueue`mSize, mQueue`mFront
      ensures Valid() && disposed == old(mQueue.Contents()) && mQueue.Contents() == []
    {
      disposed := [];
      while !mQueue.IsEmpty()
        invariant Valid() && disposed + mQueue.Contents() == old(mQueue.Contents())
        decreases |mQueue.Contents()|
      {
        var t := mQueue.Get();
        ghost var rest := mQueue.Contents();
        assert disposed + ([t.value] + rest) == (disposed + [t.value]) + rest;
        disposed := disposed + [t.value];
      }
    }
  }

  // ---------------------------------------------------------------- the step system

  datatype Role = Putter(item: Item) | Getter

  /** A thread inside put or get that has gone to sleep at least once. */
  datatype Waiting = Waiting(role: Role, patience: Patience, asleep: bool)

  datatype Fate = Delivered(to: Thread) | Displaced | Flushed

  /** A removed item with the way it went. */
  datatype Gone = Gone(item: Item, fate: Fate)

  datatype SetterPc = OwesFull | OwesEmpty   // which broadcast of setEOS comes next

  datatype Sys = Sys(
    capacity: nat,
    queue: seq<Item>,
    eos: bool,
    waiting: map<Thread, Waiting>,
    flushers: map<Thread, bool>,     // inside flush, its broadcast still to come; true: has seen the queue empty
    setters: map<Thread, SetterPc>,  // inside setEOS, past its section
    lastSetter: Thread,              // history: whose setEOS call is in effect
    accepted: seq<Item>,             // history: items put, in order
    gone: seq<Gone>)                 // history: items removed, in order

  datatype Act =
    | Put(who: Thread, t: Item, p: Patience, wake: Thread) // first pass, or the next one of a woken putter
    | Get(who: Thread, p: Patience, wake: Thread)
    | PutForce(t: Item, wake: Thread)
    | FlushPass(who: Thread)         // one pass of flush's loop: drop an item, or see the queue empty
    | FlushBroadcast(who: Thread)
    | SetEOS(who: Thread, eos: bool)
    | SetEOSBroadcast(who: Thread)
    | Spurious(who: Thread)          // pthread_cond_wait may return by itself
    | TimeOut(who: Thread)

  predicate IsAsleep(w: Waiting, getter: bool) { w.asleep && w.role.Getter? == getter }

  predicate IsWoken(w: Waiting, getter: bool) { !w.asleep && w.role.Getter? == getter }

  /** The sleepers on mCvEmpty (getters) or mCvFull (putters). */
  function Asleep(ts: map<Thread, Waiting>, getter: bool): set<Thread> {
    set t | t in ts && IsAsleep(ts[t], getter)
  }

  /** Those woken and not yet back under mLock. */
  function Woken(ts: map<Thread, Waiting>, getter: bool): set<Thread> {
    set t | t in ts && IsWoken(ts[t], getter)
  }

  /** `signal` wakes one sleeper if there is one; which one is open. */
  predicate MaySignal(ts: map<Thread, Waiting>, getter: bool, who: Thread) {
    Asleep(ts, getter) == {} || who in Asleep(ts, getter)
  }

  function Signal(ts: map<Thread, Waiting>, getter: bool, who: Thread): map<Thread, Waiting> {
    if who in ts && IsAsleep(ts[who], getter) then ts[who := ts[who].(asleep := false)] else ts
  }

  function Broadcast(ts: map<Thread, Waiting>, getter: bool): map<Thread, Waiting> {
    map t | t in ts :: if IsAsleep(ts[t], getter) then ts[t].(asleep := false) else ts[t]
  }

  function Full(s: Sys): bool { |s.queue| >= s.capacity }

  predicate Enabled(s: Sys, a: Act) {
    match a
    case Put(who, t, p, wake) =>
      && (who in s.waiting ==> s.waiting[who] == Waiting(Putter(t), p, false))
      && MaySignal(s.waiting - {who}, true, wake)
    case Get(who, p, wake) =>
      && (who in s.waiting ==> s.waiting[who] == Waiting(Getter, p, false))
      && MaySignal(s.waiting - {who}, false, wake)
    case PutForce(_, wake) => MaySignal(s.waiting, true, wake)
    case FlushPass(who) => who in s.flushers ==> !s.flushers[who]
    case FlushBroadcast(who) => who in s.flushers && s.flushers[who]
    case SetEOS(who, _) => who !in s.setters
    case SetEOSBroadcast(who) => who in s.setters
    case Spurious(who) => who in s.waiting && s.waiting[who].asleep
    case TimeOut(who) => who in s.waiting && s.waiting[who].asleep && s.waiting[who].patience.ForAWhile?
  }

  function Do(s: Sys, a: Act): Sys
    requires Enabled(s, a)
  {
    match a
    case Put(who, t, p, wake) =>
      var ts := s.waiting - {who};
      (match PutLook(Full(s), s.eos, p)
       case Sleeps => s.(waiting := s.waiting[who := Waiting(Putter(t), p, true)])
       case Refused => s.(waiting := ts)
       case Proceeds => s.(waiting := Signal(ts, true, wake), queue := s.queue + [t], accepted := s.accepted + [t]))
    case Get(who, p, wake) =>
      var ts := s.waiting - {who};
      (match GetLook(s.queue == [], s.eos, p)
       case Sleeps => s.(waiting := s.waiting[who := Waiting(Getter, p, true)])
       case Refused => s.(waiting := ts)
       case Proceeds => s.(waiting := Signal(ts, false, wake), queue := s.queue[1..],
                           gone := s.gone + [Gone(s.queue[0], Delivered(who))]))
    case PutForce(t, wake) =>
      if s.eos then s
      else
        var m := if Full(s) && s.queue != []
                 then s.(queue := s.queue[1..], gone := s.gone + [Gone(s.queue[0], Displaced)]) else s;
        m.(waiting := Signal(s.waiting, true, wake), queue := m.queue + [t], accepted := s.accepted + [t])
    case FlushPass(who) =>
      if s.queue == [] then s.(flushers := s.flushers[who := true])
      else
        s.(queue := s.queue[1..], gone := s.gone + [Gone(s.queue[0], Flushed)], flushers := s.flushers[who := false])
    case FlushBroadcast(who) => s.(flushers := s.flushers - {who}, waiting := Broadcast(s.waiting, false))
    case SetEOS(who, eos) => s.(eos := eos, setters := s.setters[who := OwesFull], lastSetter := who)
    case SetEOSBroadcast(who) =>
      (match s.setters[who]
       case OwesFull => s.(waiting := Broadcast(s.waiting, false), setters := s.setters[who := OwesEmpty])
       case OwesEmpty => s.(waiting := Broadcast(s.waiting, true), setters := s.setters - {who}))
    case Spurious(who) => s.(waiting := s.waiting[who := s.waiting[who].(asleep := false)])
    case TimeOut(who) => s.(waiting := s.waiting - {who})
  }

  function Initial(capacity: nat): Sys {
    Sys(capacity, [], false, map[], map[], map[], 0, [], [])
  }

  ghost predicate IsRun(run: seq<Sys>, acts: seq<Act>, capacity: nat) {
    && capacity > 0 && |run| == |acts| + 1
    && run[0] == Initial(capacity)
    && forall i :: 0 <= i < |acts| ==> Enabled(run[i], acts[i]) && run[i + 1] == Do(run[i], acts[i])
  }

  // ---------------------------------------------------------------- the invariant

  function Items(gone: seq<Gone>): (r: seq<Item>)
    ensures |r| == |gone|
  {
    seq(|gone|, i requires 0 <= i < |gone| => gone[i].item)
  }

  /** Somebody still owes the sleepers on that condition variable a broadcast. */
  predicate BroadcastDue(s: Sys, getter: bool) {
    if getter then s.setters != map[]
    else s.flushers != map[] || exists t :: t in s.setters && s.setters[t] == OwesFull
  }

  /** The setEOS call in effect still owes them one. */
  predicate LastSetterOwes(s: Sys, getter: bool) {
    s.lastSetter in s.setters && (getter || s.setters[s.lastSetter] == OwesFull)
  }

  /** What a sleeper waits for: items for getters, free slots for putters. */
  function Supply(s: Sys, getter: bool): int {
    if getter then |s.queue| else s.capacity - |s.queue|
  }

  /** Nobody sleeps, or there is no more supply than woken threads to take it. */
  predicate Balanced(supply: int, ts: map<Thread, Waiting>, getter: bool) {
    Asleep(ts, getter) == {} || supply <= |Woken(ts, getter)|
  }

  predicate SideInv(s: Sys, getter: bool) {
    && (!BroadcastDue(s, getter) ==> Balanced(Supply(s, getter), s.waiting, getter))
    && (s.eos && Asleep(s.waiting, getter) != {} ==> LastSetterOwes(s, getter))
  }

  predicate Inv(s: Sys) {
    && 0 < s.capacity && |s.queue| <= s.capacity
    && s.accepted == Items(s.gone) + s.queue
    && SideInv(s, true) && SideInv(s, false)
  }

  // ---------------------------------------------------------------- preservation

  lemma SignalMoves(ts: map<Thread, Waiting>, getter: bool, who: Thread)
    requires MaySignal(ts, getter, who)
    ensures var ts' := Signal(ts, getter, who);
            && Asleep(ts', !getter) == Asleep(ts, !getter) && Woken(ts', !getter) == Woken(ts, !getter)
            && Asleep(ts', getter) == Asleep(ts, getter) - {who}
            && (Asleep(ts, getter) != {} ==> |Woken(ts', getter)| == |Woken(ts, getter)| + 1)
            && (Asleep(ts, getter) == {} ==> Woken(ts', getter) == Woken(ts, getter))
  {
    var ts' := Signal(ts, getter, who);
    if Asleep(ts, getter) == {} {
      assert who in ts ==> who !in Asleep(ts, getter);
      assert ts' == ts;
    } else {
      assert who in Asleep(ts, getter) && who !in Woken(ts, getter);
      assert Woken(ts', getter) == Woken(ts, getter) + {who};
    }
  }

  lemma BroadcastMoves(ts: map<Thread, Waiting>, getter: bool)
    ensures var ts' := Broadcast(ts, getter);
            && Asleep(ts', getter) == {}
            && Asleep(ts', !getter) == Asleep(ts, !getter) && Woken(ts', !getter) == Woken(ts, !getter)
  {
  }

  /** Thread `who` leaves the waiting threads. */
  lemma LeaveMoves(ts: map<Thread, Waiting>, who: Thread, getter: bool)
    ensures Asleep(ts - {who}, getter) == Asleep(ts, getter) - {who}
    ensures Woken(ts - {who}, getter) == Woken(ts, getter) - {who}
  {
  }

  lemma SleepMoves(ts: map<Thread, Waiting>, who: Thread, w: Waiting, getter: bool)
    requires w.asleep
    ensures Asleep(ts[who := w], getter)
         == if w.role.Getter? == getter then Asleep(ts, getter) + {who} else Asleep(ts, getter) - {who}
    ensures Woken(ts[who := w], getter) == Woken(ts, getter) - {who}
  {
  }

  /** A waiting thread that is woken, or no thread of that side, takes one unit of supply. */
  lemma TakeBalances(supply: int, ts: map<Thread, Waiting>, who: Thread, getter: bool)
    requires Balanced(supply, ts, getter) && who !in Asleep(ts, getter)
    ensures Balanced(supply - 1, ts - {who}, getter)
  {
    LeaveMoves(ts, who, getter);
    if who in Woken(ts, getter) {
      assert |Woken(ts, getter) - {who}| == |Woken(ts, getter)| - 1;
    } else {
      assert Woken(ts, getter) - {who} == Woken(ts, getter);
    }
  }

  /** A thread of the other side does not matter to this one. */
  lemma OtherSideLeaves(ts: map<Thread, Waiting>, who: Thread, getter: bool)
    requires who in ts ==> ts[who].role.Getter? != getter
    ensures Asleep(ts - {who}, getter) == Asleep(ts, getter) && Woken(ts - {who}, getter) == Woken(ts, getter)
  {
  }

  /** A pass that goes to sleep: there is nothing to take and no end of stream. */
  lemma SleepKeeps(s: Sys, who: Thread, w: Waiting, getter: bool)
    requires Inv(s) && w.asleep && w.role.Getter? == getter && Supply(s, getter) <= 0 && !s.eos
    requires who in s.waiting ==> s.waiting[who].role.Getter? == getter
    ensures Inv(s.(waiting := s.waiting[who := w]))
  {
    SleepMoves(s.waiting, who, w, getter);
    SleepMoves(s.waiting, who, w, !getter);
    assert Asleep(s.waiting, !getter) - {who} == Asleep(s.waiting, !getter);
    assert Woken(s.waiting, !getter) - {who} == Woken(s.waiting, !getter);
  }

  /** Thread `who` takes one unit of its side's supply, hands one to the other side, and signals it. */
  lemma ServeKeepsSides(s: Sys, s': Sys, who: Thread, getter: bool, wake: Thread)
    requires SideInv(s, true) && SideInv(s, false) && !s.eos && !s'.eos
    requires who in s.waiting ==> IsWoken(s.waiting[who], getter)
    requires MaySignal(s.waiting - {who}, !getter, wake)
    requires s'.waiting == Signal(s.waiting - {who}, !getter, wake)
    requires s'.setters == s.setters && s'.flushers == s.flushers
    requires Supply(s', getter) == Supply(s, getter) - 1 && Supply(s', !getter) == Supply(s, !getter) + 1
    ensures SideInv(s', getter) && SideInv(s', !getter)
  {
    OtherSideLeaves(s.waiting, who, !getter);
    SignalMoves(s.waiting - {who}, !getter, wake);
    assert BroadcastDue(s', getter) == BroadcastDue(s, getter) && BroadcastDue(s', !getter) == BroadcastDue(s, !getter);
    if !BroadcastDue(s, getter) {
      TakeBalances(Supply(s, getter), s.waiting, who, getter);
    }
  }

  lemma PutKeeps(s: Sys, who: Thread, t: Item, p: Patience, wake: Thread)
    requires Inv(s) && Enabled(s, Put(who, t, p, wake))
    ensures Inv(Do(s, Put(who, t, p, wake)))
  {
    match PutLook(Full(s), s.eos, p)
    case Sleeps => SleepKeeps(s, who, Waiting(Putter(t), p, true), false);
    case Refused => RefusedKeeps(s, who, false);
    case Proceeds => ServeKeepsSides(s, Do(s, Put(who, t, p, wake)), who, false, wake);
  }

  /** A refused pass: the queue stands against it, or end of stream. */
  lemma RefusedKeeps(s: Sys, who: Thread, getter: bool)
    requires Inv(s) && who !in Asleep(s.waiting, getter) && (who in s.waiting ==> s.waiting[who].role.Getter? == getter)
    requires s.eos || Supply(s, getter) <= 0
    ensures Inv(s.(waiting := s.waiting - {who}))
  {
    OtherSideLeaves(s.waiting, who, !getter);
    LeaveMoves(s.waiting, who, getter);
    assert Asleep(s.waiting, getter) - {who} == Asleep(s.waiting, getter);
  }

  lemma ItemsSnoc(gone: seq<Gone>, g: Gone)
    ensures Items(gone + [g]) == Items(gone) + [g.item]
  {
  }

  lemma GetKeeps(s: Sys, who: Thread, p: Patience, wake: Thread)
    requires Inv(s) && Enabled(s, Get(who, p, wake))
    ensures Inv(Do(s, Get(who, p, wake)))
  {
    match GetLook(s.queue == [], s.eos, p)
    case Sleeps => SleepKeeps(s, who, Waiting(Getter, p, true), true);
    case Refused => RefusedKeeps(s, who, true);
    case Proceeds =>
      ServeKeepsSides(s, Do(s, Get(who, p, wake)), who, true, wake);
      ItemsSnoc(s.gone, Gone(s.queue[0], Delivered(who)));
      assert s.queue == [s.queue[0]] + s.queue[1..];
  }

  lemma PutForceKeepsQueue(s: Sys, s': Sys, t: Item, wake: Thread)
    requires Inv(s) && Enabled(s, PutForce(t, wake)) && !s.eos && s' == Do(s, PutForce(t, wake))
    ensures |s'.queue| <= s'.capacity && s'.accepted == Items(s'.gone) + s'.queue
    ensures s' == s.(queue := s'.queue, gone := s'.gone, accepted := s'.accepted,
                     waiting := Signal(s.waiting, true, wake))
    ensures |s.queue| <= |s'.queue| <= |s.queue| + 1
  {
    if Full(s) {
      ItemsSnoc(s.gone, Gone(s.queue[0], Displaced));
      assert s.queue == [s.queue[0]] + s.queue[1..];
    }
  }

  lemma PutForceKeeps(s: Sys, t: Item, wake: Thread)
    requires Inv(s) && Enabled(s, PutForce(t, wake))
    ensures Inv(Do(s, PutForce(t, wake)))
  {
    if !s.eos {
      SignalMoves(s.waiting, true, wake);
      PutForceKeepsQueue(s, Do(s, PutForce(t, wake)), t, wake);
    }
  }

  lemma FlushKeeps(s: Sys, a: Act)
    requires Inv(s) && Enabled(s, a) && (a.FlushPass? || a.FlushBroadcast?)
    ensures Inv(Do(s, a))
  {
    if a.FlushBroadcast? {
      BroadcastMoves(s.waiting, false);
    } else {
      assert a.who in Do(s, a).flushers;
      if s.queue != [] {
        ItemsSnoc(s.gone, Gone(s.queue[0], Flushed));
        assert s.queue == [s.queue[0]] + s.queue[1..];
      }
    }
  }

  lemma SetEOSKeeps(s: Sys, a: Act)
    requires Inv(s) && Enabled(s, a) && (a.SetEOS? || a.SetEOSBroadcast?)
    ensures Inv(Do(s, a))
  {
    var s' := Do(s, a);
    if a.SetEOS? {
      assert a.who in s'.setters && s'.setters[a.who] == OwesFull;
    } else if s.setters[a.who] == OwesFull {
      BroadcastMoves(s.waiting, false);
      assert a.who in s'.setters;
    } else {
      BroadcastMoves(s.waiting, true);
      forall t | t in s.setters && s.setters[t] == OwesFull ensures t in s'.setters && s'.setters[t] == OwesFull {
      }
    }
  }

  lemma WakeKeeps(s: Sys, a: Act)
    requires Inv(s) && Enabled(s, a) && (a.Spurious? || a.TimeOut?)
    ensures Inv(Do(s, a))
  {
    var g := s.waiting[a.who].role.Getter?;
    LeaveMoves(s.waiting, a.who, g);
    OtherSideLeaves(s.waiting, a.who, !g);
    if a.Spurious? {
      SignalMoves(s.waiting, g, a.who);
    } else {
      assert Woken(s.waiting, g) - {a.who} == Woken(s.waiting, g);
    }
  }

  lemma StepKeepsInv(s: Sys, a: Act)
    requires Inv(s) && Enabled(s, a)
    ensures Inv(Do(s, a))
  {
    match a
    case Put(who, t, p, wake) => PutKeeps(s, who, t, p, wake);
    case Get(who, p, wake) => GetKeeps(s, who, p, wake);
    case PutForce(t, wake) => PutForceKeeps(s, t, wake);
    case FlushPass(_) => FlushKeeps(s, a);
    case FlushBroadcast(_) => FlushKeeps(s, a);
    case SetEOS(_, _) => SetEOSKeeps(s, a);
    case SetEOSBroadcast(_) => SetEOSKeeps(s, a);
    case Spurious(_) => WakeKeeps(s, a);
    case TimeOut(_) => WakeKeeps(s, a);
  }

  // ---------------------------------------------------------------- what holds in every run

  lemma {:induction false} InvInRun(run: seq<Sys>, acts: seq<Act>, capacity: nat, i: nat)
    requires IsRun(run, acts, capacity) && i < |run|
    ensures Inv(run[i]) && run[i].capacity == capacity
  {
    if i > 0 {
      InvInRun(run, acts, capacity, i - 1);
      StepKeepsInv(run[i - 1], acts[i - 1]);
      CapacityStays(run[i - 1], acts[i - 1]);
    }
  }

  lemma CapacityStays(s: Sys, a: Act)
    requires Enabled(s, a)
    ensures Do(s, a).capacity == s.capacity
  {
  }

  /** Every accepted item has been delivered, displaced or flushed, or is queued: first in, first out, once. */
  lemma FirstInFirstOut(run: seq<Sys>, acts: seq<Act>, capacity: nat, i: nat)
    requires IsRun(run, acts, capacity) && i < |run|
    ensures run[i].accepted == Items(run[i].gone) + run[i].queue
    ensures |run[i].queue| <= capacity
  {
    InvInRun(run, acts, capacity, i);
  }

  /** With no setEOS broadcast under way: while a getter sleeps there are no more items than woken getters on
    * their way to take them. So an item never waits for a sleeping getter alone. */
  lemma NoLostGetter(run: seq<Sys>, acts: seq<Act>, capacity: nat, i: nat)
    requires IsRun(run, acts, capacity) && i < |run| && run[i].setters == map[]
    requires Asleep(run[i].waiting, true) != {}
    ensures |run[i].queue| <= |Woken(run[i].waiting, true)| && !run[i].eos
  {
    InvInRun(run, acts, capacity, i);
  }

  /** With no setEOS or flush broadcast under way: while a putter sleeps there are no more free slots than woken
    * putters. */
  lemma NoLostPutter(run: seq<Sys>, acts: seq<Act>, capacity: nat, i: nat)
    requires IsRun(run, acts, capacity) && i < |run| && run[i].setters == map[] && run[i].flushers == map[]
    requires Asleep(run[i].waiting, false) != {}
    ensures capacity - |run[i].queue| <= |Woken(run[i].waiting, false)| && !run[i].eos
  {
    InvInRun(run, acts, capacity, i);
  }

  /** Once the setEOS(true) call in effect has made both broadcasts, nobody sleeps until the next setEOS. */
  lemma NobodySleepsAfterEOS(run: seq<Sys>, acts: seq<Act>, capacity: nat, i: nat)
    requires IsRun(run, acts, capacity) && i < |run| && run[i].eos && run[i].lastSetter !in run[i].setters
    ensures forall t :: t in run[i].waiting ==> !run[i].waiting[t].asleep
  {
    InvInRun(run, acts, capacity, i);
    var ts := run[i].waiting;
    forall t | t in ts ensures !ts[t].asleep {
      assert t !in Asleep(ts, true) && t !in Asleep(ts, false);
    }
  }
}

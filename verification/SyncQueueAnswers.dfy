/** What each call on the SyncQueue does to its caller and to the queue, in terms of the queue alone. */
module SyncQueueAnswers {
  import opened SyncQueueProtocol

  predicate Sleeping(s: Sys, who: Thread) {
    who in s.waiting && s.waiting[who].asleep
  }

  /** put under the lock: it sleeps on a full queue unless the timeout is 0, is refused by end of stream or by a full
    * queue with timeout 0, and appends otherwise. */
  lemma PutAnswers(run: seq<Sys>, acts: seq<Act>, capacity: nat, i: nat)
    requires IsRun(run, acts, capacity) && i < |acts| && acts[i].Put?
    ensures var s, s', a := run[i], run[i + 1], acts[i];
            && (Sleeping(s', a.who) <==> |s.queue| == capacity && !s.eos && a.p != Never)
            && (a.who !in s'.waiting && s'.queue == s.queue && s'.accepted == s.accepted <==>
                  s.eos || (|s.queue| == capacity && a.p == Never))
            && (a.who !in s'.waiting && s'.queue == s.queue + [a.t] && s'.accepted == s.accepted + [a.t] <==>
                  |s.queue| < capacity && !s.eos)
            && s'.gone == s.gone && s'.eos == s.eos
    ensures Sleeping(run[i + 1], acts[i].who) ==>
              run[i + 1].waiting[acts[i].who] == Waiting(Putter(acts[i].t), acts[i].p, true)
              && run[i + 1].queue == run[i].queue && run[i + 1].accepted == run[i].accepted
  {
    InvInRun(run, acts, capacity, i);
  }

  /** The oldest item has gone to `who`. */
  predicate Served(s: Sys, s': Sys, who: Thread) {
    && who !in s'.waiting && s.queue != [] && s'.queue == s.queue[1..]
    && s'.gone == s.gone + [Gone(s.queue[0], Delivered(who))]
  }

  /** get under the lock: it sleeps on an empty queue unless the timeout is 0, is refused by end of stream, items or
    * not, or by an empty queue with timeout 0, and takes the oldest item otherwise. */
  lemma GetAnswers(run: seq<Sys>, acts: seq<Act>, capacity: nat, i: nat)
    requires IsRun(run, acts, capacity) && i < |acts| && acts[i].Get?
    ensures var s, s', a := run[i], run[i + 1], acts[i];
            && (Sleeping(s', a.who) <==> s.queue == [] && !s.eos && a.p != Never)
            && (a.who !in s'.waiting && s'.queue == s.queue && s'.gone == s.gone <==>
                  s.eos || (s.queue == [] && a.p == Never))
            && (Served(s, s', a.who) <==> s.queue != [] && !s.eos)
            && s'.accepted == s.accepted && s'.eos == s.eos
    ensures Sleeping(run[i + 1], acts[i].who) ==>
              run[i + 1].waiting[acts[i].who] == Waiting(Getter, acts[i].p, true)
              && run[i + 1].queue == run[i].queue && run[i + 1].gone == run[i].gone
  {
    InvInRun(run, acts, capacity, i);
  }

  /** A delivery wakes one sleeper of the other side, if there is one, and nobody else; a pass that is refused or
    * goes to sleep wakes nobody. */
  lemma PassWakes(run: seq<Sys>, acts: seq<Act>, capacity: nat, i: nat, getter: bool)
    requires IsRun(run, acts, capacity) && i < |acts|
    requires if getter then acts[i].Put? || acts[i].PutForce? else acts[i].Get?
    ensures var sleepers, left := Asleep(run[i].waiting, getter), Asleep(run[i + 1].waiting, getter);
            if (if getter then run[i + 1].accepted == run[i].accepted else run[i + 1].gone == run[i].gone)
               || sleepers == {} then left == sleepers
            else exists t :: t in sleepers && left == sleepers - {t}
  {
    var a, ts := acts[i], run[i].waiting;
    InvInRun(run, acts, capacity, i);
    if !a.PutForce? {
      OtherSideLeaves(ts, a.who, getter);
      if a.Put? && PutLook(Full(run[i]), run[i].eos, a.p).Sleeps? {
        SleepMoves(ts, a.who, Waiting(Putter(a.t), a.p, true), getter);
      } else if a.Get? && GetLook(run[i].queue == [], run[i].eos, a.p).Sleeps? {
        SleepMoves(ts, a.who, Waiting(Getter, a.p, true), getter);
      }
    }
    SignalMoves(if a.PutForce? then ts else ts - {a.who}, getter, a.wake);
  }

  /** putForce is refused by end of stream alone, and displaces the oldest item exactly when the queue is full. */
  lemma PutForceAnswers(run: seq<Sys>, acts: seq<Act>, capacity: nat, i: nat)
    requires IsRun(run, acts, capacity) && i < |acts| && acts[i].PutForce?
    ensures var s, s', t := run[i], run[i + 1], acts[i].t;
            if s.eos then s' == s
            else
              && s'.accepted == s.accepted + [t]
              && (if |s.queue| == capacity then
                    s.queue != [] && s'.queue == s.queue[1..] + [t]
                    && s'.gone == s.gone + [Gone(s.queue[0], Displaced)]
                  else s'.queue == s.queue + [t] && s'.gone == s.gone)
  {
    InvInRun(run, acts, capacity, i);
  }

  /** flush drops the oldest item while there is one, and only then goes on to its broadcast, which wakes every
    * putter and no getter. */
  lemma FlushAnswers(run: seq<Sys>, acts: seq<Act>, capacity: nat, i: nat)
    requires IsRun(run, acts, capacity) && i < |acts|
    ensures acts[i].FlushPass? ==>
              var s, s' := run[i], run[i + 1];
              && acts[i].who in s'.flushers && (s'.flushers[acts[i].who] <==> s.queue == [])
              && s'.waiting == s.waiting
              && (if s.queue == [] then s'.queue == [] && s'.gone == s.gone
                  else s'.queue == s.queue[1..] && s'.gone == s.gone + [Gone(s.queue[0], Flushed)])
    ensures acts[i].FlushBroadcast? ==>
              && acts[i].who !in run[i + 1].flushers && run[i + 1].queue == run[i].queue
              && Asleep(run[i + 1].waiting, false) == {}
              && Asleep(run[i + 1].waiting, true) == Asleep(run[i].waiting, true)
  {
    if acts[i].FlushBroadcast? {
      BroadcastMoves(run[i].waiting, false);
    }
  }

  /** setEOS stores its argument, and then wakes all putters and all getters. */
  lemma SetEOSAnswers(run: seq<Sys>, acts: seq<Act>, capacity: nat, i: nat)
    requires IsRun(run, acts, capacity) && i < |acts|
    ensures acts[i].SetEOS? ==> run[i + 1].eos == acts[i].eos && run[i + 1].queue == run[i].queue
    ensures !acts[i].SetEOS? ==> run[i + 1].eos == run[i].eos
    ensures acts[i].SetEOSBroadcast? ==>
              && (run[i].setters[acts[i].who] == OwesFull ==> Asleep(run[i + 1].waiting, false) == {})
              && (run[i].setters[acts[i].who] == OwesEmpty ==>
                    Asleep(run[i + 1].waiting, true) == {} && acts[i].who !in run[i + 1].setters)
  {
    if acts[i].SetEOSBroadcast? {
      BroadcastMoves(run[i].waiting, run[i].setters[acts[i].who] == OwesEmpty);
    }
  }

  predicate SleepersWait(s: Sys) {
    forall t :: t in s.waiting ==> s.waiting[t].patience != Never
  }

  lemma StepKeepsSleepersWait(s: Sys, a: Act)
    requires Enabled(s, a) && SleepersWait(s)
    ensures SleepersWait(Do(s, a))
  {
  }

  /** A call with timeout 0 never waits, and one without a timeout never times out. */
  lemma {:induction false} TimeoutsAreKept(run: seq<Sys>, acts: seq<Act>, capacity: nat, i: nat)
    requires IsRun(run, acts, capacity) && i < |run|
    ensures forall t :: t in run[i].waiting ==> run[i].waiting[t].patience != Never
    ensures i < |acts| && acts[i].TimeOut? ==> run[i].waiting[acts[i].who].patience == ForAWhile
  {
    if i > 0 {
      TimeoutsAreKept(run, acts, capacity, i - 1);
      StepKeepsSleepersWait(run[i - 1], acts[i - 1]);
    }
  }

  /** Exactly a sleeper with a positive timeout may time out, and then leaves without an item; one that wakes for no
    * reason stays in its call, awake. */
  lemma WakeUpAnswers(run: seq<Sys>, acts: seq<Act>, capacity: nat, i: nat, who: Thread)
    requires IsRun(run, acts, capacity) && i < |run|
    ensures Enabled(run[i], TimeOut(who)) <==> Sleeping(run[i], who) && run[i].waiting[who].patience == ForAWhile
    ensures Enabled(run[i], Spurious(who)) <==> Sleeping(run[i], who)
    ensures i < |acts| && acts[i] == TimeOut(who) ==> run[i + 1] == run[i].(waiting := run[i].waiting - {who})
    ensures i < |acts| && acts[i] == Spurious(who) ==>
              run[i + 1] == run[i].(waiting := run[i].waiting[who := run[i].waiting[who].(asleep := false)])
  {
  }

  lemma SomeoneToSignal(ts: map<Thread, Waiting>, getter: bool) returns (wake: Thread)
    ensures MaySignal(ts, getter, wake)
  {
    wake := 0;
    if Asleep(ts, getter) != {} {
      wake :| wake in Asleep(ts, getter);
    }
  }

  /** A thread outside the queue's calls can begin one, and one that was woken can take its next pass, whatever state
    * the queue is in. */
  lemma PassIsPossible(s: Sys, who: Thread, t: Item, p: Patience)
    ensures who !in s.waiting || s.waiting[who] == Waiting(Putter(t), p, false) ==>
              exists wake :: Enabled(s, Put(who, t, p, wake))
    ensures who !in s.waiting || s.waiting[who] == Waiting(Getter, p, false) ==>
              exists wake :: Enabled(s, Get(who, p, wake))
    ensures exists wake :: Enabled(s, PutForce(t, wake))
  {
    var g := SomeoneToSignal(s.waiting - {who}, true);
    var f := SomeoneToSignal(s.waiting - {who}, false);
    var h := SomeoneToSignal(s.waiting, true);
    assert MaySignal(s.waiting - {who}, true, g) && MaySignal(s.waiting - {who}, false, f);
    assert Enabled(s, PutForce(t, h));
    if who !in s.waiting || s.waiting[who] == Waiting(Putter(t), p, false) {
      assert Enabled(s, Put(who, t, p, g));
    }
    if who !in s.waiting || s.waiting[who] == Waiting(Getter, p, false) {
      assert Enabled(s, Get(who, p, f));
    }
  }
}

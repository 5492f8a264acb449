/** WorkerThread's data under mStateLock: what each critical section does to it, as functions on values, and
  * the class whose methods do it in place. */
module WorkerState {

  type ThreadId = nat
  type Worker = nat          // a pointer to an IWorker; 0 is the null pointer

  const NO_WORKER: Worker := 0
  const NO_THREAD: ThreadId := 0   // pthread_t{}

  datatype ThreadState = Idle | Starting | Running | Stopping | Exited

  datatype Shared = Shared(
    state: ThreadState, worker: Worker, id: ThreadId,
    stopRequested: bool, threadReady: bool, startReleased: bool, wakeupRequested: bool,
    callbacks: nat)

  const RESET := Shared(Idle, NO_WORKER, NO_THREAD, false, false, false, false, 0)

  /** `start`: the section that claims an idle object; false if it is not idle. */
  function Claim(d: Shared, w: Worker): (Shared, bool) {
    if d.state != Idle then (d, false)
    else (Shared(Starting, w, NO_THREAD, false, false, false, false, 0), true)
  }

  /** `start`: the section after the wait for mThreadReady; true if onStopRequested is owed. */
  function Release(d: Shared): (Shared, bool) {
    if d.stopRequested then
      (d.(state := Stopping, startReleased := true, wakeupRequested := true,
          callbacks := d.callbacks + if d.worker != NO_WORKER then 1 else 0),
       d.worker != NO_WORKER)
    else (d.(state := Running, startReleased := true), false)
  }

  /** `requestStop`: its first section; true if onStopRequested is owed. */
  function Request(d: Shared): (Shared, bool) {
    if d.state == Idle || d.state == Exited then (d, false)
    else
      var d' := d.(stopRequested := true, wakeupRequested := true);
      if d.state == Running then
        (d'.(state := Stopping, callbacks := d.callbacks + if d.worker != NO_WORKER then 1 else 0),
         d.worker != NO_WORKER)
      else (d', false)
  }

  /** The section after an onStopRequested call. */
  function CallbackDone(d: Shared): Shared {
    d.(callbacks := if d.callbacks > 0 then d.callbacks - 1 else 0)
  }

  /** A stop request racing with the end of start comes to the same either way: the same data, and exactly one call
    * of onStopRequested owed, by start if the request was first and by the requester if the release was. */
  lemma StopAndReleaseCommute(d: Shared)
    requires d.state == Starting && !d.stopRequested && d.worker != NO_WORKER
    ensures Release(Request(d).0).0 == Request(Release(d).0).0
    ensures !Request(d).1 && Release(Request(d).0).1 && !Release(d).1 && Request(Release(d).0).1
    ensures Request(Release(d).0).0.callbacks == d.callbacks + 1
  {
  }

  /** Repeating a request changes nothing and owes nothing more; finishing the owed callback restores the counter. */
  lemma RequestTwice(d: Shared)
    ensures Request(Request(d).0) == (Request(d).0, false)
    ensures Request(d).1 ==> CallbackDone(Request(d).0) == Request(d).0.(callbacks := d.callbacks)
  {
  }

  /** `isCurrentThread`. */
  predicate IsCurrentThread(d: Shared, self: ThreadId) {
    (d.state == Running || d.state == Stopping) && self == d.id
  }

  /** The predicate `msleep` waits for. */
  predicate SleepOver(d: Shared) {
    d.state != Running || d.wakeupRequested
  }

  class WorkerThread {
    var mState: ThreadState
    var mWorker: Worker
    var mId: ThreadId
    var mStopRequested: bool
    var mThreadReady: bool
    var mStartReleased: bool
    var mWakeupRequested: bool
    var mCallbacksInProgress: nat

    ghost function View(): Shared
      reads this
    {
      Shared(mState, mWorker, mId, mStopRequested, mThreadReady, mStartReleased, mWakeupRequested,
             mCallbacksInProgress)
    }

    constructor ()
      ensures View() == RESET
    {
      mState := Idle;
      mWorker := NO_WORKER;
      mId := NO_THREAD;
      mStopRequested, mThreadReady, mStartReleased, mWakeupRequested := false, false, false, false;
      mCallbacksInProgress := 0;
    }

    method ResetStateLocked()
      modifies this
      ensures View() == RESET
    {
      mWorker := NO_WORKER;
      mId := NO_THREAD;
      mStopRequested := false;
      mThreadReady := false;
      mStartReleased := false;
      mWakeupRequested := false;
      mCallbacksInProgress := 0;
      mState := Idle;
    }

    method ClaimForStart(worker: Worker) returns (ok: bool)
      modifies this
      ensures (View(), ok) == Claim(old(View()), worker)
      ensures ok <==> old(mState) == Idle
      ensures ok ==> mState == Starting && mWorker == worker && mId == NO_THREAD && !mStopRequested && !mThreadReady
                     && !mStartReleased && !mWakeupRequested && mCallbacksInProgress == 0
      ensures !ok ==> View() == old(View())
    {
      if mState != Idle {
        return false;
      }
      mWorker := worker;
      mId := NO_THREAD;
      mStopRequested := false;
      mThreadReady := false;
      mStartReleased := false;
      mWakeupRequested := false;
      mCallbacksInProgress := 0;
      mState := Starting;
      ok := true;
    }

    method ReleaseThread() returns (stopCallbackWorker: Worker)
      modifies this
      ensures View() == Release(old(View())).0
      ensures stopCallbackWorker == if Release(old(View())).1 then old(mWorker) else NO_WORKER
      ensures mStartReleased && (mState == Running || mState == Stopping) && (mState == Running <==> !mStopRequested)
      ensures mStopRequested == old(mStopRequested) && mWakeupRequested == (mStopRequested || old(mWakeupRequested))
      ensures stopCallbackWorker != NO_WORKER <==> mState == Stopping && mWorker != NO_WORKER
      ensures mCallbacksInProgress == old(mCallbacksInProgress) + if stopCallbackWorker != NO_WORKER then 1 else 0
    {
      stopCallbackWorker := NO_WORKER;
      if mStopRequested {
        mState := Stopping;
        stopCallbackWorker := mWorker;
        if stopCallbackWorker != NO_WORKER {
          mCallbacksInProgress := mCallbacksInProgress + 1;
        }
        mStartReleased := true;
        mWakeupRequested := true;
      } else {
        mState := Running;
        mStartReleased := true;
      }
    }

    method RequestStopSection() returns (workerToNotify: Worker)
      modifies this
      ensures View() == Request(old(View())).0
      ensures workerToNotify == if Request(old(View())).1 then old(mWorker) else NO_WORKER
      ensures mState != Running && (old(mState) in {Idle, Exited} ==> View() == old(View()))
      ensures old(mState) !in {Idle, Exited} ==>
                mStopRequested && mWakeupRequested && mState == if old(mState) == Running then Stopping else old(mState)
      ensures workerToNotify != NO_WORKER <==> old(mState) == Running && mWorker != NO_WORKER
      ensures mCallbacksInProgress == old(mCallbacksInProgress) + if workerToNotify != NO_WORKER then 1 else 0
    {
      workerToNotify := NO_WORKER;
      if mState == Idle || mState == Exited {
        return;
      }
      mStopRequested := true;
      mWakeupRequested := true;
      if mState == Running {
        mState := Stopping;
        workerToNotify := mWorker;
        if workerToNotify != NO_WORKER {
          mCallbacksInProgress := mCallbacksInProgress + 1;
        }
      }
    }

    method CallbackFinished()
      modifies this
      ensures View() == CallbackDone(old(View()))
      ensures old(mCallbacksInProgress) > 0 ==> mCallbacksInProgress == old(mCallbacksInProgress) - 1
    {
      if mCallbacksInProgress > 0 {
        mCallbacksInProgress := mCallbacksInProgress - 1;
      }
    }
  }
}

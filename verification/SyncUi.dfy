/** The rendezvous between the thread that calls the xApp's interface and the event loop that
    handles the answer: two flags, a mutex and a condition variable. */
module SyncUi {

  datatype Rc = Ok | TimedOut | Failed

  /** One return of the timed wait: whether the event loop signalled while the mutex was free,
      what the wait returned, and when.  A wait may return without any signal. */
  datatype Wakeup = Wakeup(signalled: bool, rc: Rc, at: int)

  datatype Outcome = Returned(wakeup: nat) | Aborted(wakeup: nat) | StillWaiting

  // -------------------------------------------------------------------------- the deadline

  datatype Timespec = Timespec(sec: int, nsec: nat)

  function Millis(t: Timespec): real { t.sec as real * 1000.0 + t.nsec as real / 1000000.0 }

  /** Seconds only: the milliseconds are cut to whole seconds and one second is added. */
  function Deadline(now: Timespec, waitMs: nat): (t: Timespec) {
    now.(sec := now.sec + waitMs / 1000 + 1)
  }

  /** The deadline lies more than `waitMs` and at most `waitMs + 1000` milliseconds ahead, a whole
      number of seconds. */
  lemma DeadlineBounds(now: Timespec, waitMs: nat)
    ensures var ahead := Millis(Deadline(now, waitMs)) - Millis(now);
            waitMs as real < ahead <= (waitMs + 1000) as real && Deadline(now, waitMs).nsec == now.nsec
  {
    var q := waitMs / 1000;
    assert Millis(Deadline(now, waitMs)) - Millis(now) == (q + 1) as real * 1000.0;
    assert 1000 * q <= waitMs < 1000 * q + 1000;
    assert (q + 1) as real * 1000.0 == (1000 * (q + 1)) as real;
  }

  // ------------------------------------------------------------------------------ the wait

  /** What the wait loop does with the wakeups from number `i` on.  The flags were reset on
      entry, so the first wakeup that is signalled or not Ok decides. */
  function Waits(ws: seq<Wakeup>, i: nat): (o: Outcome)
    requires i <= |ws|
    decreases |ws| - i
  {
    if i == |ws| then StillWaiting
    else if ws[i].rc != Ok then Aborted(i)
    else if ws[i].signalled then Returned(i)
    else Waits(ws, i + 1)
  }

  predicate Spurious(w: Wakeup) { !w.signalled && w.rc == Ok }

  /** The call returns normally exactly at the first wakeup that is not spurious, when that one
      was signalled and in time: so only after a signal that follows its own reset. */
  lemma {:induction false} ReturnsExactlyWhenSignalled(ws: seq<Wakeup>, i: nat, k: nat)
    requires i <= |ws|
    ensures Waits(ws, i) == Returned(k) <==>
            i <= k < |ws| && (forall j | i <= j < k :: Spurious(ws[j])) && ws[k].signalled && ws[k].rc == Ok
    decreases |ws| - i
  {
    if i < |ws| {
      ReturnsExactlyWhenSignalled(ws, i + 1, k);
    }
  }

  /** The call aborts exactly at the first wakeup that is not spurious, when the wait failed
      there or timed out, even if the signal had arrived. */
  lemma {:induction false} AbortsExactlyWhenFailed(ws: seq<Wakeup>, i: nat, k: nat)
    requires i <= |ws|
    ensures Waits(ws, i) == Aborted(k) <==>
            i <= k < |ws| && (forall j | i <= j < k :: Spurious(ws[j])) && ws[k].rc != Ok
    decreases |ws| - i
  {
    if i < |ws| {
      AbortsExactlyWhenFailed(ws, i + 1, k);
    }
  }

  /** A call that nobody signals never returns normally: it aborts at the first wakeup that is
      not Ok, and that there is one its deadline sees to. */
  lemma {:induction false} UnsignalledNeverReturns(ws: seq<Wakeup>, i: nat)
    requires i <= |ws| && forall j | i <= j < |ws| :: !ws[j].signalled
    ensures !Waits(ws, i).Returned?
    ensures Waits(ws, i).Aborted? <==> exists j :: i <= j < |ws| && ws[j].rc != Ok
    decreases |ws| - i
  {
    if i < |ws| {
      UnsignalledNeverReturns(ws, i + 1);
    }
  }

  /** A timed wait reports a timeout only once its deadline has passed. */
  ghost predicate Punctual(ws: seq<Wakeup>, deadline: int) {
    forall j | 0 <= j < |ws| :: ws[j].rc == TimedOut ==> ws[j].at >= deadline
  }

  /** A timer that the event loop armed for `waitMs` before the caller parked expires before the
      wait can time out: the event loop hears of a missing answer first. */
  lemma TimerExpiresFirst(ws: seq<Wakeup>, armed: int, parked: int, waitMs: nat, k: nat)
    requires armed <= parked && Punctual(ws, parked + 1000 * (waitMs / 1000 + 1))
    requires k < |ws| && Waits(ws, 0) == Aborted(k) && ws[k].rc == TimedOut
    ensures armed + waitMs < ws[k].at
  {
  }

  class SyncUi {
    var flagSync: bool
    var msgAck: bool

    constructor ()
      ensures !flagSync && !msgAck
    {
      flagSync, msgAck := false, false;
    }

    method Signal()
      modifies this
      ensures flagSync && msgAck
    {
      flagSync := true;
      msgAck := true;
    }

    /** Its outcome depends on the wakeups alone: a signal sent before the call is forgotten.
        A zero wait aborts at once. */
    method CondWait(waitMs: nat, ws: seq<Wakeup>) returns (ok: bool, out: Outcome)
      modifies this
      ensures ok <==> waitMs > 0
      ensures ok ==> out == Waits(ws, 0)
      ensures ok && out.Returned? ==> flagSync && msgAck
    {
      ok, out := waitMs > 0, StillWaiting;
      if !ok {
        return;
      }
      flagSync := false;
      msgAck := false;
      var rc, i := Ok, 0;
      while !flagSync && rc == Ok && i < |ws|
        invariant i <= |ws|
        invariant flagSync == msgAck
        invariant !flagSync && rc == Ok ==> Waits(ws, 0) == Waits(ws, i)
        invariant flagSync && rc == Ok ==> i > 0 && Waits(ws, 0) == Returned(i - 1)
        invariant rc != Ok ==> i > 0 && Waits(ws, 0) == Aborted(i - 1)
      {
        if ws[i].signalled {
          Signal();
        }
        rc := ws[i].rc;
        i := i + 1;
      }
      if rc != Ok {
        out := Aborted(i - 1);
      } else if flagSync {
        assert msgAck;
        out := Returned(i - 1);
      }
    }
  }
}

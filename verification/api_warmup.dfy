/**
 * The warm-up monitor (frontend/src/hooks/useApiWarmup.js): one run of the
 * effect pings the backend; if that fails it appends a hidden iframe loading
 * the backend, and a timer later pings again and removes the iframe. Ping
 * settlements and the timer firing are events delivered by the environment.
 *
 * `wakeUp` is an `async` function, so the effect returns the Promise it
 * yields rather than the `clearTimeout` closure inside it: React's teardown
 * has nothing to call, and the pending retry is not cancelled.
 */
module ApiWarmup {
  import opened Wrappers

  const DefaultRetryDelayMs := 10000

  /** Where the run stands. */
  datatype Phase =
    | Inactive         // empty base URL: the effect returned at once
    | AwaitingFirst    // first ping in flight
    | RetryPending     // first ping failed: iframe attached, timer set
    | AwaitingSecond   // timer fired: second ping in flight
    | Done             // nothing left to happen

  /** An iframe the run appended to `document.body`. */
  datatype Frame = Frame(src: string, hidden: bool)

  class WarmupRun {
    const baseUrl: string
    const retryDelayMs: int
    var phase: Phase
    var pings: nat
    var frames: seq<Frame>      // this run's iframes currently in document.body
    var timer: Option<int>      // the pending setTimeout, by its delay
    var tornDown: bool          // React has run the effect's teardown
    var unhandledRejection: bool  // the timer callback's promise rejected (try/finally has no catch)

    ghost predicate Valid()
      reads this
    {
      pings <= 2 && |frames| <= 1
      && (forall i :: 0 <= i < |frames| ==> frames[i] == Frame(baseUrl, true))
      && (frames != [] <==> phase == RetryPending || phase == AwaitingSecond)
      && (timer.Some? <==> phase == RetryPending)
      && (timer.Some? ==> timer.value == retryDelayMs)
      && (phase == Inactive <==> pings == 0)
      && (phase == AwaitingFirst || phase == RetryPending ==> pings == 1)
      && (phase == AwaitingSecond ==> pings == 2)
      && (unhandledRejection ==> phase == Done && pings == 2)
    }

    /**
     * The effect's body up to wakeUp's first `await`: nothing at all for an
     * empty base URL, otherwise the first ping.
     */
    constructor (baseUrl: string, retryDelayMs: Option<int>)
      ensures Valid() && this.baseUrl == baseUrl && !tornDown && !unhandledRejection
      ensures this.retryDelayMs == if retryDelayMs.Some? then retryDelayMs.value else DefaultRetryDelayMs
      ensures frames == [] && timer == None
      ensures baseUrl == "" ==> phase == Inactive && pings == 0
      ensures baseUrl != "" ==> phase == AwaitingFirst && pings == 1
    {
      this.baseUrl := baseUrl;
      this.retryDelayMs := if retryDelayMs.Some? then retryDelayMs.value else DefaultRetryDelayMs;
      frames := [];
      timer := None;
      tornDown := false;
      unhandledRejection := false;
      if baseUrl == "" {
        phase := Inactive;
        pings := 0;
      } else {
        phase := AwaitingFirst;
        pings := 1;
      }
    }

    /**
     * The first ping settles. Success means the backend is awake and the run
     * is over; failure appends one hidden iframe at the base URL and sets the
     * retry timer.
     */
    method FirstPingSettled(reachable: bool)
      requires Valid() && phase == AwaitingFirst
      modifies this
      ensures Valid() && pings == 1 && tornDown == old(tornDown) && !unhandledRejection
      ensures reachable ==> phase == Done && frames == [] && timer == None
      ensures !reachable ==> phase == RetryPending && frames == [Frame(baseUrl, true)] && timer == Some(retryDelayMs)
    {
      if reachable {
        phase := Done;
      } else {
        frames := frames + [Frame(baseUrl, true)];
        timer := Some(retryDelayMs);
        phase := RetryPending;
      }
    }

    /** The timer fires (torn down or not, since nothing cleared it): the second ping goes out. */
    method TimerFires()
      requires Valid() && phase == RetryPending
      modifies this
      ensures Valid() && phase == AwaitingSecond && pings == 2 && timer == None
      ensures frames == old(frames) && tornDown == old(tornDown) && !unhandledRejection
    {
      timer := None;
      pings := pings + 1;
      phase := AwaitingSecond;
    }

    /**
     * The second ping settles: the `finally` removes the iframe whatever the
     * outcome, and a failure escapes the callback as an unhandled rejection.
     */
    method SecondPingSettled(reachable: bool)
      requires Valid() && phase == AwaitingSecond
      modifies this
      ensures Valid() && phase == Done && pings == 2 && frames == [] && timer == None
      ensures tornDown == old(tornDown)
      ensures unhandledRejection <==> !reachable
    {
      frames := [];
      phase := Done;
      unhandledRejection := !reachable;
    }

    /**
     * React tears the effect down. What the effect returned is a Promise, not
     * a function, so nothing of the run is undone: a pending timer stays set.
     */
    method TearDown()
      requires Valid()
      modifies this
      ensures Valid() && tornDown
      ensures phase == old(phase) && pings == old(pings) && frames == old(frames) && timer == old(timer)
      ensures unhandledRejection == old(unhandledRejection)
    {
      tornDown := true;
    }
  }

  /**
   * The full failure path, with the component unmounted while the retry is
   * pending: the timer still fires, there are two pings, and the iframe is
   * gone at the end.
   */
  method UnmountDuringRetry(baseUrl: string, secondReachable: bool) returns (pings: nat, frames: nat, timerCleared: bool)
    requires baseUrl != ""
    ensures pings == 2 && frames == 0
    ensures !timerCleared
  {
    var run := new WarmupRun(baseUrl, None);
    run.FirstPingSettled(false);
    assert run.timer == Some(DefaultRetryDelayMs);
    run.TearDown();
    timerCleared := run.timer.None?;
    run.TimerFires();
    run.SecondPingSettled(secondReachable);
    pings, frames := run.pings, |run.frames|;
  }
}

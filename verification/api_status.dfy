/**
 * The availability poller (frontend/src/hooks/useApiStatus.js): a tri-state
 * status, written by probe completions. Each run of the effect owns its own
 * `cancelled` flag and interval; React runs a run's cleanup before the next
 * run starts. Probe completions and interval ticks are events delivered by
 * the environment, in any order.
 */
module ApiStatus {
  import opened Wrappers

  datatype Status = Checking | Online | Offline

  const DefaultPollIntervalMs := 30000

  /** The interval a run registered with setInterval: the run it belongs to and its period. */
  datatype Interval = Interval(run: nat, periodMs: int)

  /** The status a probe completion writes: `online` when the fetch resolved, `offline` when it rejected. */
  function ProbeStatus(reachable: bool): (s: Status)
    ensures s != Checking
    ensures s == Online <==> reachable
  {
    if reachable then Online else Offline
  }

  class StatusPoller {
    var status: Status
    var cancelled: seq<bool>      // the `cancelled` variable of each effect run, by run number
    var interval: Option<Interval>
    var inFlight: seq<nat>        // probes not yet settled, each by the run whose `ping` issued it
    var probes: nat               // probes issued so far

    ghost predicate Valid()
      reads this
    {
      (forall k :: 0 <= k < |inFlight| ==> inFlight[k] < |cancelled|)
      && (forall r :: 0 <= r < |cancelled| - 1 ==> cancelled[r])
      && (interval.Some? <==> Live())
      && (interval.Some? ==> interval.value.run == |cancelled| - 1)
      && (|cancelled| == 0 ==> status == Checking && inFlight == [] && probes == 0)
    }

    /** The latest run has not been cleaned up. */
    ghost predicate Live()
      reads this
    {
      |cancelled| > 0 && !cancelled[|cancelled| - 1]
    }

    /** Every run has been cleaned up: nothing can write the status until a new run starts. */
    ghost predicate Stopped()
      reads this
    {
      forall r :: 0 <= r < |cancelled| ==> cancelled[r]
    }

    /** The hook's first render: `useState('checking')`, no effect run yet. */
    constructor ()
      ensures Valid() && status == Checking
      ensures cancelled == [] && interval == None && inFlight == [] && probes == 0
    {
      status := Checking;
      cancelled := [];
      interval := None;
      inFlight := [];
      probes := 0;
    }

    /**
     * One run of the effect. With an empty base URL it does nothing (and
     * returns no cleanup). Otherwise it opens a new run with `cancelled`
     * false, probes once at once and registers the interval.
     */
    method RunEffect(baseUrl: string, pollIntervalMs: Option<int>)
      requires Valid() && !Live()
      modifies this
      ensures Valid() && status == old(status)
      ensures baseUrl == "" ==> cancelled == old(cancelled) && interval == old(interval)
                                && inFlight == old(inFlight) && probes == old(probes)
      ensures baseUrl != "" ==>
        var run := |old(cancelled)|;
        cancelled == old(cancelled) + [false] && Live()
        && interval == Some(Interval(run, if pollIntervalMs.Some? then pollIntervalMs.value else DefaultPollIntervalMs))
        && inFlight == old(inFlight) + [run] && probes == old(probes) + 1
    {
      if baseUrl == "" {
        return;
      }
      var run := |cancelled|;
      var period := if pollIntervalMs.Some? then pollIntervalMs.value else DefaultPollIntervalMs;
      cancelled := cancelled + [false];
      inFlight := inFlight + [run];
      probes := probes + 1;
      interval := Some(Interval(run, period));
    }

    /** The interval fires: the live run probes once more. With no interval registered there is no tick. */
    method Tick()
      requires Valid()
      modifies this
      ensures Valid() && status == old(status) && cancelled == old(cancelled) && interval == old(interval)
      ensures interval.Some? ==> inFlight == old(inFlight) + [interval.value.run] && probes == old(probes) + 1
      ensures interval.None? ==> inFlight == old(inFlight) && probes == old(probes)
    {
      if interval.Some? {
        inFlight := inFlight + [interval.value.run];
        probes := probes + 1;
      }
    }

    /**
     * The `k`-th outstanding probe settles. It writes the status only when its
     * run's `cancelled` flag is still false, and then it overwrites whatever
     * was there: the last completion wins.
     */
    method Complete(k: nat, reachable: bool)
      requires Valid() && k < |inFlight|
      modifies this
      ensures Valid()
      ensures inFlight == old(inFlight[..k] + inFlight[k + 1..])
      ensures cancelled == old(cancelled) && interval == old(interval) && probes == old(probes)
      ensures old(cancelled[inFlight[k]]) ==> status == old(status)
      ensures !old(cancelled[inFlight[k]]) ==> status == ProbeStatus(reachable)
    {
      var run := inFlight[k];
      inFlight := inFlight[..k] + inFlight[k + 1..];
      if !cancelled[run] {
        status := ProbeStatus(reachable);
      }
    }

    /** The cleanup of the live run: set its `cancelled` and clear its interval. */
    method Cleanup()
      requires Valid()
      modifies this
      ensures Valid() && Stopped() && !Live() && interval == None
      ensures status == old(status) && inFlight == old(inFlight) && probes == old(probes)
      ensures |cancelled| == |old(cancelled)|
    {
      if interval.Some? {
        cancelled := cancelled[|cancelled| - 1 := true];
      }
      interval := None;
    }
  }

  /**
   * No write after stop: once the poller is cleaned up, no tick and no late
   * completion of any probe can change the status.
   */
  method AfterStop(p: StatusPoller, k: nat, reachable: bool)
    requires p.Valid() && k < |p.inFlight|
    modifies p
    ensures p.status == old(p.status)
  {
    p.Cleanup();
    p.Tick();
    assert p.cancelled[p.inFlight[k]];
    p.Complete(k, reachable);
  }

  /** With an empty base URL the effect never probes, so the status stays `checking` whatever else happens. */
  method NoBaseUrl(p: StatusPoller)
    requires p.Valid() && |p.cancelled| == 0
    modifies p
    ensures p.status == Checking && p.probes == 0
  {
    p.RunEffect("", None);
    p.Tick();
    p.Cleanup();
  }
}

/** The supervisor's sliding-window restart budget, from `runtime.py`. */
module RestartBudget {

  const WINDOW_SECONDS := 60.0
  const MAX_ATTEMPTS := 5

  /** The start of the window that ends now. */
  function Earliest(now: real): real {
    now - WINDOW_SECONDS
  }

  /** The times at or after `earliest`, in order. */
  function Recent(times: seq<real>, earliest: real): (r: seq<real>)
    ensures |r| <= |times|
  {
    if times == [] then []
    else
      Recent(times[..|times| - 1], earliest)
      + if times[|times| - 1] >= earliest then [times[|times| - 1]] else []
  }

  class RestartBudget {
    var attempts: seq<real>

    constructor ()
      ensures attempts == []
    {
      attempts := [];
    }

    /** Forgets attempts older than the window, and grants a restart if fewer than five are left. */
    method Consume(now: real) returns (granted: bool)
      modifies this
      ensures granted == (|Recent(old(attempts), Earliest(now))| < MAX_ATTEMPTS)
      ensures attempts == Pruned(old(attempts), now)
    {
      var earliest := Earliest(now);
      var kept := [];
      for i := 0 to |attempts|
        invariant kept == Recent(attempts[..i], earliest)
      {
        assert attempts[..i + 1][..i] == attempts[..i];
        if attempts[i] >= earliest {
          kept := kept + [attempts[i]];
        }
      }
      assert attempts[..|attempts|] == attempts;
      attempts := kept;
      if |attempts| >= MAX_ATTEMPTS {
        return false;
      }
      attempts := attempts + [now];
      return true;
    }
  }

  /** The attempt list after a call at time `now`. */
  function Pruned(attempts: seq<real>, now: real): seq<real> {
    var kept := Recent(attempts, Earliest(now));
    if |kept| < MAX_ATTEMPTS then kept + [now] else kept
  }

  /** The attempt list after a sequence of calls. */
  function Attempts(calls: seq<real>): seq<real> {
    if calls == [] then [] else Pruned(Attempts(calls[..|calls| - 1]), calls[|calls| - 1])
  }

  // ----- the reference: a budget that never forgets -----

  /** All grants ever made, when each decision looks at the full history. */
  function History(calls: seq<real>): seq<real> {
    if calls == [] then []
    else
      Remembered(History(calls[..|calls| - 1]), calls[|calls| - 1])
  }

  function Remembered(history: seq<real>, now: real): seq<real> {
    if |Recent(history, Earliest(now))| < MAX_ATTEMPTS then history + [now] else history
  }

  ghost predicate Nondecreasing(times: seq<real>) {
    forall i, j :: 0 <= i < j < |times| ==> times[i] <= times[j]
  }

  lemma RecentSnoc(times: seq<real>, t: real, earliest: real)
    ensures Recent(times + [t], earliest) == Recent(times, earliest) + if t >= earliest then [t] else []
  {
    assert (times + [t])[..|times|] == times;
  }

  /** Forgetting early loses nothing that a later cut keeps. */
  lemma {:induction false} RecentTwice(times: seq<real>, early: real, late: real)
    requires early <= late
    ensures Recent(Recent(times, early), late) == Recent(times, late)
  {
    if times != [] {
      var front, t := times[..|times| - 1], times[|times| - 1];
      RecentTwice(front, early, late);
      if t >= early {
        RecentSnoc(Recent(front, early), t, late);
      } else {
        assert Recent(times, early) == Recent(front, early);
      }
    }
  }

  lemma {:induction false} HistoryBounded(calls: seq<real>, now: real)
    requires forall i :: 0 <= i < |calls| ==> calls[i] <= now
    ensures forall i :: 0 <= i < |History(calls)| ==> History(calls)[i] <= now
  {
    if calls != [] {
      HistoryBounded(calls[..|calls| - 1], now);
    }
  }

  /** One call keeps the pruned list equal to the recent part of the full history. */
  lemma PruneStep(attempts: seq<real>, history: seq<real>, now: real)
    requires Recent(attempts, Earliest(now)) == Recent(history, Earliest(now))
    ensures Pruned(attempts, now) == Recent(Remembered(history, now), Earliest(now))
  {
    RecentSnoc(history, now, Earliest(now));
  }

  lemma SameRecent(attempts: seq<real>, history: seq<real>, last: real, now: real)
    requires attempts == Recent(history, Earliest(last)) && last <= now
    ensures Recent(attempts, Earliest(now)) == Recent(history, Earliest(now))
  {
    RecentTwice(history, Earliest(last), Earliest(now));
  }

  /** For clocks that do not run backwards, the pruned list is the full history restricted to the
      last sixty seconds. */
  lemma {:induction false} PrunedIsHistory(calls: seq<real>)
    requires Nondecreasing(calls) && calls != []
    ensures Attempts(calls) == Recent(History(calls), Earliest(calls[|calls| - 1]))
  {
    var front, now := calls[..|calls| - 1], calls[|calls| - 1];
    if front != [] {
      PrunedIsHistory(front);
      SameRecent(Attempts(front), History(front), front[|front| - 1], now);
    }
    PruneStep(Attempts(front), History(front), now);
  }

  /** Hence pruning never changes a decision. */
  lemma SameDecisions(calls: seq<real>, now: real)
    requires Nondecreasing(calls + [now])
    ensures Recent(Attempts(calls), Earliest(now)) == Recent(History(calls), Earliest(now))
  {
    if calls != [] {
      var all := calls + [now];
      assert forall i :: 0 <= i < |calls| ==> all[i] == calls[i];
      PrunedIsHistory(calls);
      assert all[|calls| - 1] <= all[|calls|];
      SameRecent(Attempts(calls), History(calls), calls[|calls| - 1], now);
    }
  }

  /** The restarts the supervisor grants, each decided on the pruned list. */
  function Grants(calls: seq<real>): seq<real> {
    if calls == [] then []
    else
      var front, now := calls[..|calls| - 1], calls[|calls| - 1];
      Grants(front) + if |Recent(Attempts(front), Earliest(now))| < MAX_ATTEMPTS then [now] else []
  }

  /** They are the restarts that a budget with a full memory would grant. */
  lemma {:induction false} GrantsAreHistory(calls: seq<real>)
    requires Nondecreasing(calls)
    ensures Grants(calls) == History(calls)
  {
    if calls != [] {
      var front, now := calls[..|calls| - 1], calls[|calls| - 1];
      GrantsAreHistory(front);
      assert front + [now] == calls;
      SameDecisions(front, now);
    }
  }

  // ----- what the budget guarantees -----

  /** The times within a closed interval. */
  function Between(times: seq<real>, lo: real, hi: real): seq<real> {
    if times == [] then []
    else
      Between(times[..|times| - 1], lo, hi)
      + if lo <= times[|times| - 1] <= hi then [times[|times| - 1]] else []
  }

  lemma {:induction false} BetweenIsRecent(times: seq<real>, lo: real, hi: real, earliest: real)
    requires earliest <= lo
    ensures |Between(times, lo, hi)| <= |Recent(times, earliest)|
  {
    if times != [] {
      BetweenIsRecent(times[..|times| - 1], lo, hi, earliest);
    }
  }

  lemma BetweenSnoc(times: seq<real>, t: real, lo: real, hi: real)
    ensures Between(times + [t], lo, hi) == Between(times, lo, hi) + if lo <= t <= hi then [t] else []
  {
    assert (times + [t])[..|times|] == times;
  }

  lemma {:induction false} AtMostFiveRemembered(calls: seq<real>, lo: real)
    ensures |Between(History(calls), lo, lo + WINDOW_SECONDS)| <= MAX_ATTEMPTS
  {
    if calls != [] {
      var before, now := History(calls[..|calls| - 1]), calls[|calls| - 1];
      AtMostFiveRemembered(calls[..|calls| - 1], lo);
      BetweenSnoc(before, now, lo, lo + WINDOW_SECONDS);
      if lo <= now <= lo + WINDOW_SECONDS {
        BetweenIsRecent(before, lo, lo + WINDOW_SECONDS, Earliest(now));
      }
    }
  }

  /** No closed window of sixty seconds ever contains more than five grants. */
  lemma AtMostFivePerWindow(calls: seq<real>, lo: real)
    requires Nondecreasing(calls)
    ensures |Between(Grants(calls), lo, lo + WINDOW_SECONDS)| <= MAX_ATTEMPTS
  {
    GrantsAreHistory(calls);
    AtMostFiveRemembered(calls, lo);
  }

  lemma {:induction false} RecentIsBetween(times: seq<real>, earliest: real, now: real)
    requires forall i :: 0 <= i < |times| ==> times[i] <= now
    ensures Recent(times, earliest) == Between(times, earliest, now)
  {
    if times != [] {
      RecentIsBetween(times[..|times| - 1], earliest, now);
    }
  }

  /** A restart is refused exactly when five grants fall into the sixty seconds before it. */
  lemma RefusedIffFiveRecent(calls: seq<real>, now: real)
    requires Nondecreasing(calls + [now])
    ensures |Recent(Attempts(calls), Earliest(now))| >= MAX_ATTEMPTS
       <==> |Between(Grants(calls), Earliest(now), now)| == MAX_ATTEMPTS
  {
    SameDecisions(calls, now);
    forall i | 0 <= i < |calls|
      ensures calls[i] <= now
    {
      assert (calls + [now])[i] <= (calls + [now])[|calls|];
    }
    HistoryBounded(calls, now);
    RecentIsBetween(History(calls), Earliest(now), now);
    AtMostFiveRemembered(calls, Earliest(now));
    assert forall i :: 0 <= i < |calls| ==> (calls + [now])[i] == calls[i];
    GrantsAreHistory(calls);
  }
}

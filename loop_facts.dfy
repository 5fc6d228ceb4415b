/**
 * What the validation and polling phases of main.py guarantee, stated
 * over the specification functions of MainLoop (which the methods there
 * are proved to compute).
 */
module LoopFacts {
  import opened Observers
  import opened MainLoop

  // =====================================================================
  // One validation pass

  /** Every Removed position is followed by a Skipped one (unless it was the
      last), and every Skipped position follows a Removed one. */
  predicate SkipsFollowRemovals(f: seq<Fate>)
  {
    forall j | 0 <= j < |f| ::
      && (f[j] == Removed ==> j + 1 == |f| || f[j + 1] == Skipped)
      && (f[j] == Skipped ==> 0 < j && f[j - 1] == Removed)
  }

  /** Because `pop(i)` runs inside `enumerate`, the entry after a removed one
      is never checked in that pass and stays in the list. */
  lemma {:induction false} SkipAfterRemoval(rest: seq<Observer>, outs: seq<Check>)
    ensures SkipsFollowRemovals(PassOf(rest, outs).fates)
    decreases |rest|
  {
    if rest != [] && outs != [] {
      match outs[0] {
        case Exists =>
          SkipAfterRemoval(rest[1..], outs[1..]);
          PrependKept(PassOf(rest[1..], outs[1..]).fates);
        case NotFound =>
          if |rest| > 1 {
            SkipAfterRemoval(rest[2..], outs[1..]);
            PrependRemoval(PassOf(rest[2..], outs[1..]).fates);
          }
        case Transient =>
        case BadKey =>
      }
    }
  }

  lemma PrependKept(q: seq<Fate>)
    requires SkipsFollowRemovals(q)
    ensures SkipsFollowRemovals([Kept] + q)
  {
    var f := [Kept] + q;
    forall j | 0 < j < |f|
      ensures f[j] == q[j - 1]
    {
    }
  }

  lemma PrependRemoval(q: seq<Fate>)
    requires SkipsFollowRemovals(q)
    ensures SkipsFollowRemovals([Removed, Skipped] + q)
  {
    var f := [Removed, Skipped] + q;
    forall j | 1 < j < |f|
      ensures f[j] == q[j - 2]
    {
    }
  }

  /** The check outcomes a pass read, listed by the position they decided:
      Exists for each Kept position, NotFound for each Removed one. */
  function Verdicts(f: seq<Fate>): (v: seq<Check>)
    ensures |v| == CheckCount(f)
  {
    if f == [] then []
    else (match f[0] case Kept => [Exists] case Removed => [NotFound] case _ => []) + Verdicts(f[1..])
  }

  /** The locations at the Kept and Removed positions, in list order. */
  function Picked(locs: seq<Observer>, f: seq<Fate>): seq<Observer>
    requires |f| == |locs|
  {
    if locs == [] then []
    else (if f[0] == Kept || f[0] == Removed then [locs[0]] else []) + Picked(locs[1..], f[1..])
  }

  /**
   * A pass consumes the oracle in list order: the k-th location it decides
   * on is the k-th one it checks, and is Removed exactly when the k-th
   * outcome is NotFound. Together with Survivors, only locations whose
   * check returned false leave the list.
   */
  predicate ReadsOracle(rest: seq<Observer>, outs: seq<Check>)
  {
    && Verdicts(PassOf(rest, outs).fates) == outs[..CheckCount(PassOf(rest, outs).fates)]
    && Picked(rest, PassOf(rest, outs).fates) == PassOf(rest, outs).checked[..CheckCount(PassOf(rest, outs).fates)]
  }

  lemma {:induction false} PassReadsOracle(rest: seq<Observer>, outs: seq<Check>)
    ensures ReadsOracle(rest, outs)
    decreases |rest|
  {
    if rest == [] {
    } else if outs == [] {
      UncheckedVerdicts(rest);
    } else {
      match outs[0] {
        case Exists =>
          PassReadsOracle(rest[1..], outs[1..]);
          ExistsReads(rest, outs);
        case NotFound =>
          if |rest| == 1 {
            assert outs[..1] == [NotFound];
          } else {
            PassReadsOracle(rest[2..], outs[1..]);
            NotFoundReads(rest, outs);
          }
        case Transient =>
          UncheckedVerdicts(rest);
        case BadKey =>
          UncheckedVerdicts(rest);
      }
    }
  }

  lemma ExistsReads(rest: seq<Observer>, outs: seq<Check>)
    requires rest != [] && outs != [] && outs[0] == Exists
    requires ReadsOracle(rest[1..], outs[1..])
    ensures ReadsOracle(rest, outs)
  {
    var q := PassOf(rest[1..], outs[1..]);
    var n := CheckCount(q.fates);
    var f := [Kept] + q.fates;
    assert f[1..] == q.fates;
    ConsPrefix(outs[0], outs[1..], n);
    ConsPrefix(rest[0], q.checked, n);
    assert [outs[0]] + outs[1..] == outs;
  }

  lemma NotFoundReads(rest: seq<Observer>, outs: seq<Check>)
    requires |rest| > 1 && outs != [] && outs[0] == NotFound
    requires ReadsOracle(rest[2..], outs[1..])
    ensures ReadsOracle(rest, outs)
  {
    var q := PassOf(rest[2..], outs[1..]);
    var n := CheckCount(q.fates);
    RemovalVerdicts(q.fates);
    RemovalPicked(rest, q.fates);
    ConsPrefix(outs[0], outs[1..], n);
    ConsPrefix(rest[0], q.checked, n);
    assert [outs[0]] + outs[1..] == outs;
  }

  lemma RemovalVerdicts(q: seq<Fate>)
    ensures CheckCount([Removed, Skipped] + q) == 1 + CheckCount(q)
    ensures Verdicts([Removed, Skipped] + q) == [NotFound] + Verdicts(q)
  {
    var f := [Removed, Skipped] + q;
    assert f[1..] == [Skipped] + q;
    assert f[1..][1..] == q;
  }

  lemma RemovalPicked(rest: seq<Observer>, q: seq<Fate>)
    requires |rest| == |q| + 2
    ensures Picked(rest, [Removed, Skipped] + q) == [rest[0]] + Picked(rest[2..], q)
  {
    var f := [Removed, Skipped] + q;
    assert f[1..] == [Skipped] + q;
    assert f[1..][1..] == q;
    assert rest[1..][1..] == rest[2..];
  }

  lemma ConsPrefix<T>(x: T, s: seq<T>, n: nat)
    requires n <= |s|
    ensures ([x] + s)[..1 + n] == [x] + s[..n]
  {
  }

  lemma {:induction false} UncheckedVerdicts(rest: seq<Observer>)
    ensures Verdicts(Unchecks(|rest|)) == [] && Picked(rest, Unchecks(|rest|)) == []
    decreases |rest|
  {
    if rest != [] {
      assert Unchecks(|rest|)[1..] == Unchecks(|rest| - 1);
      UncheckedVerdicts(rest[1..]);
    }
  }

  /** The three-location scenario: the first is missing, so the second is
      stepped over unchecked and kept; the third is checked and kept. */
  lemma SkipExample(a: Observer, b: Observer, c: Observer)
    ensures var p := PassOf([a, b, c], [NotFound, Exists]);
      && p.fates == [Removed, Skipped, Kept]
      && p.checked == [a, c]
      && p.end == Completed
      && Survivors([a, b, c], p.fates) == [b, c]
  {
    var p := PassOf([a, b, c], [NotFound, Exists]);
    assert [a, b, c][2..] == [c] && [NotFound, Exists][1..] == [Exists];
    assert PassOf([c], [Exists]) == Pass([Kept], [c], Completed) by {
      assert [c][1..] == [] && [Exists][1..] == [];
    }
    assert p.fates == [Removed, Skipped, Kept];
    assert [a, b, c][1..] == [b, c] && [b, c][1..] == [c] && [c][1..] == [];
    assert p.fates[1..] == [Skipped, Kept] && p.fates[1..][1..] == [Kept] && [Kept][1..] == [];
    assert Survivors([c], [Kept]) == [c];
    assert Survivors([b, c], [Skipped, Kept]) == [b, c];
  }

  // =====================================================================
  // Order of what is left

  /** A subsequence keeps its first element's place or drops one. */
  lemma {:induction false} SubsequenceTail(a: seq<Observer>, b: seq<Observer>)
    requires a != [] && IsSubsequence(a, b)
    ensures IsSubsequence(a[1..], b)
    decreases |b|, 1
  {
    if a[0] == b[0] {
      SubsequenceWeaken(a[1..], b);
    } else {
      SubsequenceTail(a, b[1..]);
      SubsequenceWeaken(a[1..], b);
    }
  }

  lemma {:induction false} SubsequenceWeaken(a: seq<Observer>, b: seq<Observer>)
    requires b != [] && IsSubsequence(a, b[1..])
    ensures IsSubsequence(a, b)
    decreases |b|, 0
  {
    if a != [] && a[0] == b[0] {
      SubsequenceTail(a, b[1..]);
    }
  }

  lemma {:induction false} SubsequenceTransitive(a: seq<Observer>, b: seq<Observer>, c: seq<Observer>)
    requires IsSubsequence(a, b) && IsSubsequence(b, c)
    ensures IsSubsequence(a, c)
    decreases |c|
  {
    if a != [] {
      if b[0] == c[0] {
        if a[0] == b[0] {
          SubsequenceTransitive(a[1..], b[1..], c[1..]);
        } else {
          SubsequenceTransitive(a, b[1..], c[1..]);
          SubsequenceWeaken(a, c);
        }
      } else {
        SubsequenceTransitive(a, b, c[1..]);
        SubsequenceWeaken(a, c);
      }
    }
  }

  /** A pass only deletes entries: the rest keep their relative order. */
  lemma {:induction false} SurvivorsInOrder(locs: seq<Observer>, f: seq<Fate>)
    requires |f| == |locs|
    ensures IsSubsequence(Survivors(locs, f), locs)
    decreases |locs|
  {
    if locs != [] {
      SurvivorsInOrder(locs[1..], f[1..]);
      if f[0] == Removed {
        assert Survivors(locs, f) == Survivors(locs[1..], f[1..]);
        SubsequenceWeaken(Survivors(locs, f), locs);
      } else {
        assert ([locs[0]] + Survivors(locs[1..], f[1..]))[1..] == Survivors(locs[1..], f[1..]);
      }
    }
  }

  /** Removals made before a connection failure persist into the retried
      passes, and the final list is the initial one with entries deleted. */
  lemma {:induction false} ValidationKeepsOrder(locs: seq<Observer>, apiKey: string, outs: seq<Check>)
    ensures IsSubsequence(ValidationOf(locs, apiKey, outs).locations, locs)
    decreases |outs|
  {
    var p := PassOf(locs, outs);
    SurvivorsInOrder(locs, p.fates);
    if p.end == Retry {
      var after := Survivors(locs, p.fates);
      ValidationKeepsOrder(after, apiKey, outs[|p.checked|..]);
      SubsequenceTransitive(ValidationOf(after, apiKey, outs[|p.checked|..]).locations, after, locs);
    }
  }

  // =====================================================================
  // Retries

  /** A pass that stops early was stopped by the outcome of its last check. */
  lemma {:induction false} InterruptedBy(rest: seq<Observer>, outs: seq<Check>)
    ensures var p := PassOf(rest, outs);
      && (p.end == Retry ==> outs[|p.checked| - 1] == Transient)
      && (p.end == Rejected ==> outs[|p.checked| - 1] == BadKey)
    decreases |rest|
  {
    if rest != [] && outs != [] {
      match outs[0] {
        case Exists =>
          InterruptedBy(rest[1..], outs[1..]);
        case NotFound =>
          if |rest| > 1 {
            InterruptedBy(rest[2..], outs[1..]);
          }
        case Transient =>
        case BadKey =>
      }
    }
  }

  /**
   * After a connection failure, validation sleeps 60 seconds and starts a
   * new pass at the first entry of the list as the failed pass left it,
   * so the removals it made persist.
   */
  lemma RetryRestarts(locs: seq<Observer>, apiKey: string, outs: seq<Check>)
    requires PassOf(locs, outs).end == Retry
    ensures var p := PassOf(locs, outs);
      var after := Survivors(locs, p.fates);
      var w := ValidationOf(after, apiKey, outs[|p.checked|..]);
      && outs[|p.checked| - 1] == Transient
      && ValidationOf(locs, apiKey, outs).trace == CheckCalls(p.checked, apiKey) + [Sleep(RetrySeconds)] + w.trace
      && ValidationOf(locs, apiKey, outs).locations == w.locations
      && (after != [] && |p.checked| < |outs| ==> w.trace[0] == CheckCall(after[0], apiKey))
  {
    InterruptedBy(locs, outs);
    var p := PassOf(locs, outs);
    var after := Survivors(locs, p.fates);
    if after != [] && |p.checked| < |outs| {
      FirstCheck(after, apiKey, outs[|p.checked|..]);
    }
  }

  /** Every validation pass begins by checking the first entry of the list. */
  lemma FirstCheck(locs: seq<Observer>, apiKey: string, outs: seq<Check>)
    requires locs != [] && outs != []
    ensures var t := ValidationOf(locs, apiKey, outs).trace;
      t != [] && t[0] == CheckCall(locs[0], apiKey)
  {
    var p := PassOf(locs, outs);
    assert p.checked[0] == locs[0];
    var calls := CheckCalls(p.checked, apiKey);
    assert calls[0] == CheckCall(locs[0], apiKey);
    var t := ValidationOf(locs, apiKey, outs).trace;
    assert t[..|calls|] == calls by {
      if p.end == Retry {
        var w := ValidationOf(Survivors(locs, p.fates), apiKey, outs[|p.checked|..]);
        assert t == calls + ([Sleep(RetrySeconds)] + w.trace);
      }
    }
  }

  /** A pass that runs to its end sets `valid_key` and leaves the loop with
      that pass's survivors. */
  lemma CompletedPassValidates(locs: seq<Observer>, apiKey: string, outs: seq<Check>)
    requires PassOf(locs, outs).end == Completed
    ensures var v := ValidationOf(locs, apiKey, outs);
      && v.end == Validated
      && v.locations == Survivors(locs, PassOf(locs, outs).fates)
      && v.used == |PassOf(locs, outs).checked|
  {
  }

  // =====================================================================
  // What the validation phase calls

  /** Validation only ever checks locations with the configured key and
      backs off for 60 seconds; it never fetches or logs. */
  predicate OnlyChecks(trace: seq<Event>, apiKey: string)
  {
    forall j | 0 <= j < |trace| ::
      (trace[j].CheckCall? && trace[j].apiKey == apiKey) || trace[j] == Sleep(RetrySeconds)
  }

  lemma OnlyChecksAppend(a: seq<Event>, b: seq<Event>, apiKey: string)
    requires OnlyChecks(a, apiKey) && OnlyChecks(b, apiKey)
    ensures OnlyChecks(a + b, apiKey)
  {
    forall j | 0 <= j < |a + b|
      ensures ((a + b)[j].CheckCall? && (a + b)[j].apiKey == apiKey) || (a + b)[j] == Sleep(RetrySeconds)
    {
      if j >= |a| {
        assert (a + b)[j] == b[j - |a|];
      }
    }
  }

  lemma {:induction false} CheckCallsOnlyCheck(locs: seq<Observer>, apiKey: string)
    ensures OnlyChecks(CheckCalls(locs, apiKey), apiKey)
    decreases |locs|
  {
    if locs != [] {
      CheckCallsOnlyCheck(locs[1..], apiKey);
      OnlyChecksAppend([CheckCall(locs[0], apiKey)], CheckCalls(locs[1..], apiKey), apiKey);
    }
  }

  lemma {:induction false} ValidationOnlyChecks(locs: seq<Observer>, apiKey: string, outs: seq<Check>)
    ensures OnlyChecks(ValidationOf(locs, apiKey, outs).trace, apiKey)
    decreases |outs|
  {
    var p := PassOf(locs, outs);
    var calls := CheckCalls(p.checked, apiKey);
    CheckCallsOnlyCheck(p.checked, apiKey);
    if p.end == Retry {
      var v := ValidationOf(Survivors(locs, p.fates), apiKey, outs[|p.checked|..]);
      ValidationOnlyChecks(Survivors(locs, p.fates), apiKey, outs[|p.checked|..]);
      OnlyChecksAppend(calls, [Sleep(RetrySeconds)], apiKey);
      OnlyChecksAppend(calls + [Sleep(RetrySeconds)], v.trace, apiKey);
    }
  }

  /**
   * A rejected key (or a validation that never completes) leaves
   * `valid_key` false: the polling loop body never runs, so nothing is
   * fetched, logged or slept on for an interval.
   */
  lemma RejectedKeyNeverPolls(locations: seq<Observer>, apiKey: string, minutes: int, days: int,
                              checks: seq<Check>, fetches: seq<Fetch>, cycles: nat)
    requires ValidationOf(locations, apiKey, checks).end != Validated
    ensures var r := RunOf(locations, apiKey, minutes, days, checks, fetches, cycles);
      && !r.validKey && !r.terminated
      && OnlyChecks(r.trace, apiKey)
  {
    ValidationOnlyChecks(locations, apiKey, checks);
  }

  // =====================================================================
  // One polling cycle

  /** The fetch loop reads outcomes in order: every call before the last
      returned, and the last outcome read is what ended the cycle. */
  lemma {:induction false} FetchRunReads(n: nat, outs: seq<Fetch>, k: nat)
    requires k <= |outs|
    ensures var c := FetchRun(n, outs, k);
      && (forall j | k <= j < k + c.fetched && (c.end == Logged || c.end == OutOfFetches || j < k + c.fetched - 1)
            :: outs[j] == Fetched)
      && (c.end == Abandoned ==> outs[k + c.fetched - 1] == FetchTransient)
      && (c.end == Crashed ==> outs[k + c.fetched - 1] == FetchError)
    decreases n
  {
    if n > 0 && k < |outs| && outs[k] == Fetched {
      FetchRunReads(n - 1, outs, k + 1);
    }
  }

  /** A cycle whose fetches all return calls `get_forecast` on every
      location in list order, then logs the whole list once, then sleeps
      for the polling interval. */
  lemma LoggedCycle(locs: seq<Observer>, days: int, apiKey: string, interval: int, outs: seq<Fetch>, k: nat)
    requires k <= |outs|
    requires FetchRun(|locs|, outs, k).end == Logged
    ensures CycleTrace(locs, days, apiKey, interval, FetchRun(|locs|, outs, k))
         == FetchCalls(locs, days, apiKey) + [LogCall(locs, LogPath), Sleep(interval)]
  {
    assert locs[..|locs|] == locs;
  }

  /** A connection failure while fetching skips the log entry for that
      cycle and backs off for 60 seconds. */
  lemma AbandonedCycle(locs: seq<Observer>, days: int, apiKey: string, interval: int, outs: seq<Fetch>, k: nat)
    requires k <= |outs|
    requires FetchRun(|locs|, outs, k).end == Abandoned
    ensures var t := CycleTrace(locs, days, apiKey, interval, FetchRun(|locs|, outs, k));
      && (forall j | 0 <= j < |t| :: !t[j].LogCall?)
      && t[|t| - 1] == Sleep(RetrySeconds)
  {
  }

  /** A negative polling interval makes `sleep(interval)` raise ValueError,
      which main.py:65 does not catch: the program ends right after its
      first log entry. */
  lemma NegativeIntervalStops(locs: seq<Observer>, days: int, apiKey: string, interval: int,
                              outs: seq<Fetch>, k: nat, cycles: nat)
    requires k <= |outs| && cycles > 0 && interval < 0
    requires FetchRun(|locs|, outs, k).end == Logged
    ensures var r := PollingOf(locs, days, apiKey, interval, outs, k, cycles);
      && r.end == Terminated
      && r.trace == FetchCalls(locs, days, apiKey) + [LogCall(locs, LogPath), Sleep(interval)]
  {
    LoggedCycle(locs, days, apiKey, interval, outs, k);
  }

  /** Polling never changes the list: every entry logged is the whole
      validated list, and every fetch is of one of its locations. */
  predicate PollingEvents(trace: seq<Event>, locs: seq<Observer>, days: int, apiKey: string, interval: int)
  {
    forall j | 0 <= j < |trace| ::
      && (trace[j].LogCall? ==> trace[j] == LogCall(locs, LogPath))
      && (trace[j].FetchCall? ==> trace[j].loc in locs && trace[j].days == days && trace[j].apiKey == apiKey)
      && (trace[j].Sleep? ==> trace[j].seconds == interval || trace[j].seconds == RetrySeconds)
      && !trace[j].CheckCall?
  }

  lemma PollingEventsAppend(a: seq<Event>, b: seq<Event>, locs: seq<Observer>, days: int, apiKey: string, interval: int)
    requires PollingEvents(a, locs, days, apiKey, interval) && PollingEvents(b, locs, days, apiKey, interval)
    ensures PollingEvents(a + b, locs, days, apiKey, interval)
  {
    forall j | 0 <= j < |a + b| && j >= |a|
      ensures (a + b)[j] == b[j - |a|]
    {
    }
  }

  lemma CycleEvents(locs: seq<Observer>, days: int, apiKey: string, interval: int, c: Cycle)
    requires c.fetched <= |locs|
    ensures PollingEvents(CycleTrace(locs, days, apiKey, interval, c), locs, days, apiKey, interval)
  {
    var calls := FetchCalls(locs[..c.fetched], days, apiKey);
    assert PollingEvents(calls, locs, days, apiKey, interval) by {
      forall j | 0 <= j < |calls|
        ensures calls[j].loc in locs
      {
        assert calls[j].loc == locs[j];
      }
    }
    var tail := CycleTrace(locs, days, apiKey, interval, c)[|calls|..];
    assert CycleTrace(locs, days, apiKey, interval, c) == calls + tail;
    PollingEventsAppend(calls, tail, locs, days, apiKey, interval);
  }

  lemma {:induction false} PollingOnlyTouchesList(locs: seq<Observer>, days: int, apiKey: string, interval: int,
                                                  outs: seq<Fetch>, k: nat, cycles: nat)
    requires k <= |outs|
    ensures PollingEvents(PollingOf(locs, days, apiKey, interval, outs, k, cycles).trace, locs, days, apiKey, interval)
    decreases cycles
  {
    if cycles > 0 {
      var c := FetchRun(|locs|, outs, k);
      CycleEvents(locs, days, apiKey, interval, c);
      if c.end != OutOfFetches && !EndsProgram(c.end, interval) {
        PollingOnlyTouchesList(locs, days, apiKey, interval, outs, k + c.fetched, cycles - 1);
        PollingEventsAppend(CycleTrace(locs, days, apiKey, interval, c),
                            PollingOf(locs, days, apiKey, interval, outs, k + c.fetched, cycles - 1).trace,
                            locs, days, apiKey, interval);
      }
    }
  }

  /**
   * After a completed validation, the whole run is the validation's calls
   * followed by polling over the list validation left, which every log
   * entry carries in full, sleeping the configured minutes times 60.
   */
  lemma ValidatedRunPolls(locations: seq<Observer>, apiKey: string, minutes: int, days: int,
                          checks: seq<Check>, fetches: seq<Fetch>, cycles: nat)
    requires ValidationOf(locations, apiKey, checks).end == Validated
    ensures var v, r := ValidationOf(locations, apiKey, checks),
                        RunOf(locations, apiKey, minutes, days, checks, fetches, cycles);
      && r.validKey
      && r.trace[..|v.trace|] == v.trace
      && PollingEvents(r.trace[|v.trace|..], v.locations, days, apiKey, minutes * 60)
  {
    var v := ValidationOf(locations, apiKey, checks);
    var p := PollingOf(v.locations, days, apiKey, IntervalSeconds(minutes), fetches, 0, cycles);
    PollingOnlyTouchesList(v.locations, days, apiKey, IntervalSeconds(minutes), fetches, 0, cycles);
    assert (v.trace + p.trace)[..|v.trace|] == v.trace;
    assert (v.trace + p.trace)[|v.trace|..] == p.trace;
  }
}

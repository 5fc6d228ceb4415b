/**
 * The startup script of main.py: a validation phase that asks the forecast
 * provider whether every configured location exists (dropping the ones it
 * does not know), followed by the polling phase that fetches every forecast,
 * writes one log entry and sleeps, cycle after cycle.
 *
 * The provider calls, the log writer and `sleep` are not executed: each call
 * site reads its outcome from a supplied sequence (an oracle) and appends an
 * event to a trace, so that the order of calls can be stated. When the
 * oracle has no further outcome the observation ends there, and the polling
 * phase, which never ends by itself, is observed for a bounded number of
 * cycles.
 */
module MainLoop {
  import opened Observers

  /** What one `check_location_exists(api_key)` call does, as main.py sees it. */
  datatype Check =
    | Exists     // returns true
    | NotFound   // returns false
    | Transient  // raises ConnectionError or ReadTimeout
    | BadKey     // raises ValueError: the API key was not accepted

  /** What one `get_forecast(days_checked, api_key)` call does. */
  datatype Fetch =
    | Fetched         // returns (its result is not used)
    | FetchTransient  // raises ConnectionError or ReadTimeout
    | FetchError      // raises anything else, which main.py does not catch

  /** The externally visible steps, in the order the script takes them. */
  datatype Event =
    | CheckCall(loc: Observer, apiKey: string)
    | FetchCall(loc: Observer, days: int, apiKey: string)
    | LogCall(locs: seq<Observer>, path: string)
    | Sleep(seconds: int)

  const LogPath := "./logs/weather_log.txt"

  /** The back-off after a connection failure, in seconds. */
  const RetrySeconds := 60

  /** The polling interval: the configured minutes, in seconds. */
  function IntervalSeconds(minutes: int): (seconds: int)
    ensures seconds / 60 == minutes && seconds % 60 == 0
  {
    minutes * 60
  }

  function CheckCalls(locs: seq<Observer>, apiKey: string): (calls: seq<Event>)
  {
    if locs == [] then [] else [CheckCall(locs[0], apiKey)] + CheckCalls(locs[1..], apiKey)
  }

  function FetchCalls(locs: seq<Observer>, days: int, apiKey: string): (calls: seq<Event>)
  {
    seq(|locs|, i requires 0 <= i < |locs| => FetchCall(locs[i], days, apiKey))
  }

  // =====================================================================
  // Validation phase (main.py:32-53)

  /** What one validation pass does to the location at each position of the
      list the pass started from. */
  datatype Fate =
    | Kept       // checked, exists
    | Removed    // checked, not found, popped from the list
    | Skipped    // came right after a removed one: the enumeration steps over it
    | Unchecked  // the pass stopped before reaching it

  datatype PassEnd =
    | Completed    // the `for` loop ran to its end
    | Retry        // a connection failure interrupted it
    | Rejected     // the key was rejected
    | OutOfChecks  // the oracle holds no outcome for the next call

  datatype Pass = Pass(fates: seq<Fate>, checked: seq<Observer>, end: PassEnd)

  function Unchecks(n: nat): (f: seq<Fate>)
    ensures |f| == n && CheckCount(f) == 0
    ensures forall i | 0 <= i < n :: f[i] == Unchecked
  {
    if n == 0 then [] else
      var f := [Unchecked] + Unchecks(n - 1);
      assert f[1..] == Unchecks(n - 1);
      f
  }

  /** Number of positions whose check returned, that is Kept or Removed. */
  function CheckCount(fates: seq<Fate>): nat
  {
    if fates == [] then 0
    else (if fates[0] == Kept || fates[0] == Removed then 1 else 0) + CheckCount(fates[1..])
  }

  /**
   * One pass of `for i, loc in enumerate(locations)` described position by
   * position of the list it started from: `rest` is the part not yet
   * reached. Popping the current entry moves the next one into the current
   * index, which the enumeration then steps past, so that entry is Skipped.
   */
  function PassOf(rest: seq<Observer>, outs: seq<Check>): (p: Pass)
    ensures |p.fates| == |rest| && |p.checked| <= |outs|
    ensures p.end == Completed <==> Unchecked !in p.fates
    ensures p.end == Retry || p.end == Rejected ==> |p.checked| >= 1
    ensures |p.checked| == CheckCount(p.fates) + (if p.end == Retry || p.end == Rejected then 1 else 0)
    decreases |rest|
  {
    if rest == [] then Pass([], [], Completed)
    else if outs == [] then Pass(Unchecks(|rest|), [], OutOfChecks)
    else match outs[0]
      case Exists =>
        var p := PassOf(rest[1..], outs[1..]);
        Pass([Kept] + p.fates, [rest[0]] + p.checked, p.end)
      case NotFound =>
        if |rest| == 1 then Pass([Removed], [rest[0]], Completed)
        else
          var p := PassOf(rest[2..], outs[1..]);
          Pass([Removed, Skipped] + p.fates, [rest[0]] + p.checked, p.end)
      case Transient => Pass(Unchecks(|rest|), [rest[0]], Retry)
      case BadKey => Pass(Unchecks(|rest|), [rest[0]], Rejected)
  }

  /** The list a pass leaves behind: every location not Removed, in order. */
  function Survivors(locs: seq<Observer>, fates: seq<Fate>): (s: seq<Observer>)
    requires |fates| == |locs|
  {
    if locs == [] then []
    else (if fates[0] == Removed then [] else [locs[0]]) + Survivors(locs[1..], fates[1..])
  }

  /** `a` is `b` with some entries deleted, the rest in their order. */
  predicate IsSubsequence(a: seq<Observer>, b: seq<Observer>)
    decreases |b|
  {
    if a == [] then true
    else if b == [] then false
    else if a[0] == b[0] then IsSubsequence(a[1..], b[1..])
    else IsSubsequence(a, b[1..])
  }

  /** Where a pass ends up: the list as it is left, the locations checked, how it stopped. */
  datatype Enumeration = Enumeration(locs: seq<Observer>, checked: seq<Observer>, end: PassEnd)

  /**
   * The same pass as the Python loop runs it: `i` is the enumeration's
   * index into the list as it is now, and a pop shortens the list under it.
   */
  function Enumerate(locs: seq<Observer>, i: nat, outs: seq<Check>): (e: Enumeration)
    requires i <= |locs| + 1
    decreases |locs| + 1 - i
  {
    if i >= |locs| then Enumeration(locs, [], Completed)
    else if outs == [] then Enumeration(locs, [], OutOfChecks)
    else match outs[0]
      case Exists =>
        var e := Enumerate(locs, i + 1, outs[1..]);
        Enumeration(e.locs, [locs[i]] + e.checked, e.end)
      case NotFound =>
        var e := Enumerate(locs[..i] + locs[i + 1..], i + 1, outs[1..]);
        Enumeration(e.locs, [locs[i]] + e.checked, e.end)
      case Transient => Enumeration(locs, [locs[i]], Retry)
      case BadKey => Enumeration(locs, [locs[i]], Rejected)
  }

  /**
   * The in-place enumeration agrees with the position-by-position account:
   * with `done` already dealt with and the enumeration standing at the
   * start of `rest`, it leaves `done` followed by the survivors of `rest`.
   */
  lemma {:induction false} EnumerateIsPass(done: seq<Observer>, rest: seq<Observer>, outs: seq<Check>)
    ensures EnumerationMatches(done, rest, outs)
    decreases |rest|
  {
    if rest == [] {
      assert done + [] == done;
    } else if outs == [] {
      SurvivorsUnchecked(rest);
    } else {
      match outs[0] {
        case Exists =>
          EnumerateIsPass(done + [rest[0]], rest[1..], outs[1..]);
          ExistsCase(done, rest, outs);
        case NotFound =>
          if |rest| == 1 {
            NotFoundLastCase(done, rest, outs);
          } else {
            EnumerateIsPass(done + [rest[1]], rest[2..], outs[1..]);
            NotFoundSkipCase(done, rest, outs);
          }
        case Transient =>
          SurvivorsUnchecked(rest);
        case BadKey =>
          SurvivorsUnchecked(rest);
      }
    }
  }

  /** The enumeration, started at the head of `rest` with `done` in front,
      ends as the position-by-position pass over `rest` says. */
  ghost predicate EnumerationMatches(done: seq<Observer>, rest: seq<Observer>, outs: seq<Check>)
  {
    && Enumerate(done + rest, |done|, outs).locs == done + Survivors(rest, PassOf(rest, outs).fates)
    && Enumerate(done + rest, |done|, outs).checked == PassOf(rest, outs).checked
    && Enumerate(done + rest, |done|, outs).end == PassOf(rest, outs).end
  }

  lemma ExistsCase(done: seq<Observer>, rest: seq<Observer>, outs: seq<Check>)
    requires rest != [] && outs != [] && outs[0] == Exists
    requires EnumerationMatches(done + [rest[0]], rest[1..], outs[1..])
    ensures EnumerationMatches(done, rest, outs)
  {
    var locs := done + rest;
    assert (done + [rest[0]]) + rest[1..] == locs;
    assert |done + [rest[0]]| == |done| + 1;
    assert locs[|done|] == rest[0];
    var q := PassOf(rest[1..], outs[1..]);
    SurvivorsKept(rest, q.fates);
    Associative(done, [rest[0]], Survivors(rest[1..], q.fates));
  }

  lemma SurvivorsKept(rest: seq<Observer>, f: seq<Fate>)
    requires rest != [] && |f| == |rest| - 1
    ensures Survivors(rest, [Kept] + f) == [rest[0]] + Survivors(rest[1..], f)
  {
    assert ([Kept] + f)[1..] == f;
  }

  lemma NotFoundLastCase(done: seq<Observer>, rest: seq<Observer>, outs: seq<Check>)
    requires |rest| == 1 && outs != [] && outs[0] == NotFound
    ensures EnumerationMatches(done, rest, outs)
  {
    var locs := done + rest;
    assert locs[|done|] == rest[0];
    assert locs[..|done|] + locs[|done| + 1..] == done;
  }

  lemma NotFoundSkipCase(done: seq<Observer>, rest: seq<Observer>, outs: seq<Check>)
    requires |rest| >= 2 && outs != [] && outs[0] == NotFound
    requires EnumerationMatches(done + [rest[1]], rest[2..], outs[1..])
    ensures EnumerationMatches(done, rest, outs)
  {
    var locs := done + rest;
    assert locs[|done|] == rest[0];
    Pop(done, rest);
    var q := PassOf(rest[2..], outs[1..]);
    assert |done + [rest[1]]| == |done| + 1;
    SurvivorsAfterRemoval(rest, q.fates);
    Associative(done, [rest[1]], Survivors(rest[2..], q.fates));
  }

  /** `pop` at the head of `rest`. */
  lemma Pop(done: seq<Observer>, rest: seq<Observer>)
    requires |rest| >= 2
    ensures var locs := done + rest;
      locs[..|done|] + locs[|done| + 1..] == (done + [rest[1]]) + rest[2..]
  {
    var locs := done + rest;
    assert locs[..|done|] == done;
    assert locs[|done| + 1..] == rest[1..] == [rest[1]] + rest[2..];
  }

  lemma SurvivorsAfterRemoval(rest: seq<Observer>, f: seq<Fate>)
    requires |rest| >= 2 && |f| == |rest| - 2
    ensures Survivors(rest, [Removed, Skipped] + f) == [rest[1]] + Survivors(rest[2..], f)
  {
    assert rest == [rest[0], rest[1]] + rest[2..];
    SurvivorsOfRemovedSkipped(rest[0], rest[1]);
    SurvivorsAppend([rest[0], rest[1]], [Removed, Skipped], rest[2..], f);
  }

  /**
   * The body of `while(True): try: for i, loc in enumerate(locations)`,
   * once: checks the locations from index 0, popping each one reported
   * missing, until the list is exhausted or a call raises. `k` is the
   * position in the oracle of the first call's outcome.
   */
  method ValidationPass(locations: seq<Observer>, apiKey: string, oracle: seq<Check>, k: nat)
    returns (locs: seq<Observer>, next: nat, end: PassEnd, trace: seq<Event>)
    requires k <= |oracle|
    ensures var p := PassOf(locations, oracle[k..]);
      && locs == Survivors(locations, p.fates)
      && next == k + |p.checked|
      && end == p.end
      && trace == CheckCalls(p.checked, apiKey)
  {
    locs, next, end, trace := locations, k, Completed, [];
    var i := 0;
    ghost var checked: seq<Observer> := [];
    ghost var whole := Enumerate(locations, 0, oracle[k..]);
    while i < |locs| && end == Completed
      invariant next == k + |checked| && trace == CheckCalls(checked, apiKey)
      invariant end == Completed ==> Remaining(whole, checked, locs, i, oracle, next)
      invariant end != Completed ==> whole.locs == locs && whole.checked == checked && whole.end == end
      decreases |locs| + 1 - i, if end == Completed then 1 else 0
    {
      if next == |oracle| {
        StopsAt(whole, checked, locs, i, oracle, next);
        end := OutOfChecks;
      } else {
        var loc, outcome := locs[i], oracle[next];
        CheckCallsSnoc(checked, loc, apiKey);
        trace := trace + [CheckCall(loc, apiKey)];
        match outcome {
          case Exists =>
            Keeps(whole, checked, locs, i, oracle, next);
            i := i + 1;
          case NotFound =>
            Pops(whole, checked, locs, i, oracle, next);
            locs := locs[..i] + locs[i + 1..];  // locations.pop(i)
            i := i + 1;
          case Transient =>
            StopsAt(whole, checked, locs, i, oracle, next);
            end := Retry;
          case BadKey =>
            StopsAt(whole, checked, locs, i, oracle, next);
            end := Rejected;
        }
        checked, next := checked + [loc], next + 1;
      }
    }
    if end == Completed {
      RunsOff(whole, checked, locs, i, oracle, next);
    }
    WholePass(locations, oracle[k..]);
  }

  /** The enumeration from index 0 is the position-by-position pass. */
  lemma WholePass(locations: seq<Observer>, outs: seq<Check>)
    ensures var e, p := Enumerate(locations, 0, outs), PassOf(locations, outs);
      e.locs == Survivors(locations, p.fates) && e.checked == p.checked && e.end == p.end
  {
    EnumerateIsPass([], locations, outs);
    assert [] + locations == locations;
  }

  /** The loop invariant of ValidationPass: the enumeration still to come,
      from index `i` of the list as it now is, completes the whole pass. */
  ghost predicate Remaining(whole: Enumeration, checked: seq<Observer>, locs: seq<Observer>, i: nat,
                            oracle: seq<Check>, next: nat)
  {
    && i <= |locs| + 1 && next <= |oracle|
    && var e := Enumerate(locs, i, oracle[next..]);
       e.locs == whole.locs && e.end == whole.end && checked + e.checked == whole.checked
  }

  /** The current location exists: the enumeration moves to the next index. */
  lemma Keeps(whole: Enumeration, checked: seq<Observer>, locs: seq<Observer>, i: nat,
              oracle: seq<Check>, next: nat)
    requires Remaining(whole, checked, locs, i, oracle, next)
    requires i < |locs| && next < |oracle| && oracle[next] == Exists
    ensures Remaining(whole, checked + [locs[i]], locs, i + 1, oracle, next + 1)
  {
    assert oracle[next..][0] == Exists && oracle[next..][1..] == oracle[next + 1..];
    Associative(checked, [locs[i]], Enumerate(locs, i + 1, oracle[next + 1..]).checked);
  }

  /** The current location is missing: it is popped, and the enumeration
      moves to the next index of the shortened list. */
  lemma Pops(whole: Enumeration, checked: seq<Observer>, locs: seq<Observer>, i: nat,
             oracle: seq<Check>, next: nat)
    requires Remaining(whole, checked, locs, i, oracle, next)
    requires i < |locs| && next < |oracle| && oracle[next] == NotFound
    ensures Remaining(whole, checked + [locs[i]], locs[..i] + locs[i + 1..], i + 1, oracle, next + 1)
  {
    assert oracle[next..][0] == NotFound && oracle[next..][1..] == oracle[next + 1..];
    Associative(checked, [locs[i]], Enumerate(locs[..i] + locs[i + 1..], i + 1, oracle[next + 1..]).checked);
  }

  lemma StopsAt(whole: Enumeration, checked: seq<Observer>, locs: seq<Observer>, i: nat,
                oracle: seq<Check>, next: nat)
    requires Remaining(whole, checked, locs, i, oracle, next)
    requires i < |locs|
    requires next == |oracle| || oracle[next] == Transient || oracle[next] == BadKey
    ensures whole.locs == locs
    ensures next == |oracle| ==> whole.end == OutOfChecks && whole.checked == checked
    ensures next < |oracle| ==>
      && whole.end == (if oracle[next] == Transient then Retry else Rejected)
      && whole.checked == checked + [locs[i]]
  {
    if next < |oracle| {
      assert oracle[next..][0] == oracle[next];
    } else {
      assert oracle[next..] == [];
    }
  }

  lemma RunsOff(whole: Enumeration, checked: seq<Observer>, locs: seq<Observer>, i: nat,
                oracle: seq<Check>, next: nat)
    requires Remaining(whole, checked, locs, i, oracle, next)
    requires i >= |locs|
    ensures whole.locs == locs && whole.end == Completed && whole.checked == checked
  {
    assert checked + [] == checked;
  }

  lemma SurvivorsOfRemovedSkipped(a: Observer, b: Observer)
    ensures Survivors([a, b], [Removed, Skipped]) == [b]
  {
    assert [a, b][1..] == [b] && [Removed, Skipped][1..] == [Skipped];
    assert [b][1..] == [] && [Skipped][1..] == [];
    assert Survivors([b], [Skipped]) == [b] + Survivors([], []) == [b];
  }

  lemma {:induction false} CheckCallsSnoc(locs: seq<Observer>, loc: Observer, apiKey: string)
    ensures CheckCalls(locs + [loc], apiKey) == CheckCalls(locs, apiKey) + [CheckCall(loc, apiKey)]
    decreases |locs|
  {
    if locs == [] {
      assert [] + [loc] == [loc];
    } else {
      assert (locs + [loc])[1..] == locs[1..] + [loc];
      CheckCallsSnoc(locs[1..], loc, apiKey);
    }
  }

  lemma {:induction false} SurvivorsAppend(a: seq<Observer>, f: seq<Fate>, b: seq<Observer>, g: seq<Fate>)
    requires |f| == |a| && |g| == |b|
    ensures Survivors(a + b, f + g) == Survivors(a, f) + Survivors(b, g)
    decreases |a|
  {
    if a == [] {
      assert a + b == b && f + g == g;
    } else {
      assert (a + b)[1..] == a[1..] + b && (f + g)[1..] == f[1..] + g;
      SurvivorsAppend(a[1..], f[1..], b, g);
    }
  }

  lemma {:induction false} SurvivorsUnchecked(a: seq<Observer>)
    ensures Survivors(a, Unchecks(|a|)) == a
    decreases |a|
  {
    if a != [] {
      assert Unchecks(|a|)[1..] == Unchecks(|a| - 1);
      SurvivorsUnchecked(a[1..]);
    }
  }

  datatype ValidationEnd =
    | Validated    // a pass completed: `valid_key = True`
    | KeyRejected  // ValueError: the loop is left with `valid_key` still False
    | Unfinished   // the oracle ran out before either happened

  datatype Validation = Validation(locations: seq<Observer>, end: ValidationEnd, used: nat, trace: seq<Event>)

  /**
   * The whole validation loop: passes are repeated after each connection
   * failure, each starting over at the first entry of the list the last
   * one left, until a pass completes or the key is rejected.
   */
  function ValidationOf(locs: seq<Observer>, apiKey: string, outs: seq<Check>): (v: Validation)
    ensures v.used <= |outs|
    decreases |outs|
  {
    var p := PassOf(locs, outs);
    var after := Survivors(locs, p.fates);
    var calls := CheckCalls(p.checked, apiKey);
    match p.end
    case Completed => Validation(after, Validated, |p.checked|, calls)
    case Rejected => Validation(after, KeyRejected, |p.checked|, calls)
    case OutOfChecks => Validation(after, Unfinished, |p.checked|, calls)
    case Retry =>
      var v := ValidationOf(after, apiKey, outs[|p.checked|..]);
      Validation(v.locations, v.end, |p.checked| + v.used, calls + [Sleep(RetrySeconds)] + v.trace)
  }

  /** A validation run seen from where it began: calls made so far, then the rest. */
  function After(trace: seq<Event>, used: nat, v: Validation): Validation
  {
    Validation(v.locations, v.end, used + v.used, trace + v.trace)
  }

  /** main.py:32-53: `valid_key` ends up true exactly when some pass completed. */
  method Validate(locations: seq<Observer>, apiKey: string, oracle: seq<Check>)
    returns (locs: seq<Observer>, validKey: bool, used: nat, trace: seq<Event>)
    ensures var v := ValidationOf(locations, apiKey, oracle);
      && locs == v.locations
      && validKey == (v.end == Validated)
      && used == v.used
      && trace == v.trace
  {
    locs, validKey, used, trace := locations, false, 0, [];
    while true
      invariant used <= |oracle|
      invariant After(trace, used, ValidationOf(locs, apiKey, oracle[used..])) == ValidationOf(locations, apiKey, oracle)
      decreases |oracle| - used
    {
      var next, end, calls;
      locs, next, end, calls := ValidationPass(locs, apiKey, oracle, used);
      trace := trace + calls;
      match end {
        case Completed =>
          validKey := true;
          used := next;
          break;
        case Rejected =>
          used := next;
          break;
        case OutOfChecks =>
          used := next;
          break;
        case Retry =>
          assert oracle[used..][next - used..] == oracle[next..];
          trace := trace + [Sleep(RetrySeconds)];
          used := next;
      }
    }
  }

  // =====================================================================
  // Polling phase (main.py:56-67)

  datatype CycleEnd =
    | Logged        // every fetch returned: the entry is logged, then the interval slept
    | Abandoned     // a connection failure: no entry, a 60 s back-off
    | Crashed       // an uncaught exception ends the program
    | OutOfFetches  // the oracle holds no outcome for the next fetch

  datatype Cycle = Cycle(fetched: nat, end: CycleEnd)

  /**
   * The `for loc in locations: loc.get_forecast(...)` loop over `n`
   * locations, reading outcomes from position `k` of the oracle: how many
   * calls it makes, and how it ends. The first outcome other than Fetched
   * decides.
   */
  function FetchRun(n: nat, outs: seq<Fetch>, k: nat): (c: Cycle)
    requires k <= |outs|
    ensures c.fetched <= n && k + c.fetched <= |outs|
    ensures c.end == Logged ==> c.fetched == n
    ensures c.end == OutOfFetches ==> k + c.fetched == |outs| && c.fetched < n
    ensures c.end == Abandoned || c.end == Crashed ==> 0 < c.fetched
    decreases n
  {
    if n == 0 then Cycle(0, Logged)
    else if k == |outs| then Cycle(0, OutOfFetches)
    else match outs[k]
      case Fetched =>
        var c := FetchRun(n - 1, outs, k + 1);
        Cycle(c.fetched + 1, c.end)
      case FetchTransient => Cycle(1, Abandoned)
      case FetchError => Cycle(1, Crashed)
  }

  /** The events of one cycle. */
  function CycleTrace(locs: seq<Observer>, days: int, apiKey: string, interval: int, c: Cycle): (t: seq<Event>)
    requires c.fetched <= |locs|
  {
    FetchCalls(locs[..c.fetched], days, apiKey) +
    match c.end
    case Logged => [LogCall(locs, LogPath), Sleep(interval)]
    case Abandoned => [Sleep(RetrySeconds)]
    case Crashed => []
    case OutOfFetches => []
  }

  /**
   * The for loop of main.py:58-59, once: fetches every location in list
   * order until one raises. `k` is the position in the oracle of the first
   * call's outcome.
   */
  method FetchAll(locs: seq<Observer>, days: int, apiKey: string, oracle: seq<Fetch>, k: nat)
    returns (c: Cycle, trace: seq<Event>)
    requires k <= |oracle|
    ensures c == FetchRun(|locs|, oracle, k)
    ensures trace == FetchCalls(locs[..c.fetched], days, apiKey)
  {
    var i, end := 0, Logged;
    trace := [];
    while i < |locs| && end == Logged
      invariant i <= |locs| && k + i <= |oracle|
      invariant trace == FetchCalls(locs[..i], days, apiKey)
      invariant end == Logged ==> FetchRest(|locs|, oracle, k, i)
      invariant end != Logged ==> FetchRun(|locs|, oracle, k) == Cycle(i, end)
      decreases |locs| - i, if end == Logged then 1 else 0
    {
      if k + i == |oracle| {
        end := OutOfFetches;
      } else {
        var outcome := oracle[k + i];
        FetchCallsSnoc(locs, i, days, apiKey);
        trace := trace + [FetchCall(locs[i], days, apiKey)];
        i := i + 1;
        match outcome {
          case Fetched =>
          case FetchTransient => end := Abandoned;
          case FetchError => end := Crashed;
        }
      }
    }
    c := Cycle(i, end);
  }

  /** The loop invariant of FetchAll: the first `i` fetches returned, and
      the run over the remaining locations completes the whole. */
  ghost predicate FetchRest(n: nat, oracle: seq<Fetch>, k: nat, i: nat)
  {
    && i <= n && k + i <= |oracle|
    && FetchRun(n, oracle, k).fetched == i + FetchRun(n - i, oracle, k + i).fetched
    && FetchRun(n, oracle, k).end == FetchRun(n - i, oracle, k + i).end
  }

  lemma FetchCallsSnoc(locs: seq<Observer>, i: nat, days: int, apiKey: string)
    requires i < |locs|
    ensures FetchCalls(locs[..i + 1], days, apiKey) == FetchCalls(locs[..i], days, apiKey) + [FetchCall(locs[i], days, apiKey)]
  {
  }

  datatype PollingEnd =
    | StillPolling  // the observed cycles ended without the program stopping
    | Terminated    // an uncaught exception ended the program

  datatype Polling = Polling(used: nat, trace: seq<Event>, end: PollingEnd)

  /**
   * Whether the program stops in a cycle that ended this way: an exception
   * main.py does not catch escaped `get_forecast`, or the cycle was logged
   * and `sleep(interval)` raised ValueError because the interval is
   * negative.
   */
  predicate EndsProgram(e: CycleEnd, interval: int)
  {
    e == Crashed || (e == Logged && interval < 0)
  }

  /** `cycles` iterations of `while(valid_key)` (fewer if the oracle runs
      out), reading outcomes from position `k` of the oracle. */
  function PollingOf(locs: seq<Observer>, days: int, apiKey: string, interval: int,
                     outs: seq<Fetch>, k: nat, cycles: nat): (r: Polling)
    requires k <= |outs|
    ensures k + r.used <= |outs|
    decreases cycles
  {
    if cycles == 0 then Polling(0, [], StillPolling)
    else
      var c := FetchRun(|locs|, outs, k);
      var t := CycleTrace(locs, days, apiKey, interval, c);
      if c.end == OutOfFetches then Polling(c.fetched, t, StillPolling)
      else if EndsProgram(c.end, interval) then Polling(c.fetched, t, Terminated)
      else
        var r := PollingOf(locs, days, apiKey, interval, outs, k + c.fetched, cycles - 1);
        Polling(c.fetched + r.used, t + r.trace, r.end)
  }

  /** main.py:56-67 for at most `cycles` iterations; `locs` is never changed. */
  method Poll(locs: seq<Observer>, days: int, apiKey: string, interval: int, oracle: seq<Fetch>, cycles: nat)
    returns (used: nat, trace: seq<Event>, end: PollingEnd)
    ensures PollingOf(locs, days, apiKey, interval, oracle, 0, cycles) == Polling(used, trace, end)
  {
    used, trace, end := 0, [], StillPolling;
    var left, running := cycles, true;
    ghost var whole := PollingOf(locs, days, apiKey, interval, oracle, 0, cycles);
    while left > 0 && running
      invariant running ==> end == StillPolling && PollRest(whole, locs, days, apiKey, interval, oracle, left, used, trace)
      invariant !running ==> whole == Polling(used, trace, end)
      decreases left
    {
      var c, events := PollCycle(locs, days, apiKey, interval, oracle, used);
      ghost var used0, trace0 := used, trace;
      used, trace := used + c.fetched, trace + events;
      if c.end == OutOfFetches {
        running := false;
        PollExhausted(whole, locs, days, apiKey, interval, oracle, left, used0, trace0, c, trace);
      } else if EndsProgram(c.end, interval) {
        // an exception the handler does not catch ends the program
        end, running := Terminated, false;
        PollStops(whole, locs, days, apiKey, interval, oracle, left, used0, trace0, c, trace);
      } else {
        PollContinues(whole, locs, days, apiKey, interval, oracle, left, used0, trace0, c, trace);
      }
      left := left - 1;
    }
    if running {
      PollDone(whole, locs, days, apiKey, interval, oracle, used, trace);
    }
  }

  /**
   * One iteration of `while(valid_key)` (main.py:57-67): the fetches, then
   * `log_forecasts` and `sleep(interval)` if they all returned, or
   * `sleep(60)` after a connection failure.
   */
  method PollCycle(locs: seq<Observer>, days: int, apiKey: string, interval: int, oracle: seq<Fetch>, k: nat)
    returns (c: Cycle, events: seq<Event>)
    requires k <= |oracle|
    ensures c == FetchRun(|locs|, oracle, k)
    ensures events == CycleTrace(locs, days, apiKey, interval, c)
  {
    var calls;
    c, calls := FetchAll(locs, days, apiKey, oracle, k);
    match c.end {
      case Logged => events := calls + [LogCall(locs, LogPath), Sleep(interval)];
      case Abandoned => events := calls + [Sleep(RetrySeconds)];
      case Crashed => events := calls;
      case OutOfFetches => events := calls;
    }
  }

  /** The loop invariant of Poll: the `left` cycles still to run, from
      oracle position `used`, complete the whole observation. */
  ghost predicate PollRest(whole: Polling, locs: seq<Observer>, days: int, apiKey: string, interval: int,
                           oracle: seq<Fetch>, left: nat, used: nat, trace: seq<Event>)
  {
    used <= |oracle| && whole == Resumed(used, trace, PollingOf(locs, days, apiKey, interval, oracle, used, left))
  }

  /** An observation seen from where it began: what was done so far, then the rest. */
  function Resumed(used: nat, trace: seq<Event>, r: Polling): (whole: Polling)
  {
    Polling(used + r.used, trace + r.trace, r.end)
  }

  /** A cycle that ends in a sleep hands the invariant on to the next one. */
  lemma PollContinues(whole: Polling, locs: seq<Observer>, days: int, apiKey: string, interval: int,
                      oracle: seq<Fetch>, left: nat, used: nat, trace: seq<Event>, c: Cycle, trace': seq<Event>)
    requires PollRest(whole, locs, days, apiKey, interval, oracle, left, used, trace) && left > 0
    requires c == FetchRun(|locs|, oracle, used) && c.end != OutOfFetches && !EndsProgram(c.end, interval)
    requires trace' == trace + CycleTrace(locs, days, apiKey, interval, c)
    ensures PollRest(whole, locs, days, apiKey, interval, oracle, left - 1, used + c.fetched, trace')
  {
    var t := CycleTrace(locs, days, apiKey, interval, c);
    var r' := PollingOf(locs, days, apiKey, interval, oracle, used + c.fetched, left - 1);
    PollingContinues(locs, days, apiKey, interval, oracle, used, left, c);
    Chain(whole, PollingOf(locs, days, apiKey, interval, oracle, used, left), r', used, c.fetched, trace, t);
  }

  /** PollingOf after a cycle that ends in a sleep. */
  lemma PollingContinues(locs: seq<Observer>, days: int, apiKey: string, interval: int,
                         outs: seq<Fetch>, k: nat, cycles: nat, c: Cycle)
    requires k <= |outs| && cycles > 0
    requires c == FetchRun(|locs|, outs, k) && c.end != OutOfFetches && !EndsProgram(c.end, interval)
    ensures var r, r' := PollingOf(locs, days, apiKey, interval, outs, k, cycles),
                         PollingOf(locs, days, apiKey, interval, outs, k + c.fetched, cycles - 1);
      && r.used == c.fetched + r'.used
      && r.trace == CycleTrace(locs, days, apiKey, interval, c) + r'.trace
      && r.end == r'.end
  {
  }

  /** No cycle left: the observation is what has been done. */
  lemma PollDone(whole: Polling, locs: seq<Observer>, days: int, apiKey: string, interval: int,
                 oracle: seq<Fetch>, used: nat, trace: seq<Event>)
    requires PollRest(whole, locs, days, apiKey, interval, oracle, 0, used, trace)
    ensures whole == Polling(used, trace, StillPolling)
  {
    assert trace + [] == trace;
  }

  /** Bookkeeping of the Poll invariant across one cycle. */
  lemma Chain(whole: Polling, r: Polling, r': Polling, used: nat, fetched: nat, trace: seq<Event>, t: seq<Event>)
    requires whole == Resumed(used, trace, r)
    requires r.used == fetched + r'.used && r.trace == t + r'.trace && r.end == r'.end
    ensures whole == Resumed(used + fetched, trace + t, r')
  {
    Associative(trace, t, r'.trace);
  }

  /** A cycle that runs out of outcomes ends the observation. */
  lemma PollExhausted(whole: Polling, locs: seq<Observer>, days: int, apiKey: string, interval: int,
                      oracle: seq<Fetch>, left: nat, used: nat, trace: seq<Event>, c: Cycle, trace': seq<Event>)
    requires PollRest(whole, locs, days, apiKey, interval, oracle, left, used, trace) && left > 0
    requires c == FetchRun(|locs|, oracle, used) && c.end == OutOfFetches
    requires trace' == trace + CycleTrace(locs, days, apiKey, interval, c)
    ensures whole == Polling(used + c.fetched, trace', StillPolling)
  {
  }

  /** A cycle that ends the program ends the observation. */
  lemma PollStops(whole: Polling, locs: seq<Observer>, days: int, apiKey: string, interval: int,
                  oracle: seq<Fetch>, left: nat, used: nat, trace: seq<Event>, c: Cycle, trace': seq<Event>)
    requires PollRest(whole, locs, days, apiKey, interval, oracle, left, used, trace) && left > 0
    requires c == FetchRun(|locs|, oracle, used) && c.end != OutOfFetches && EndsProgram(c.end, interval)
    requires trace' == trace + CycleTrace(locs, days, apiKey, interval, c)
    ensures whole == Polling(used + c.fetched, trace', Terminated)
  {
  }

  lemma Associative<T>(a: seq<T>, b: seq<T>, c: seq<T>)
    ensures a + (b + c) == (a + b) + c
  {
  }

  // =====================================================================
  // The script as a whole (main.py:21-67)

  datatype Run = Run(locations: seq<Observer>, validKey: bool, terminated: bool, trace: seq<Event>)

  function RunOf(locations: seq<Observer>, apiKey: string, minutes: int, days: int,
                 checks: seq<Check>, fetches: seq<Fetch>, cycles: nat): (r: Run)
  {
    var v := ValidationOf(locations, apiKey, checks);
    if v.end == Validated then
      var p := PollingOf(v.locations, days, apiKey, IntervalSeconds(minutes), fetches, 0, cycles);
      Run(v.locations, true, p.end == Terminated, v.trace + p.trace)
    else
      Run(v.locations, false, false, v.trace)
  }

  /**
   * From `ingestor(config["locations"])` on: validation, then polling while
   * `valid_key` holds. `locations` is what the ingestor returned.
   */
  method RunScript(locations: seq<Observer>, apiKey: string, pollingIntervalInMinutes: int, daysChecked: int,
                   checks: seq<Check>, fetches: seq<Fetch>, cycles: nat)
    returns (locs: seq<Observer>, validKey: bool, terminated: bool, trace: seq<Event>)
    ensures Run(locs, validKey, terminated, trace)
         == RunOf(locations, apiKey, pollingIntervalInMinutes, daysChecked, checks, fetches, cycles)
  {
    var interval := IntervalSeconds(pollingIntervalInMinutes);
    var used;
    locs, validKey, used, trace := Validate(locations, apiKey, checks);
    terminated := false;
    if validKey {
      var fetched, pollTrace, end := Poll(locs, daysChecked, apiKey, interval, fetches, cycles);
      trace := trace + pollTrace;
      terminated := end == Terminated;
    }
  }
}

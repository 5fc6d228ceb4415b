# cloud_weather: the Observer record and the startup script, in Dafny

cloud_weather watches the weather forecast for a list of locations. Each
location is an `Observer`: a name, a low and a high temperature alert
limit, and a slot for the latest fetched forecast. The script `main.py`
runs in two phases:

- **Validation.** It asks the forecast provider whether each location
  exists. It pops the unknown ones from the list while enumerating it. A
  connection failure makes it wait 60 seconds and start the pass again. A
  rejected API key ends the script.
- **Polling.** It fetches the forecast of every location, writes one log
  entry, and sleeps for the configured interval, for ever. A connection
  failure abandons the cycle and makes it wait 60 seconds.

The project has four files:

- `wrappers.dfy`: the `Option` type.
- `observer.dfy` (module `Observers`): the `Observer` class. It has a
  constructor and the `ToString` rendering of `__str__`. Decimal rendering
  of integers is written out. A parser reads the three fields back from
  the rendered line.
- `main_loop.dfy` (module `MainLoop`): the two loops of `main.py` as
  methods with `while` loops. Each method is proved to compute a recursive
  specification function:

  | method | specification function |
  |---|---|
  | `ValidationPass` | `PassOf` / `Survivors` |
  | `Validate` | `ValidationOf` |
  | `FetchAll` | `FetchRun` |
  | `PollCycle` | `FetchRun` / `CycleTrace` |
  | `Poll` | `PollingOf` |
  | `RunScript` | `RunOf` |

  `Enumerate` restates the `for i, loc in enumerate(locations)` loop with
  `pop(i)` literally: index `i` advances after every step, including after
  a pop. `EnumerateIsPass` proves that this agrees with the
  position-by-position `PassOf`. In `PassOf`, each entry of the starting
  list is Kept, Removed, Skipped (it moved into the popped slot and the
  enumeration stepped past it) or Unchecked (the pass stopped first).
- `loop_facts.dfy` (module `LoopFacts`): what the two phases guarantee,
  proved about the specification functions.

The provider and the log writer are not executed:

- **Oracles.** The outcomes of `check_location_exists` and `get_forecast`
  are read from supplied sequences. For `check_location_exists` these are
  `Exists`, `NotFound`, `Transient` and `BadKey`. For `get_forecast` they
  are `Fetched`, `FetchTransient` and `FetchError`.
- **Trace.** Every call, every `log_forecasts` and every `sleep` is
  appended to a trace of events.
- **Finite observation.** When an oracle runs out, the observation ends
  there. Polling is observed for a given number of cycles.

`main.py` pops inside `enumerate`, so the entry after a removed one is not
checked in that pass and stays in the list; `SkipAfterRemoval` and
`SkipExample` state this.

## Model

| member | source | states |
|---|---|---|
| Observers.Observer.constructor | weather/observer.py:11-15 | name, min and max limit are stored exactly as given, with no ordering demanded between the limits. `forecasts` starts as `None`, which differs from an empty list |
| Observers.Observer.ToString | weather/observer.py:17-19 | the line ends with `", Max alert: "` and the max limit, and parsing it gives back exactly the name, the min limit and the max limit. It is a function reading `this`, so rendering changes no field |
| Observers.ToStringExact | weather/observer.py:17-19 | the rendered line is the only string that parses back to the record's three fields, so together with `ToString`'s contract the text is exactly `"<name>: Min alert: <min>, Max alert: <max>"` |
| Observers.ParseIdentityExact | weather/observer.py:17-19 | any string the parser accepts is exactly the identity text of the values it reads (numerals in `str` form only: no leading zero, no `-0`) |
| Observers.ParseIntExact | weather/observer.py:18-19 | the only text that reads back as an int is that int's `str` rendering |
| Observers.IntToStringRoundTrip | weather/observer.py:18-19 | `%s` of an int (minus sign, then canonical digits) reads back as the same int |
| Observers.IdentityRoundTrip | weather/observer.py:17-19 | the `"<name>: Min alert: <min>, Max alert: <max>"` text of any three values parses back to those values |
| Observers.IdentityInjective | weather/observer.py:17-19 | two observers that render the same line have the same name and limits |
| Observers.EspooIdentity | weather/observer.py:17-19 | the Espoo record (-20, 30) of tests/test_observer.py renders as `"Espoo: Min alert: -20, Max alert: 30"` |
| MainLoop.IntervalSeconds | main.py:26 | the polling sleep is a whole number of minutes: seconds / 60 is the configured minutes, with no remainder |
| MainLoop.PassOf | main.py:36-39 | a pass decides every entry exactly when it completes. It consumes no more outcomes than given. Every stopped-by-exception pass made at least one call. The calls made are the Kept and Removed entries plus the call that raised |
| MainLoop.EnumerateIsPass | main.py:36-39 | running `enumerate` with `pop(i)` from any index leaves the list, the calls and the ending that the position-by-position account `PassOf` gives |
| MainLoop.ValidationPass | main.py:35-41 | the `for` loop with in-place pop leaves the list `Survivors(PassOf(...))`, consumes one outcome per call, and ends as `PassOf` says |
| MainLoop.Validate | main.py:32-53 | `valid_key` is true exactly when a pass completed. The final list, the outcomes used and the calls, with their 60 s sleeps, are those of `ValidationOf` |
| MainLoop.FetchRun | main.py:58-59 | a cycle makes at most one call per location. It logs only after one call per location, and an exception ends it after at least one call |
| MainLoop.FetchAll | main.py:58-59 | `get_forecast` is called on the locations in list order, one outcome each, until one raises, as `FetchRun` says |
| MainLoop.PollCycle | main.py:57-67 | one polling iteration makes the fetches `FetchRun` says, then logs the whole list and sleeps the interval if they all returned, or sleeps 60 s after a connection failure |
| MainLoop.Poll | main.py:56-67 | the polling loop yields the calls, logs and sleeps of `PollingOf`, ending the program on an uncaught fetch error or on a negative interval. The list is a value the loop never reassigns |
| MainLoop.RunScript | main.py:26-67 | the interval is minutes * 60. Validation then polling gives the run `RunOf` |
| LoopFacts.SkipAfterRemoval | main.py:36-39 | every removed entry that is not last is followed by a Skipped one, and every Skipped entry follows a removed one |
| LoopFacts.PassReadsOracle | main.py:36-39 | the decided entries, in list order, are the checked ones, and each is Removed exactly when its own check returned NotFound (Kept when Exists) |
| LoopFacts.SkipExample | main.py:36-39 | with [a, b, c] where a is missing, b is never checked and stays, and c is checked: the list becomes [b, c] |
| LoopFacts.SurvivorsInOrder | main.py:36-39 | the list after a pass is the list before it with entries deleted, the rest in their order |
| LoopFacts.ValidationKeepsOrder | main.py:34-44 | across retried passes, the final list is the initial one with entries deleted, in order. Removals made before a failure persist |
| LoopFacts.InterruptedBy | main.py:37-45 | a pass that stops early was stopped by its last check: a connection failure for a retry, a key rejection for a rejection |
| LoopFacts.RetryRestarts | main.py:42-44 | after a connection failure, validation sleeps 60 s and starts over at the first entry of the list as the failed pass left it |
| LoopFacts.FirstCheck | main.py:36-37 | every validation begins by checking the first entry of the list |
| LoopFacts.CompletedPassValidates | main.py:40-41 | a pass that completes sets `valid_key` and leaves validation with that pass's survivors |
| LoopFacts.RejectedKeyNeverPolls | main.py:45-56 | when validation does not complete (key rejected), `valid_key` is false and the run holds only existence checks with the configured key and 60 s sleeps: no fetch, no log entry |
| LoopFacts.FetchRunReads | main.py:58-59 | every fetch before the last returned. An abandoned cycle's last fetch hit a connection failure, and a crashed cycle's last fetch hit another error |
| LoopFacts.LoggedCycle | main.py:58-63 | a successful cycle calls `get_forecast(days, key)` on every location in list order, then `log_forecasts(locations, "./logs/weather_log.txt")` once, then sleeps the interval |
| LoopFacts.NegativeIntervalStops | main.py:60-65 | with a negative interval, the first logged cycle's `sleep(interval)` raises ValueError, which is not caught: the program ends after that cycle's fetches, its log entry and the failed sleep |
| LoopFacts.AbandonedCycle | main.py:65-67 | a cycle hit by a connection failure writes no log entry and ends with a 60 s sleep |
| LoopFacts.PollingOnlyTouchesList | main.py:56-67 | polling never checks existence. Every log entry carries the whole unchanged list, every fetch is of one of its locations with the configured days and key, and every sleep is the interval or 60 s |
| LoopFacts.ValidatedRunPolls | main.py:26-67 | after a completed validation, the run is the validation's calls followed by polling over the validated list, sleeping minutes * 60 between cycles |

## Left out

- `read_config` (main.py:11-18) opens and parses `config.json`. The
  configuration values are parameters of `RunScript`; main.py checks none
  of them, and their effect is modelled only where main.py uses them.
- MainLoop.IntervalSeconds: the configured minutes are an integer. A
  fractional `polling_interval_in_minutes` (0.5 gives `sleep(30.0)`) is not
  modelled.
- `ingestor`, `log_forecasts`, `check_location_exists` and `get_forecast`
  are not part of this model. The last two are HTTP requests. Each call is
  an oracle outcome plus a trace event. `log_forecasts` is assumed to
  return normally.
- `get_forecast` stores its result in `forecasts`. That write is not
  modelled, and `Fetched` carries no data.
- `print` messages, `datetime.now()` and the Ctrl-C hint in the error text
  are console output, clock and OS signals. `sleep` is only an event
  carrying its duration.
- The polling loop never ends. It is observed for a bounded number of
  cycles, and both loops stop when their oracle has no further outcome.
- During polling, an exception other than a connection error or timeout
  ends the program. It is modelled as the `Terminated` ending, not as a raised
  exception.
- During validation, an exception other than those caught at main.py:42
  and 45 would propagate from `check_location_exists`. It is not among the
  outcomes, since that function's body is not part of this model.
- main.py's `locations` is a mutable list. It is modelled as a `seq` value
  that the loop reassigns (pop is `locs[..i] + locs[i+1..]`), so aliasing
  of that list is not captured.
- Observers.Observer.constructor: the `TypeError` for a missing argument
  (tests/test_observer.py:16-29) is enforced by the constructor's
  signature rather than stated as a contract.
- Temperatures are integers. Python would also accept floats or any other
  value, and `%s` would render them in its own way.

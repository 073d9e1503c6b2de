# maps-route collector, modelled in Dafny

`MapsRoute` polls a routing web API for one route at a fixed interval. On each
collection window it waits until the interval has elapsed, builds the request URL
from a base URL, a parameter mapping and an API key, and reads
`resourceSets[0].resources[0].travelDurationTraffic` from the decoded JSON
response. It appends `(timestamp, duration)` to its list of samples, or
`(timestamp, whole response)` when `store_json` is set, and rewrites the pickle
file that holds the list.

This project models that core and proves what it promises:

- `url.dfy` (module `Url`) is the URL `build_url` builds. It is the base URL, then
  `name=value&` for each entry whose value is not `None`, in the mapping's
  iteration order, then `key=<api key>`. No `?` is added and nothing is
  percent-encoded. A small query-string decoder gives the round trip that pins
  the format down, as long as no name holds `&` or `=` and no value or key holds
  `&`. A counterexample shows what a raw `&` in a value does.
- `json.dfy` (module `Json`) is the decoded JSON value and Python's subscript
  operator on it, including the exception each wrong shape raises. Subscripting
  a dict with `0` raises `KeyError`. Subscripting a list with a name raises
  `TypeError`. Subscripting a string with `0` gives its first character.
- `response.dfy` (module `Response`) is `parse_json`, the fixed path
  `["resourceSets"][0]["resources"][0]`, and the value selection of `get_packet`.
- `clock.dfy` (module `Clock`) is the waiting loop of `collect_data` over an
  abstract clock. The clock is the sequence of `datetime.now()` readings in the
  order they are taken. `clock[0]` is the window's start. If the readings run
  out, the process was stopped from outside.
- `maps_route.dfy` (module `MapsRoute`) is the class. `allData` is
  `self.all_data`, and the ghost field `persisted` is the pickle file. The class
  invariant `Synced` says the file holds exactly the in-memory list. The
  constructor establishes it and both collection methods keep it.
  `CollectData` is `collect_data` as written. `CollectWindow` is the corrected
  window (see Findings).
- `wrappers.dfy` (module `Wrappers`) holds `Option` and `Result`.

A collection window is meant to take one sample per call: the `collect_data`
docstring (maps_route.py:101-105) asks for data "at a specified interval", and the
example driver (maps_route.py:141-142) calls it in an endless loop. With
`interval <= 0` the code never samples, because the loop test at maps_route.py:107
fails before the first sleep, so that driver would spin forever without recording
anything. The model keeps this behaviour for the code as written (`CollectData`,
`Clock.AsWrittenNonPositiveInterval`) and gives the intended window separately
(`CollectWindow`, see Findings).

## Model

| member | source | states |
|---|---|---|
| `MapsRoute.MapsRoute.constructor` | maps_route.py:28-45 | the list is the stored one, or empty when there is no file; afterwards the file holds exactly the list |
| `MapsRoute.MapsRoute.BuildUrl` | maps_route.py:47-61 | the loop's result is the URL `Url.Build` describes: the base, each non-`None` entry's field in order, then `key=<api key>` |
| `Url.Build` | maps_route.py:55-61 | the URL starts with the base URL verbatim (no `?` added) and ends with `key=<api key>`; `Url.BuildShape` and `Url.FieldsAt` give the part in between |
| `Url.FieldOmitsOnlyNone` | maps_route.py:57-58 | an entry contributes nothing exactly when its value is `None`; an empty value still contributes `name=&` |
| `Url.FieldsAppend` | maps_route.py:56-58 | the fields of two runs of entries are the first run's fields followed by the second's |
| `Url.FieldsSplit` | maps_route.py:56-58 | the fields of all entries are those before entry `i`, then entry `i`'s field, then those after it |
| `Url.FieldsAt` | maps_route.py:56-58 | entry `i` contributes exactly `name=value&`, or nothing for `None`, between the fields of the entries before it and those after it |
| `Url.FieldsLength` | maps_route.py:58 | the fields are `|name| + |value| + 2` characters per present entry: names and values go in verbatim |
| `Url.BuildShape` | maps_route.py:55-61 | the URL starts with the base URL, ends with `key=<api key>` right after the fields, and has length base + fields + 4 + key |
| `Url.AllAbsent` | maps_route.py:55-60 | with no entries, or only `None` ones, the URL is exactly base + `key=` + api key |
| `Url.QueryRoundTrip` | maps_route.py:55-61 | when names hold no `&` or `=` and values and key hold no `&`, decoding the query gives the present `(name, value)` pairs in order, then `("key", api key)` |
| `Url.BuildRoundTrip` | maps_route.py:55-61 | the same round trip, read from the URL past the base URL |
| `Url.AmpersandSplitsValue` | maps_route.py:58 | with no encoding, the value `a&b` reads back as `q=a` plus a stray parameter `b` |
| `Json.Step` | maps_route.py:81 | one subscript, case by case: a dict holding the key gives its value and a dict without it raises `KeyError`; a long enough list gives the element, a long enough string its one-character string, and a too short one raises `IndexError`; a dict indexed by position raises `KeyError`; every other shape raises `TypeError` |
| `Json.WalkAppend` | maps_route.py:95 | a chain of subscripts taken in two pieces is the chain taken at once, failing at the first failing step |
| `Response.ParseJson` | maps_route.py:74-81 | a response that is not an object raises `TypeError`, one without `resourceSets` raises `KeyError("resourceSets")`; `Response.ParseJsonSucceeds` gives the full condition for success |
| `Response.ParseJsonSucceeds` | maps_route.py:81 | `parse_json` succeeds exactly when the response is an object with a non-empty `resourceSets` whose first entry is an object with a non-empty `resources`, and then returns the first resource |
| `Response.ParseJsonErrors` | maps_route.py:81 | a response that is not an object, or lacks `resourceSets`, has an empty list of sets, a first set without `resources`, or an empty list of resources, raises the matching exception |
| `Response.GetPacket` | maps_route.py:83-99 | a packet exists only when `parse_json` succeeds, carries the clock's timestamp, and holds the whole response when `return_json` is set; a `parse_json` exception passes through unchanged; `Response.GetPacketSelects` gives the rest |
| `Response.GetPacketSelects` | maps_route.py:93-99 | `get_packet` fails exactly when `resourceSets[0].resources[0].travelDurationTraffic` is missing, with that step's exception; otherwise it returns the clock's timestamp with the duration, or with the whole response when `return_json` is set |
| `Response.GetPacketOutcomeFixed` | maps_route.py:94-97 | whether `get_packet` fails, and with what, depends neither on the timestamp nor on `return_json` |
| `Response.SampleResponsePacket` | maps_route.py:93-99 | on `{"resourceSets":[{"resources":[{"travelDurationTraffic":42}]}]}` the packet holds 42, or the whole response when `return_json` is set |
| `Response.MissingResourceSetsFails` | maps_route.py:95 | a response without `resourceSets` yields `KeyError("resourceSets")` and no packet |
| `Clock.AsWritten` | maps_route.py:106-109 | the loop as written ends without sampling only at an elapsed loop test, and samples only at an elapsed test after a sleep whose preceding loop test had not elapsed |
| `Clock.FirstElapsedIs` | maps_route.py:107-109 | the intended wait ends at reading `k` exactly when `k` is the first reading at least `interval` past the start |
| `Clock.FirstElapsedNone` | maps_route.py:107-109 | the intended wait runs out of readings exactly when no reading reaches the interval |
| `Clock.AsWrittenStopsAtFirst` | maps_route.py:107-109 | the loop as written stops at that same first elapsed reading, and takes a sample only when that reading is a test after a sleep (maps_route.py:109), not a loop test (maps_route.py:107) |
| `Clock.AsWrittenNonPositiveInterval` | maps_route.py:107 | with `interval <= 0` the loop as written ends at its first test, without sampling |
| `Clock.FirstElapsedNonPositiveInterval` | maps_route.py:107-109 | with `interval <= 0` the intended wait fires after its first sleep |
| `Clock.MissedWindow` | maps_route.py:107-109 | readings 0, 0, 9, 10, 10 with interval 10: the loop as written ends without a sample while the intended wait fires at reading 3 |
| `MapsRoute.MapsRoute.CollectData` | maps_route.py:101-113 | at most one sample is appended, only at the end of the list, and the file then equals the list; the sample is taken after the interval elapsed and is `get_packet` of the response at the reading after the firing test; a failing `get_packet` appends nothing; the outcome follows `Clock.AsWritten` |
| `MapsRoute.MapsRoute.CollectWindow` | maps_route.py:101-113 | the corrected window: the same guarantees, firing at the first elapsed reading; when some reading before the last has elapsed and the response holds the duration, exactly one sample is appended |

## Left out

- `send_request` (maps_route.py:63-72): the HTTP GET and `json.loads` are network I/O and a foreign library. The decoded response is a parameter of `GetPacket`, `CollectData` and `CollectWindow`. Their exceptions (connection errors, and `ValueError` from `json.loads` on a body that is not JSON) are not modelled, so the `Failed` outcome covers only `get_packet`'s subscript exceptions.
- `get_packet`'s `url` and `print_url` arguments and both `print` calls (maps_route.py:91-92, 98): console output only. The URL that would be requested is returned as `requested`.
- The pickle format and file handling (maps_route.py:42-45, 113): the file is the ghost field `persisted`. An existing file's contents are the constructor's `stored` argument. A corrupt or unreadable file is not modelled.
- `datetime.now()`, `timedelta` and `sleep(10)` (maps_route.py:94, 106-109): replaced by a sequence of integer readings, one per `datetime.now()` call.
- `MapsRoute.MapsRoute.CollectData`: it requires non-decreasing readings. With a wall clock set back after a sample, the source's loop could run again and take a second sample. That case is not modelled.
- `str()` on arbitrary parameter values (maps_route.py:58): values are strings already. A non-string value such as `0` or `False` is the string `str()` would give.
- The parameter dict is a sequence of `(name, value)` pairs in iteration order. Python 2 leaves that order unspecified, so the model takes it as given.
- JSON numbers are integers; floating-point durations are not modelled.
- Timestamps are the integer clock readings, not `datetime` objects.
- `plot_data` (maps_route.py:116-117) is an empty stub. The `__main__` driver (maps_route.py:119-142) is an endless loop over hard-coded constants. Neither is modelled.

## Findings

| source | as written | input that shows it | evidently intended | confidence | as-written member | corrected member |
|---|---|---|---|---|---|---|
| maps_route.py:107-109 | after the test at maps_route.py:109 fails, the loop test at maps_route.py:107 reads the clock again at once; if the interval ran out in between, the window returns with no sample (`Clock.MissedWindow`, `Clock.AsWrittenStopsAtFirst`) | interval 10, readings 0 (start), 0, 9, 10, 10 | one sample per window, taken at the first reading past the interval | medium, not executed | `MapsRoute.MapsRoute.CollectData` | `MapsRoute.MapsRoute.CollectWindow` |
| maps_route.py:107 | with `interval <= 0` the loop test fails before the first sleep, so the window never samples | interval 0, readings 0, 0 | sample once, after one polling sleep | low, not executed | `Clock.AsWrittenNonPositiveInterval` | `Clock.FirstElapsedNonPositiveInterval` |

# ATP gateway: query rotation and error log line

This project models the parts of vn.py's ATP trading gateway
(`vnpy/gateway/atp/atp_gateway.py`) that have behaviour of their own:

- **The periodic query scheduler.** `init_query` resets a tick counter and
  installs the rotation `[query_account, query_position]`. On every timer
  event, `process_timer_event` increments the counter. While the counter is
  below 2 nothing else happens. On the second tick the counter goes back to 0,
  the head query is popped with `pop(0)`, run, and appended to the tail, and
  the market-data API is asked to refresh its date.
- **The error log line.** `write_error(msg, error)` looks up `error["ErrorID"]`
  and then `error["ErrorMsg"]`, and writes
  `msg + "，代码：" + ErrorID + "，信息：" + ErrorMsg` to the log.

The model has four modules:

- `Wrappers` (`wrappers.dfy`) holds an `Option` type.
- `Rotation` (`rotation.dfy`) holds the specification functions for the
  rotation. `Rotate` is one firing tick. `RotateN` is the list after n firing
  ticks. `Invocations` is the sequence of queries run by the first k firing
  ticks. Lemmas relate these step-by-step definitions to closed forms: the list
  is the initial list read cyclically, the i-th query run is
  `initial[i mod L]`, L firing ticks restore the list, and any L consecutive
  runs are a permutation of the initial list.
- `ErrorLog` (`error_log.dfy`) builds the error line. Its `KeyError` case
  models the exception the dictionary lookups raise. `ParseErrorLine` reads a
  line back into its three parts. The two round-trip lemmas show that
  `ParseErrorLine` inverts the line format exactly on reports whose message
  and code contain no full-width comma `，`. Without that condition two
  different reports can give the same line, whether the comma is in the
  message or in the code.
- `AtpGateway` (`atp_gateway.dfy`) holds the class `Gateway`. Its real fields
  are `count` and `queryFunctions`. Ghost fields record the calls the gateway
  makes into code outside the model: `invoked` holds the queries run since the
  last `init_query`, `dateUpdates` counts the market-data refresh requests,
  and `log` holds the lines written to the log sink. `Valid()` is the
  scheduler invariant. Between ticks `count` is 0 or 1. The number of ticks is
  twice the number of queries run, plus `count`. The run log is
  `Invocations(initial, runs)`. The list is `RotateN(initial, runs)`.

Queries run only on every second tick, so ticks 2, 4 and 6 run account,
position, account (`SixTicksAfterInit`).

## Model

| member | source | states |
|---|---|---|
| AtpGateway.Gateway.constructor | vnpy/gateway/atp/atp_gateway.py:49-54 | A new gateway has not registered its timer handler, has logged nothing and has requested no date refresh. |
| AtpGateway.Gateway.InitQuery | vnpy/gateway/atp/atp_gateway.py:113-117 | Sets `count` to 0 and the rotation to exactly account then position, registers the handler, and establishes the scheduler invariant with no queries run yet. |
| AtpGateway.Gateway.ProcessTimerEvent | vnpy/gateway/atp/atp_gateway.py:100-111 | Below 2, only `count` rises: nothing runs and the list is unchanged. On reaching 2, `count` is reset, exactly the old head runs, the new list is `old[1..] + [old[0]]`, and one date refresh is requested. Length and multiset of the list are kept. A query runs exactly when the tick leaves `count` at 0. The invariant is preserved. |
| AtpGateway.Gateway.ScheduleShape | vnpy/gateway/atp/atp_gateway.py:102-109 | Under the invariant, `count` is the tick count mod 2 and one query has run per two ticks, so queries run on ticks 2, 4, 6, and so on. The i-th run (from 0) is `initial[i mod 2]`: account, position, account, and so on. |
| AtpGateway.Gateway.WriteError | vnpy/gateway/atp/atp_gateway.py:93-98 | Appends exactly `FormatError`'s line to the log when both keys are present. On a missing key it reports `KeyError` and logs nothing. |
| AtpGateway.SixTicksAfterInit | vnpy/gateway/atp/atp_gateway.py:100-116 | Six ticks after `init_query` run nothing, account, nothing, position, nothing, account. |
| ErrorLog.ErrorLine | vnpy/gateway/atp/atp_gateway.py:97 | The line starts with the message, carries the code tag right after it, and ends with the error text. Its length is the sum of the five parts. |
| ErrorLog.FormatError | vnpy/gateway/atp/atp_gateway.py:95-97 | Succeeds if and only if both "ErrorID" and "ErrorMsg" are present. A missing "ErrorID" is reported before a missing "ErrorMsg". On success the result is the formatted line of the two values. |
| ErrorLog.ParseErrorLineRoundTrip | vnpy/gateway/atp/atp_gateway.py:97 | Parsing the formatted line gives back message, code and text whenever neither the message nor the code contains `，`. |
| ErrorLog.ParseErrorLineSound | vnpy/gateway/atp/atp_gateway.py:97 | Every line that parses is the formatted line of its parts, and those parts satisfy the round-trip condition. |
| ErrorLog.ErrorLineAmbiguousWithSeparator | vnpy/gateway/atp/atp_gateway.py:97 | Two pairs of different error reports that produce the same line. In the first pair both codes are free of `，`, so the message half of the round-trip condition is needed on its own. In the second pair both messages are free of `，`, so the code half is needed on its own. |
| Rotation.Rotate | vnpy/gateway/atp/atp_gateway.py:107-109 | `pop(0)` then `append` keeps the list's length. |
| Rotation.RotatePermutes | vnpy/gateway/atp/atp_gateway.py:107-109 | One firing tick neither adds nor drops a query: the multiset is unchanged. |
| Rotation.RotateN | vnpy/gateway/atp/atp_gateway.py:107-109 | The list after n firing ticks has the initial length. |
| Rotation.RotateNPermutes | vnpy/gateway/atp/atp_gateway.py:107-109 | After any number of firing ticks the list is a permutation of the initial list. |
| Rotation.RotateNAt | vnpy/gateway/atp/atp_gateway.py:107-109 | After n firing ticks, position i holds `initial[(n + i) mod L]`. |
| Rotation.RotateNPeriodic | vnpy/gateway/atp/atp_gateway.py:107-109 | L more firing ticks leave the list as it was. |
| Rotation.RotateNFullCycle | vnpy/gateway/atp/atp_gateway.py:107-116 | L firing ticks after `init_query` restore the initial order. |
| Rotation.FiringStep | vnpy/gateway/atp/atp_gateway.py:107-109 | From any reachable list, one firing tick runs `initial[k mod L]`, appends it to the run log, moves it to the tail and keeps the multiset. |
| Rotation.Invocations | vnpy/gateway/atp/atp_gateway.py:107-108 | k firing ticks run exactly k queries. |
| Rotation.InvocationsAt | vnpy/gateway/atp/atp_gateway.py:102-109 | The i-th query run (from 0) is `initial[i mod L]`: account, position, account, and so on. |
| Rotation.WindowIsRotation | vnpy/gateway/atp/atp_gateway.py:102-109 | Any L consecutive runs are the initial list rotated by the window's start. So they are a permutation of it, and no query is skipped or starved. |

## Left out

- `AtpMdApi` and `AtpTdApi` (lines 120-253): every method body is `pass`, so there is no behaviour to model.
- The forwarding wrappers `subscribe`, `send_order`, `cancel_order`, `query_account`, `query_position` and `close` (lines 68-91): they only call those stubs. Their effect in the scheduler is recorded as a `QueryOp` in the ghost `invoked` log.
- `connect` (lines 56-66): it reads a configuration dictionary and calls the stub APIs. Its only effect inside the model is the call to `init_query`, which is modelled.
- `event_engine.register` (line 117) is modelled only as the ghost flag `registered`. `process_timer_event` requires it, because the timer calls the handler only once it is registered. Whether a second `init_query` registers the handler a second time depends on `event_engine.register`, which is not modelled; the model's flag is simply set again.
- `self.md_api.update_date()` (line 111) is counted in the ghost `dateUpdates`. `AtpMdApi` in this file defines no `update_date`, so that call would raise at run time after the rotation is done. The model treats it as an external step.
- A query that raises: there is no `try`/`finally`, so the query would be popped and never appended again. Only the non-raising path is modelled.
- `write_log` is an inherited sink. It is modelled as an append to the ghost `log`.
- ErrorLog.FormatError: the error dictionary is modelled as `map<string, string>`. The source may pass a non-string `ErrorID`, which the f-string renders with `str`. The model takes that rendering as given.
- AtpGateway.Gateway.ProcessTimerEvent: it returns the query it ran, or `None`. The source returns nothing. This value is the `func` the source runs, exposed so that callers can state the order of runs.
- The `pytz` time zone constant, the timer thread and the event engine's threading: the model is sequential.

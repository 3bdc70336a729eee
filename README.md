# TriggerTest core in Dafny

A verified model of the three pieces of logic in TriggerTest, an Android tool that sends
periodic trigger bytes over a USB serial adapter:

- `ConnectionErrorManager` (module `ConnectionErrors`, file `connection_error_manager.dfy`). This is the
  connection state machine (`Connected` / `Disconnected` / `Error` plus an error code).
  - It ignores redundant updates and notifies one listener.
  - It appends `Error` transitions to an error log.
  - It retries with exponential backoff: at most 5 retries are counted, and the delay is `min(1000·2^n, 30000)` ms.
  - It is a class with the source's fields (`state`, `error`, `retryCount`, `listener`).
  - Ghost sequences record what the manager does to the outside world:
    - `listenerCalls` holds the listener invocations;
    - `errorLog` holds the appended log lines as (time, from, to, error);
    - `pending` holds the retry callbacks posted to the main-thread handler that have not run yet.
  - `FireRetry(k, reconnectOk, time)` is one posted callback running. `reconnectOk` stands for the result of
    `tryReconnect`.
- `TriggerGenerator` (module `Triggers`, file `trigger_generator.dfy`). This is a counter reported in the
  cycle 1..256, with start/stop/shutdown/reset.
  - It is a class with `counter`, `running`, `scheduled` and `shutDown`.
  - Ghost state records the values given to the listener (`emitted`), the registrations made and the
    error reports.
  - `Tick(listenerThrows)` is one run of `generateTrigger`.
  - The object invariant `Valid()` states the sequence theorem: the values emitted since the last reset are
    1, 2, …, 256, 1, 2, ….
- `UsbDeviceDetector.findSupportedDevice` (module `UsbDetection`, file `usb_detection.dfy`). This is a pure
  function over the vendor IDs of the attached devices, in iteration order. It returns the index of the
  first device whose vendor is one of the 11 supported vendors, or `None`.

`scenarios.dfy` replays these tests against the contracts: `testInitialState` and `testMultipleStateChanges`
of ConnectionErrorManagerTest, `testTriggerSequenceWrapsAt256` of TriggerGeneratorTest, and the USB detection
tests `testNoDevicesConnected`, `testMultipleDevicesPresent` and `testOnlyUnsupportedDevicePresent`. It also
replays the retry sequence after an `Error` transition: 1000, 2000, 4000, 8000, 16000 ms, after which retries
are exhausted.

Notes on what the code does:

- An accepted transition to a state other than `Error` only resets `retryCount`. `cancelRetries` also only
  resets the counter. Neither withdraws callbacks already posted. So a retry posted before a move to
  `Disconnected` still runs and, if reconnection fails, posts another one
  (`Scenarios.RetryContinuesWhileDisconnected`). Only `Connected` makes a posted retry a no-op.
- Every accepted `Error` transition schedules a retry while fewer than 5 are counted. This includes a change
  of error code while already in `Error`.
- The trigger counter changes only through `reset` and ticks.
- The ticks are registered with `scheduleAtFixedRate`; timing is not modelled.

## Model

| member | source | states |
|---|---|---|
| ConnectionErrors.BackoffDelay | app/src/main/java/dev/lucy/myapplication/ConnectionErrorManager.kt:131-135 | the delay lies in 1000..30000 ms, never exceeds 1000·2^n, and is either the cap or exactly 1000·2^n |
| ConnectionErrors.BackoffDoubles | app/src/main/java/dev/lucy/myapplication/ConnectionErrorManager.kt:132-135 | each next retry index doubles the previous delay until the 30000 ms cap |
| ConnectionErrors.BackoffMonotone | app/src/main/java/dev/lucy/myapplication/ConnectionErrorManager.kt:132-135 | delays never decrease as the retry index grows |
| ConnectionErrors.ScheduledDelays | app/src/main/java/dev/lucy/myapplication/ConnectionErrorManager.kt:90-92 | every index that can be scheduled (below 5) gets the uncapped delay, one of 1000, 2000, 4000, 8000, 16000 ms |
| ConnectionErrors.BackoffCapped | app/src/main/java/dev/lucy/myapplication/ConnectionErrorManager.kt:126-135 | indices from 5 on would give exactly the 30000 ms cap |
| ConnectionErrors.MessageIdentifiesCode | app/src/main/java/dev/lucy/myapplication/ConnectionErrorManager.kt:30-39 | each error code carries its own user-facing message (no two codes share one), and `NONE` reads "No error" |
| ConnectionErrors.ConnectionErrorManager.PendingDelays | app/src/main/java/dev/lucy/myapplication/ConnectionErrorManager.kt:90-92 | every retry callback ever waiting in the handler has a delay in {1000, 2000, 4000, 8000, 16000} ms, so none exceeds 30000 ms |
| ConnectionErrors.ConnectionErrorManager.constructor | app/src/main/java/dev/lucy/myapplication/ConnectionErrorManager.kt:41-51 | a fresh manager is `Disconnected` with no error, retry count 0, no listener, nothing logged or posted |
| ConnectionErrors.ConnectionErrorManager.GetState | app/src/main/java/dev/lucy/myapplication/ConnectionErrorManager.kt:102-104 | returns the state of the last accepted transition |
| ConnectionErrors.ConnectionErrorManager.GetError | app/src/main/java/dev/lucy/myapplication/ConnectionErrorManager.kt:109-111 | returns the error code of the last accepted transition |
| ConnectionErrors.ConnectionErrorManager.SetStateChangeListener | app/src/main/java/dev/lucy/myapplication/ConnectionErrorManager.kt:116-118 | the given listener replaces any earlier one |
| ConnectionErrors.ConnectionErrorManager.SetState | app/src/main/java/dev/lucy/myapplication/ConnectionErrorManager.kt:65-97 | a pair equal to the current one changes nothing at all. Otherwise: the new pair is current; the listener, if any, is called once with it; exactly one log entry (old, new, error) is appended if and only if the new state is `Error`; `Error` with count < 5 posts one retry with index = old count and delay `BackoffDelay(count)` and adds 1 to the count; `Error` at count 5 posts nothing; any other state sets the count to 0 and leaves posted retries alone. `retryCount <= 5` is preserved |
| ConnectionErrors.ConnectionErrorManager.ScheduleRetry | app/src/main/java/dev/lucy/myapplication/ConnectionErrorManager.kt:123-149 | the count always goes up by 1; an old count below 5 posts exactly one callback carrying that index and its backoff delay, a count at or over 5 posts none |
| ConnectionErrors.ConnectionErrorManager.AttemptReconnection | app/src/main/java/dev/lucy/myapplication/ConnectionErrorManager.kt:158-171 | success is the transition to (`Connected`, no error) with count 0 and one listener call; failure posts another retry only while the count is below 5, otherwise state, error, count and posted retries stay as they were |
| ConnectionErrors.ConnectionErrorManager.FireRetry | app/src/main/java/dev/lucy/myapplication/ConnectionErrorManager.kt:139-148 | the fired callback leaves the queue; when the state is `Connected` nothing else changes; otherwise it has exactly the reconnection outcome above |
| ConnectionErrors.ConnectionErrorManager.CancelRetries | app/src/main/java/dev/lucy/myapplication/ConnectionErrorManager.kt:173-176 | sets the count to 0 and modifies no other field: state, error, listener and posted retries are untouched |
| Triggers.TriggerValue | app/src/main/java/dev/lucy/myapplication/TriggerGenerator.kt:73-74 | the value reported for a counter lies in 1..256 and is congruent to the counter modulo 256 |
| Triggers.TickValue | app/src/main/java/dev/lucy/myapplication/TriggerGenerator.kt:73-74 | the k-th tick after a reset reports ((k-1) mod 256) + 1 |
| Triggers.NextTriggerValue | app/src/main/java/dev/lucy/myapplication/TriggerGenerator.kt:73-74 | consecutive counters give consecutive values, with 256 followed by 1: no skip, no repeat |
| Triggers.TriggerGenerator.constructor | app/src/main/java/dev/lucy/myapplication/TriggerGenerator.kt:21-29 | a fresh generator has counter 0, is not running, has no live registration and has emitted nothing |
| Triggers.TriggerGenerator.Start | app/src/main/java/dev/lucy/myapplication/TriggerGenerator.kt:34-44 | while running it changes nothing; otherwise it sets running and makes exactly one registration; the counter and the emitted values are untouched |
| Triggers.TriggerGenerator.Stop | app/src/main/java/dev/lucy/myapplication/TriggerGenerator.kt:49-54 | afterwards the generator is not running and has no live registration; when it was not running nothing changes; the counter is never touched |
| Triggers.TriggerGenerator.Shutdown | app/src/main/java/dev/lucy/myapplication/TriggerGenerator.kt:59-62 | afterwards the generator is not running, has no live registration and is shut down; the counter is kept |
| Triggers.TriggerGenerator.Tick | app/src/main/java/dev/lucy/myapplication/TriggerGenerator.kt:67-86 | the counter advances by 1 and the listener receives `TriggerValue` of the new counter, so the values since the last reset stay 1..256, 1, …; a throwing listener leads to exactly one error report and the generator ends not running, with the counter still advanced |
| Triggers.TriggerGenerator.GetCurrentTriggerValue | app/src/main/java/dev/lucy/myapplication/TriggerGenerator.kt:91-94 | reads without changing anything; the result is in 1..256, is 256 when the counter is 0, and equals the last value emitted since the last reset |
| Triggers.TriggerGenerator.Reset | app/src/main/java/dev/lucy/myapplication/TriggerGenerator.kt:99-101 | the counter becomes 0 so the next tick emits 1; running state and registrations are untouched |
| UsbDetection.SupportedPositions | app/src/test/java/dev/lucy/myapplication/UsbDetectionTest.kt:148-150 | the filter keeps exactly the positions of supported devices, each once, in list order |
| UsbDetection.FindSupportedDevice | app/src/test/java/dev/lucy/myapplication/UsbDetectionTest.kt:139-153 | null if and only if no device is supported; a result is a supported device with no supported device before it |
| UsbDetection.NoDevicesConnected | app/src/test/java/dev/lucy/myapplication/UsbDetectionTest.kt:143-145 | an empty device list yields null |
| UsbDetection.SelectsFirstSupported | app/src/test/java/dev/lucy/myapplication/UsbDetectionTest.kt:148-152 | a supported device preceded only by unsupported ones is the one selected |
| UsbDetection.InsertUnsupported | app/src/test/java/dev/lucy/myapplication/UsbDetectionTest.kt:148-152 | inserting an unsupported device anywhere selects the same device as before (at its shifted index) and never the inserted one |
| UsbDetection.AppendUnsupported | app/src/test/java/dev/lucy/myapplication/UsbDetectionTest.kt:148-152 | appending any number of unsupported devices leaves the result unchanged |

## Left out

- Threads and memory visibility are not modelled: `@Volatile`, `AtomicInteger`, the executor thread and
  posting to the main looper. Every operation is a sequential method call. A posted callback or a scheduled
  tick is an explicit `FireRetry` or `Tick` call.
- Real time is not modelled: the 1000 ms period, fixed-rate scheduling and delays elapsing. `FireRetry` may fire
  any posted callback, since the order in which the handler runs them depends on time.
- Android logging (`Log.d`/`Log.w`) and the log file are not modelled: the lazy creation of the `logs`
  directory, `FileOutputStream`, and the swallowed `IOException`. The error log is the ghost sequence
  `errorLog`. The timestamp is an opaque `Timestamp` parameter, and the text of the line is not built.
- The state-change listener is treated as a recorder of its calls. A listener that throws or calls back into
  the manager is not modelled.
- `tryReconnect` always returns false in the code. The model takes its result as the `reconnectOk` parameter,
  so `reconnectOk = false` is the code as written.
- ConnectionErrors.ConnectionErrorManager.AttemptReconnection: requires a state other than `Connected`. Its
  only caller, the posted callback, checks that just before calling it.
- `ScheduleRetry` can reach its "maximum retry count reached" branch only through its own contract. Both callers
  check the count first.
- The floating-point `2.0.pow(n)` and the `toLong` conversion are replaced by integer powers of two. These agree
  for every index: they are exact while the delay is below the cap, and both give 30000 ms beyond it.
- Triggers.TriggerGenerator.Tick: the counter is an unbounded `nat`. The 32-bit `AtomicInteger` would
  overflow after 2^31−1 ticks.
- Triggers.TriggerGenerator.Start: requires that the generator has not been shut down. The real executor would
  reject the registration with an exception, which is not modelled.
- The message text given to `onTriggerError` is not modelled; only the number of error reports is counted.
- The device list is the vendor IDs in the iteration order of the device map's values. The hash order of that
  map, the product IDs and the device names are not modelled.
- `MainActivity.kt` is not part of this model. It covers the UI, USB permission handling, the serial port,
  polling loops and drift display. Its vendor filter duplicates `UsbDeviceDetector`.

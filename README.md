# chattychimpchat device acquisition, modelled in Dafny

This project models two small pieces of the chattychimpchat device-automation
client.

The first is the device-acquisition logic of `AdbBackend`, the backend that
reaches Android devices over the Android debug bridge (ADB):

- `findAttachedDevice`: the first attached device, in the bridge's order, whose
  serial number fully matches a selector regex or equals the selector string;
- `waitForConnection(timeoutMs, regex)`: a do-while polling loop. It raises a
  timeout below 200 ms to 201 ms, polls the bridge every 200 ms, succeeds
  only when the first matching device is `ONLINE`, and registers every
  device it hands out;
- `waitForConnection()`: the same with `Integer.MAX_VALUE` ms and `".*"`;
- `shutdown`: disposes every registered device in list order, then
  terminates the bridge only if this backend initialised it (`initAdb`, the
  negation of the constructor's `noInitAdb`).

The second is the `AccessibilityIds` value nested in `IChimpView`. It is an
immutable pair of a window id (a Java `int`) and a node id (a Java `long`),
with a `(0, 0)` default.

Files:

- `java_types.dfy`, module `JavaTypes`: the newtypes `int32` and `int64` for
  Java's `int` and `long`.
- `chimp_view.dfy`, module `ChimpView`: `AccessibilityIds` as a datatype, with
  its two constructors and two getters.
- `adb_backend.dfy`, module `Adb`: the pure specification of a poll and of a
  whole wait, the lemmas about it, and the class `AdbBackend`.

How the environment is represented:

- The bridge is an oracle. The constant `reported: nat -> seq<Device>` is the
  device list that the n-th `getDevices()` call returns, and the field
  `polls` counts the calls made so far. A `Device` keeps the two things the
  backend reads: the serial number and the `DeviceState`.
- The regex engine is a second oracle, `RegexEngine(compiles, fullMatch)`.
  When `compiles(regex)` is false, `Pattern.compile` throws. The model returns
  `Err(PatternSyntax)` before the bridge is asked for anything, since compiling
  comes first in `findAttachedDevice`. A malformed selector is never treated
  as a literal.
- Every call into the bridge, `Thread.sleep` and `dispose` is appended to
  the ghost field `trace`, in order. The calls are `AndroidDebugBridge.init(false)`,
  `createBridge(location, true)`, `getDevices()`, `Thread.sleep(200)`,
  `dispose()` on a handed-out device, and `AndroidDebugBridge.terminate()`.
  Sleeping is therefore just a `Sleep(200)` entry. There is no clock.
- `Pattern.compile` and `matcher(serial).matches()` are not recorded in
  `trace`: they are answered by the `RegexEngine` oracle.
- `getSerialNumber()` and `getState()` are not recorded either: they are read
  from the `Device` values of the list that `reported` gives for that poll.
- `findAdb()` reads a system property and the file system. Its result is the
  constructor parameter `foundAdb`, used when no location is given.

The specification function `Adb.Wait` says what a wait with a given timeout
and selector ends in, after how many polls, given the polls already made. The
outcome is `Connected(device, polls)`, `TimedOut(polls)` or
`Raised(PatternSyntax)`. `AdbBackend.WaitForConnection` is proved against it
through `WaitEffects`, which fixes the result, the poll counter, the calls
recorded and the device list for each outcome. `WaitForConnectionDefaults` is
proved against the same predicate with `Integer.MAX_VALUE` and `".*"`. The
loop body is `PollOnce`: one poll, then either registering the device or the
one sleep.

Behaviour of the code that is easy to misread, and that the model keeps as
written:

- A malformed selector is not matched as a literal. `Pattern.compile` throws
  first.
- The regex match is tried first and string equality second. Both are
  evaluated on every serial until one device is accepted, so the order does
  not change which device is chosen.
- `shutdown` is not best-effort. The first exception from `dispose` ends the
  loop, and failures are not collected.
- `shutdown` does not clear `devices`. A second call disposes the same devices
  again; it does not see an empty set. In the model, `Shutdown` cannot change
  `devices` (its frame is `this`trace`).
- The 201 ms floor guarantees two polls only below 200 ms. A timeout of 200 ms
  gets one poll while 199 ms gets two (`Adb.FloorIsNotMonotone`).

## Model

| member | source | states |
|---|---|---|
| `Adb.FirstMatch` | src/main/java/de/clemensbartz/chattychimpchat/adb/AdbBackend.java:102-111 | the index returned is that of an accepted device (full regex match or equal to the selector) and no earlier device is accepted; `None` exactly when no device in the list is accepted |
| `Adb.AdbBackend.FindAttachedDevice` | src/main/java/de/clemensbartz/chattychimpchat/adb/AdbBackend.java:102-111 | a selector that does not compile raises before the bridge is asked; otherwise exactly one `getDevices` call is made and the result is the first accepted device of the list it returns, or `None` |
| `Adb.FirstMatchShadowsLaterOnes` | src/main/java/de/clemensbartz/chattychimpchat/adb/AdbBackend.java:104-128 | when the first accepted device is not online, the poll does not connect, even if a later accepted device is online |
| `Adb.EffectiveTimeout` | src/main/java/de/clemensbartz/chattychimpchat/adb/AdbBackend.java:121-124 | after the floor, the timeout is at least one period and never shorter than the one given; a timeout below 200 ms becomes 201 ms, and any other is used unchanged |
| `Adb.ShortTimeoutPollsTwice` | src/main/java/de/clemensbartz/chattychimpchat/adb/AdbBackend.java:121-124 | every timeout below 200 ms, negative ones included, becomes exactly 201 ms, which allows exactly two polls |
| `Adb.FloorIsNotMonotone` | src/main/java/de/clemensbartz/chattychimpchat/adb/AdbBackend.java:121-136 | 199 ms allows two polls but 200 ms allows only one |
| `Adb.PollBudget` | src/main/java/de/clemensbartz/chattychimpchat/adb/AdbBackend.java:125-136 | the do-while body runs `n >= 1` times for a positive timeout `t`, where `(n - 1) * 200 < t <= n * 200` |
| `Adb.PollBudgetIsCeiling` | src/main/java/de/clemensbartz/chattychimpchat/adb/AdbBackend.java:125-136 | the number of polls is the ceiling of t / 200 |
| `Adb.FirstConnectingPollIsEarliest` | src/main/java/de/clemensbartz/chattychimpchat/adb/AdbBackend.java:125-136 | the poll where a wait stops is in range, connects, and every earlier poll of the wait failed |
| `Adb.NoConnectingPollIffAllFail` | src/main/java/de/clemensbartz/chattychimpchat/adb/AdbBackend.java:125-136 | a run of polls finds nothing exactly when every poll in it fails |
| `Adb.NoConnectingPollExtends` | src/main/java/de/clemensbartz/chattychimpchat/adb/AdbBackend.java:125-136 | one more failed poll after a run of failed polls is again a run with no connecting poll |
| `Adb.Wait` | src/main/java/de/clemensbartz/chattychimpchat/adb/AdbBackend.java:118-140 | a wait raises exactly when the selector does not compile; a timed-out wait made exactly the allowed number of polls; a successful one made between 1 and that many |
| `Adb.WaitOutcomeMeaning` | src/main/java/de/clemensbartz/chattychimpchat/adb/AdbBackend.java:126-139 | a connected device is the first accepted device of the last poll, it is online, and all earlier polls failed; a timed-out wait saw no poll connect |
| `Adb.WaitConnectsAt` | src/main/java/de/clemensbartz/chattychimpchat/adb/AdbBackend.java:126-131 | when the first `k` polls fail and poll `k + 1` connects within the allowed polls, the wait ends there with that poll's device |
| `Adb.TimesOutIffNoPollConnects` | src/main/java/de/clemensbartz/chattychimpchat/adb/AdbBackend.java:125-139 | the wait returns null exactly when the selector compiles and none of the allowed polls connects |
| `Adb.WaitPollsAtLeastOnce` | src/main/java/de/clemensbartz/chattychimpchat/adb/AdbBackend.java:125-136 | with a compiling selector, every wait polls at least once, whatever the timeout |
| `Adb.FirstPollConnects` | src/main/java/de/clemensbartz/chattychimpchat/adb/AdbBackend.java:125-131 | a device that connects on the first poll is returned after that one poll, so no sleep happens |
| `Adb.OnlineOnThirdPoll` | src/main/java/de/clemensbartz/chattychimpchat/adb/AdbBackend.java:125-136 | a device seen offline, then in the bootloader, then online, is returned on the third poll of a 500 ms wait |
| `Adb.DefaultWaitBudget` | src/main/java/de/clemensbartz/chattychimpchat/adb/AdbBackend.java:113-116 | the no-argument wait allows ceil(2147483647 / 200) = 10737419 polls |
| `Adb.UnansweredAlternates` | src/main/java/de/clemensbartz/chattychimpchat/adb/AdbBackend.java:126-135 | in `k` failed polls, each `getDevices` call is followed by exactly one 200 ms sleep, and there are `2k` calls |
| `Adb.DisposeAll` | src/main/java/de/clemensbartz/chattychimpchat/adb/AdbBackend.java:143-145 | one `dispose` call per device, at the device's own position in the list |
| `Adb.AdbBackend.constructor` | src/main/java/de/clemensbartz/chattychimpchat/adb/AdbBackend.java:59-73 | `initAdb == !noInitAdb`; the bridge is initialised only when `initAdb`, then created at the given location (or the found one) with `forceNewBridge`; no devices, no polls |
| `Adb.AdbBackend.Default` | src/main/java/de/clemensbartz/chattychimpchat/adb/AdbBackend.java:48-50 | the default constructor initialises the bridge and creates it at the found location |
| `Adb.AdbBackend.PollOnce` | src/main/java/de/clemensbartz/chattychimpchat/adb/AdbBackend.java:126-135 | one loop round: a device that connects is wrapped fresh and appended to `devices` with no sleep; otherwise nothing is registered and exactly one 200 ms sleep follows the poll |
| `Adb.AdbBackend.WaitForConnection` | src/main/java/de/clemensbartz/chattychimpchat/adb/AdbBackend.java:118-140 | the result, the number of polls, the calls recorded (polls and sleeps alternating, no sleep after the connecting poll) and `devices` are those `Wait` gives; on success `devices` grows by exactly the fresh returned device at its end; on a timeout or an error `devices` is unchanged |
| `Adb.AdbBackend.WaitForConnectionDefaults` | src/main/java/de/clemensbartz/chattychimpchat/adb/AdbBackend.java:113-116 | exactly the effects of `WaitForConnection(Integer.MAX_VALUE, ".*")` |
| `Adb.AdbBackend.Shutdown` | src/main/java/de/clemensbartz/chattychimpchat/adb/AdbBackend.java:142-149 | `dispose` is called on every registered device in list order, `devices` is left as it was, and `terminate` follows exactly when `initAdb` |
| `ChimpView.Unassigned` | src/main/java/de/clemensbartz/chattychimpchat/core/IChimpView.java:38-41 | the default ids have window id 0 and node id 0 |
| `ChimpView.Make` | src/main/java/de/clemensbartz/chattychimpchat/core/IChimpView.java:43-55 | the getters return exactly the window id and node id given to the constructor |
| `ChimpView.IdsFitJavaWidths` | src/main/java/de/clemensbartz/chattychimpchat/core/IChimpView.java:35-36 | the window id fits a 32-bit signed `int` and the node id a 64-bit signed `long` |
| `ChimpView.UnassignedLooksLikeOrigin` | src/main/java/de/clemensbartz/chattychimpchat/core/IChimpView.java:38-47 | through its getters the default cannot be told apart from ids built for window 0, node 0 |

## Left out

- `findAdb` reads a system property and checks the file system. Its result is a constructor parameter.
- `AndroidDebugBridge.init`, `createBridge`, `terminate` and `getDevices` are foreign library calls. They appear only as entries in `trace`, with `getDevices` answered by the `reported` oracle.
- The `java.util.regex` engine is the `RegexEngine` oracle. Which selectors compile and what they match is not modelled.
- `Thread.sleep` is a `Sleep(200)` entry in `trace`. `InterruptedException` is not modelled, because interruption comes from concurrency.
- `IOException`, `AdbCommandRejectedException` and `TimeoutException` from the bridge or from `dispose` are foreign failures and are not modelled. In the source, the first one escapes `shutdown` and the remaining devices are not disposed.
- `AdbChimpDevice` is reduced to the `Device` it wraps. Its own behaviour, `dispose` included, is not part of this model. The logger is not modelled either.
- `DeviceState` lists ddmlib's states for readability. Only `Online` matters to the backend.
- Every method of the `IChimpView` interface (`setManager`, `getViewClass`, `getText`, `getLocation`, the flag getters and setters, `getParent`, `getChildren`, `getAccessibilityIds`) is a declaration without a body, so there is nothing to model.
- Equality of `AccessibilityIds` values is not claimed. The Java class defines neither `equals` nor `hashCode`, so two instances with the same ids are different objects.
- That the final fields of `AccessibilityIds` never change needs no member: a Dafny datatype value cannot change.

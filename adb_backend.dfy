/**
 * Device acquisition in `AdbBackend`: finding an attached device whose serial
 * matches a selector, waiting for it to come online under a timeout, and
 * releasing everything on shutdown.
 *
 * The Android debug bridge is an oracle: `reported(n)` is the device list that
 * the n-th call of `getDevices()` returns. The regular-expression engine is a
 * second oracle (`RegexEngine`). Every call into foreign code (bridge
 * initialisation and termination, `getDevices`, `Thread.sleep`, `dispose`) is
 * recorded, in order, in the backend's ghost `trace`.
 */
module Adb {
  import opened JavaTypes

  /** `CONNECTION_ITERATION_TIMEOUT_MS`: the polling period. */
  const ConnectionIterationTimeoutMs: int64 := 200

  datatype Option<+T> = None | Some(value: T)

  /** The one failure the model keeps: `Pattern.compile` rejects the selector. */
  datatype Failure = PatternSyntax

  datatype Result<+T> = Ok(value: T) | Err(error: Failure)

  /** ddmlib's `IDevice.DeviceState`; only `Online` is told apart by the backend. */
  datatype DeviceState = Bootloader | Offline | Online | Recovery | Unauthorized | Sideload | Disconnected

  /** What the backend reads of an attached `IDevice`: its serial number and state. */
  datatype Device = Device(serial: string, state: DeviceState)

  /**
   * `java.util.regex` as seen from the backend: whether a selector compiles,
   * and whether a compiled selector matches a whole serial number.
   */
  datatype RegexEngine = RegexEngine(compiles: string -> bool, fullMatch: (string, string) -> bool)

  /** A serial is accepted on a full regular-expression match or on string equality. */
  predicate Accepts(engine: RegexEngine, regex: string, serial: string) {
    engine.fullMatch(regex, serial) || serial == regex
  }

  /** Index of the first device, in bridge order, whose serial is accepted. */
  function FirstMatch(engine: RegexEngine, regex: string, ds: seq<Device>): (r: Option<nat>)
    ensures r.Some? ==> r.value < |ds| && Accepts(engine, regex, ds[r.value].serial)
    ensures r.Some? ==> forall j :: 0 <= j < r.value ==> !Accepts(engine, regex, ds[j].serial)
    ensures r.None? ==> forall j :: 0 <= j < |ds| ==> !Accepts(engine, regex, ds[j].serial)
  {
    if |ds| == 0 then None
    else if Accepts(engine, regex, ds[0].serial) then Some(0)
    else
      match FirstMatch(engine, regex, ds[1..])
      case None => None
      case Some(i) => Some(i + 1)
  }

  /** What `findAttachedDevice` returns for one device list (`None` for null). */
  function Candidate(engine: RegexEngine, regex: string, ds: seq<Device>): Option<Device> {
    match FirstMatch(engine, regex, ds)
    case None => None
    case Some(i) => Some(ds[i])
  }

  /** A poll that sees this device list ends the wait. */
  predicate Connects(engine: RegexEngine, regex: string, ds: seq<Device>) {
    var c := Candidate(engine, regex, ds);
    c.Some? && c.value.state == Online
  }

  /**
   * Only the first accepted device is ever considered: when it is not online,
   * the poll fails, even if a later accepted device is online.
   */
  lemma FirstMatchShadowsLaterOnes(engine: RegexEngine, regex: string, ds: seq<Device>, i: nat, j: nat)
    requires i < j < |ds|
    requires Accepts(engine, regex, ds[i].serial) && Accepts(engine, regex, ds[j].serial)
    requires forall k :: 0 <= k < i ==> !Accepts(engine, regex, ds[k].serial)
    requires ds[i].state != Online && ds[j].state == Online
    ensures FirstMatch(engine, regex, ds) == Some(i)
    ensures !Connects(engine, regex, ds)
  {
  }

  /** The timeout after the floor: anything below one period becomes one period plus one. */
  function EffectiveTimeout(timeoutMs: int64): (t: int64)
    ensures t >= ConnectionIterationTimeoutMs && t >= timeoutMs
    ensures timeoutMs < ConnectionIterationTimeoutMs ==> t == ConnectionIterationTimeoutMs + 1
    ensures timeoutMs >= ConnectionIterationTimeoutMs ==> t == timeoutMs
  {
    if timeoutMs < ConnectionIterationTimeoutMs then ConnectionIterationTimeoutMs + 1 else timeoutMs
  }

  /**
   * How often the body of `do { ...; t -= 200; } while (t > 0)` runs when `t`
   * starts positive: the number of polls a wait of `t` ms allows.
   */
  function PollBudget(t: int): (n: nat)
    requires t > 0
    ensures n >= 1
    ensures (n - 1) * 200 < t <= n * 200
    decreases t
  {
    if t - ConnectionIterationTimeoutMs as int > 0 then 1 + PollBudget(t - ConnectionIterationTimeoutMs as int) else 1
  }

  /** The loop runs the ceiling of t / 200 times. */
  lemma {:induction false} PollBudgetIsCeiling(t: int)
    requires t > 0
    ensures PollBudget(t) == (t + 199) / 200
    decreases t
  {
    if t > 200 {
      PollBudgetIsCeiling(t - 200);
    }
  }

  /** Below one period the floor gives 201 ms, that is, exactly two polls. */
  lemma ShortTimeoutPollsTwice(timeoutMs: int64)
    requires timeoutMs < ConnectionIterationTimeoutMs
    ensures EffectiveTimeout(timeoutMs) == 201
    ensures PollBudget(EffectiveTimeout(timeoutMs) as int) == 2
  {
  }

  /** The floor is not monotone: 199 ms allows two polls, 200 ms only one. */
  lemma FloorIsNotMonotone()
    ensures PollBudget(EffectiveTimeout(199) as int) == 2
    ensures PollBudget(EffectiveTimeout(200) as int) == 1
  {
  }

  /** The first poll, among `count` polls from number `first` on, that ends the wait. */
  function FirstConnectingPoll(engine: RegexEngine, regex: string, reported: nat -> seq<Device>, first: nat, count: nat): Option<nat>
    decreases count
  {
    if count == 0 then None
    else if Connects(engine, regex, reported(first)) then Some(first)
    else FirstConnectingPoll(engine, regex, reported, first + 1, count - 1)
  }

  /** `FirstConnectingPoll` finds the earliest connecting poll in its range. */
  lemma {:induction false} FirstConnectingPollIsEarliest(engine: RegexEngine, regex: string, reported: nat -> seq<Device>, first: nat, count: nat, p: nat)
    requires FirstConnectingPoll(engine, regex, reported, first, count) == Some(p)
    ensures first <= p < first + count && Connects(engine, regex, reported(p))
    ensures forall q :: first <= q < p ==> !Connects(engine, regex, reported(q))
    decreases count
  {
    if !Connects(engine, regex, reported(first)) {
      FirstConnectingPollIsEarliest(engine, regex, reported, first + 1, count - 1, p);
    }
  }

  /** `FirstConnectingPoll` finds nothing exactly when no poll in its range connects. */
  lemma {:induction false} NoConnectingPollIffAllFail(engine: RegexEngine, regex: string, reported: nat -> seq<Device>, first: nat, count: nat)
    ensures FirstConnectingPoll(engine, regex, reported, first, count).None? <==>
      forall q :: first <= q < first + count ==> !Connects(engine, regex, reported(q))
    decreases count
  {
    if count > 0 && !Connects(engine, regex, reported(first)) {
      NoConnectingPollIffAllFail(engine, regex, reported, first + 1, count - 1);
    }
  }

  /** A further poll that does not connect leaves the search without a connecting poll. */
  lemma {:induction false} NoConnectingPollExtends(engine: RegexEngine, regex: string, reported: nat -> seq<Device>, first: nat, k: nat)
    requires FirstConnectingPoll(engine, regex, reported, first, k).None?
    requires !Connects(engine, regex, reported(first + k))
    ensures FirstConnectingPoll(engine, regex, reported, first, k + 1).None?
    decreases k
  {
    if k > 0 {
      NoConnectingPollExtends(engine, regex, reported, first + 1, k - 1);
    }
  }

  /** The end of a wait, with the number of polls it made. */
  datatype WaitOutcome = Connected(device: Device, polls: nat) | TimedOut(polls: nat) | Raised(error: Failure)

  /**
   * What `waitForConnection(timeoutMs, regex)` does when the bridge has
   * already answered `first` polls.
   */
  function Wait(engine: RegexEngine, regex: string, reported: nat -> seq<Device>, first: nat, timeoutMs: int64): (w: WaitOutcome)
    ensures w.Raised? <==> !engine.compiles(regex)
    ensures w.TimedOut? ==> w.polls == PollBudget(EffectiveTimeout(timeoutMs) as int)
    ensures w.Connected? ==> 1 <= w.polls <= PollBudget(EffectiveTimeout(timeoutMs) as int)
  {
    if !engine.compiles(regex) then Raised(PatternSyntax)
    else
      var budget := PollBudget(EffectiveTimeout(timeoutMs) as int);
      match FirstConnectingPoll(engine, regex, reported, first, budget)
      case None => TimedOut(budget)
      case Some(p) =>
        FirstConnectingPollIsEarliest(engine, regex, reported, first, budget, p);
        Connected(Candidate(engine, regex, reported(p)).value, p - first + 1)
  }

  /**
   * A wait that connects takes the first accepted device of its last poll,
   * which is online, after polls that all failed; a wait that times out saw
   * no poll connect.
   */
  lemma WaitOutcomeMeaning(engine: RegexEngine, regex: string, reported: nat -> seq<Device>, first: nat, timeoutMs: int64)
    ensures var w := Wait(engine, regex, reported, first, timeoutMs);
      w.TimedOut? ==> forall p :: first <= p < first + w.polls ==> !Connects(engine, regex, reported(p))
    ensures var w := Wait(engine, regex, reported, first, timeoutMs);
      w.Connected? ==>
        Candidate(engine, regex, reported(first + w.polls - 1)) == Some(w.device) &&
        w.device.state == Online && Accepts(engine, regex, w.device.serial) &&
        forall p :: first <= p < first + w.polls - 1 ==> !Connects(engine, regex, reported(p))
  {
    if engine.compiles(regex) {
      var budget := PollBudget(EffectiveTimeout(timeoutMs) as int);
      NoConnectingPollIffAllFail(engine, regex, reported, first, budget);
      var r := FirstConnectingPoll(engine, regex, reported, first, budget);
      if r.Some? {
        FirstConnectingPollIsEarliest(engine, regex, reported, first, budget, r.value);
      }
    }
  }

  /** A wait whose first `k` polls fail and whose next poll connects ends with that poll. */
  lemma WaitConnectsAt(engine: RegexEngine, regex: string, reported: nat -> seq<Device>, first: nat, timeoutMs: int64, k: nat)
    requires engine.compiles(regex)
    requires k < PollBudget(EffectiveTimeout(timeoutMs) as int)
    requires FirstConnectingPoll(engine, regex, reported, first, k).None?
    requires Connects(engine, regex, reported(first + k))
    ensures Wait(engine, regex, reported, first, timeoutMs) == Connected(Candidate(engine, regex, reported(first + k)).value, k + 1)
  {
    var budget := PollBudget(EffectiveTimeout(timeoutMs) as int);
    NoConnectingPollIffAllFail(engine, regex, reported, first, k);
    NoConnectingPollIffAllFail(engine, regex, reported, first, budget);
    var r := FirstConnectingPoll(engine, regex, reported, first, budget);
    if r.Some? {
      FirstConnectingPollIsEarliest(engine, regex, reported, first, budget, r.value);
    }
  }

  /** A wait times out exactly when the selector compiles and none of its polls connects. */
  lemma TimesOutIffNoPollConnects(engine: RegexEngine, regex: string, reported: nat -> seq<Device>, first: nat, timeoutMs: int64)
    ensures Wait(engine, regex, reported, first, timeoutMs).TimedOut? <==>
      engine.compiles(regex) &&
      forall p :: first <= p < first + PollBudget(EffectiveTimeout(timeoutMs) as int) ==> !Connects(engine, regex, reported(p))
  {
    NoConnectingPollIffAllFail(engine, regex, reported, first, PollBudget(EffectiveTimeout(timeoutMs) as int));
  }

  /** Unless the selector fails to compile, every wait polls at least once. */
  lemma WaitPollsAtLeastOnce(engine: RegexEngine, regex: string, reported: nat -> seq<Device>, first: nat, timeoutMs: int64)
    requires engine.compiles(regex)
    ensures Wait(engine, regex, reported, first, timeoutMs).polls >= 1
  {
  }

  /** A device that is connectable on the first poll is taken there, after one poll and no sleep. */
  lemma FirstPollConnects(engine: RegexEngine, regex: string, reported: nat -> seq<Device>, first: nat, timeoutMs: int64)
    requires engine.compiles(regex) && Connects(engine, regex, reported(first))
    ensures Wait(engine, regex, reported, first, timeoutMs) == Connected(Candidate(engine, regex, reported(first)).value, 1)
  {
  }

  /**
   * A device seen offline, then in the bootloader, then online, with a 500 ms
   * timeout: the wait connects on the third of its three polls.
   */
  lemma OnlineOnThirdPoll(engine: RegexEngine, reported: nat -> seq<Device>)
    requires engine.compiles(".*") && engine.fullMatch(".*", "emulator-5554")
    requires reported(0) == [Device("emulator-5554", Offline)]
    requires reported(1) == [Device("emulator-5554", Bootloader)]
    requires reported(2) == [Device("emulator-5554", Online)]
    ensures Wait(engine, ".*", reported, 0, 500) == Connected(Device("emulator-5554", Online), 3)
  {
    assert PollBudget(EffectiveTimeout(500) as int) == 3;
    assert !Connects(engine, ".*", reported(0));
    assert !Connects(engine, ".*", reported(1));
    assert Connects(engine, ".*", reported(2));
    assert FirstConnectingPoll(engine, ".*", reported, 0, 3) == Some(2);
  }

  /** The no-argument overload waits `Integer.MAX_VALUE` ms: 10737419 polls. */
  lemma DefaultWaitBudget()
    ensures PollBudget(EffectiveTimeout(IntegerMaxValue as int64) as int) == 10737419
  {
    PollBudgetIsCeiling(IntegerMaxValue as int);
  }

  /** `AdbChimpDevice`: the device object handed out for an online `IDevice`. */
  class AdbChimpDevice {
    const device: Device

    constructor (device: Device)
      ensures this.device == device
    {
      this.device := device;
    }
  }

  /** A call into code outside the backend. */
  datatype Effect =
    | Init(debuggerSupport: bool)
    | CreateBridge(location: string, forceNewBridge: bool)
    | GetDevices
    | Sleep(ms: int64)
    | Dispose(device: AdbChimpDevice)
    | Terminate

  /** The calls made by `k` polls that did not connect. */
  function Unanswered(k: nat): seq<Effect> {
    if k == 0 then [] else Unanswered(k - 1) + [GetDevices] + [Sleep(ConnectionIterationTimeoutMs)]
  }

  /** In `k` polls that did not connect, each `getDevices` is followed by exactly one 200 ms sleep. */
  lemma {:induction false} UnansweredAlternates(k: nat)
    ensures |Unanswered(k)| == 2 * k
    ensures forall i :: 0 <= i < 2 * k ==>
      Unanswered(k)[i] == if i % 2 == 0 then GetDevices else Sleep(ConnectionIterationTimeoutMs)
  {
    if k > 0 {
      UnansweredAlternates(k - 1);
    }
  }

  /** One `dispose` call per device, in list order. */
  function DisposeAll(ds: seq<AdbChimpDevice>): (s: seq<Effect>)
    ensures |s| == |ds|
    ensures forall i :: 0 <= i < |ds| ==> s[i] == Dispose(ds[i])
  {
    if ds == [] then [] else DisposeAll(ds[..|ds| - 1]) + [Dispose(ds[|ds| - 1])]
  }

  class AdbBackend {
    /** Whether this backend initialised the bridge, and so must terminate it. */
    const initAdb: bool
    const engine: RegexEngine
    /** The device list the bridge reports at each successive `getDevices()` call. */
    const reported: nat -> seq<Device>
    /** Every device handed out by `WaitForConnection`, in order. */
    var devices: seq<AdbChimpDevice>
    /** How many times `getDevices()` has been called. */
    var polls: nat
    ghost var trace: seq<Effect>

    /**
     * `AdbBackend(adbLocation, noInitAdb)`. `foundAdb` is what `findAdb()`
     * would return; it is used only when no location is given.
     */
    constructor (adbLocation: Option<string>, noInitAdb: bool, foundAdb: string,
                 engine: RegexEngine, reported: nat -> seq<Device>)
      ensures initAdb == !noInitAdb
      ensures this.engine == engine && this.reported == reported
      ensures devices == [] && polls == 0
      ensures trace == (if initAdb then [Init(false)] else [])
                       + [CreateBridge(if adbLocation.Some? then adbLocation.value else foundAdb, true)]
    {
      initAdb := !noInitAdb;
      this.engine := engine;
      this.reported := reported;
      devices := [];
      polls := 0;
      var location := if adbLocation.Some? then adbLocation.value else foundAdb;
      trace := (if noInitAdb then [] else [Init(false)]) + [CreateBridge(location, true)];
    }

    /** `AdbBackend()`: no location given, and the bridge is initialised. */
    constructor Default(foundAdb: string, engine: RegexEngine, reported: nat -> seq<Device>)
      ensures initAdb
      ensures this.engine == engine && this.reported == reported
      ensures devices == [] && polls == 0
      ensures trace == [Init(false), CreateBridge(foundAdb, true)]
    {
      initAdb := true;
      this.engine := engine;
      this.reported := reported;
      devices := [];
      polls := 0;
      trace := [Init(false), CreateBridge(foundAdb, true)];
    }

    /**
     * `findAttachedDevice`: compile the selector, ask the bridge for its
     * devices, and return the first one whose serial is accepted.
     */
    method FindAttachedDevice(deviceIdRegex: string) returns (r: Result<Option<Device>>)
      modifies this`polls, this`trace
      ensures !engine.compiles(deviceIdRegex) ==>
        r == Err(PatternSyntax) && polls == old(polls) && trace == old(trace)
      ensures engine.compiles(deviceIdRegex) ==>
        r == Ok(Candidate(engine, deviceIdRegex, reported(old(polls)))) &&
        polls == old(polls) + 1 && trace == old(trace) + [GetDevices]
    {
      if !engine.compiles(deviceIdRegex) {
        return Err(PatternSyntax);
      }
      var attached := reported(polls);
      polls := polls + 1;
      trace := trace + [GetDevices];
      var i := 0;
      while i < |attached|
        invariant 0 <= i <= |attached|
        invariant forall j :: 0 <= j < i ==> !Accepts(engine, deviceIdRegex, attached[j].serial)
      {
        var serialNumber := attached[i].serial;
        if engine.fullMatch(deviceIdRegex, serialNumber) || serialNumber == deviceIdRegex {
          return Ok(Some(attached[i]));
        }
        i := i + 1;
      }
      return Ok(None);
    }

    /**
     * What a wait leaves behind, against the state before it: the result,
     * the polls made, the calls recorded and the device list.
     */
    twostate predicate WaitEffects(timeoutMs: int64, deviceIdRegex: string, new r: Result<Option<AdbChimpDevice>>)
      reads this
    {
      match Wait(engine, deviceIdRegex, reported, old(polls), timeoutMs)
      case Raised(e) =>
        r == Err(e) && polls == old(polls) && trace == old(trace) && devices == old(devices)
      case TimedOut(n) =>
        r == Ok(None) && polls == old(polls) + n && trace == old(trace) + Unanswered(n) &&
        devices == old(devices)
      case Connected(d, n) =>
        r.Ok? && r.value.Some? && fresh(r.value.value) && r.value.value.device == d &&
        polls == old(polls) + n && trace == old(trace) + Unanswered(n - 1) + [GetDevices] &&
        devices == old(devices) + [r.value.value]
    }

    /**
     * One round of the wait loop: look for the device and hand it out if it
     * is online; otherwise sleep one period.
     */
    method PollOnce(deviceIdRegex: string) returns (r: Result<Option<AdbChimpDevice>>)
      modifies this
      ensures !engine.compiles(deviceIdRegex) ==>
        r == Err(PatternSyntax) && polls == old(polls) && trace == old(trace) && devices == old(devices)
      ensures engine.compiles(deviceIdRegex) ==> r.Ok? && polls == old(polls) + 1
      ensures engine.compiles(deviceIdRegex) && Connects(engine, deviceIdRegex, reported(old(polls))) ==>
        r.value.Some? && fresh(r.value.value) &&
        Some(r.value.value.device) == Candidate(engine, deviceIdRegex, reported(old(polls))) &&
        trace == old(trace) + [GetDevices] && devices == old(devices) + [r.value.value]
      ensures engine.compiles(deviceIdRegex) && !Connects(engine, deviceIdRegex, reported(old(polls))) ==>
        r.value.None? && trace == old(trace) + [GetDevices] + [Sleep(ConnectionIterationTimeoutMs)] &&
        devices == old(devices)
    {
      var found := FindAttachedDevice(deviceIdRegex);
      if found.Err? {
        return Err(found.error);
      }
      var device := found.value;
      if device.Some? && device.value.state == Online {
        var chimpDevice := new AdbChimpDevice(device.value);
        devices := devices + [chimpDevice];
        return Ok(Some(chimpDevice));
      }
      trace := trace + [Sleep(ConnectionIterationTimeoutMs)];
      return Ok(None);
    }

    /** `waitForConnection(timeoutMs, deviceIdRegex)` */
    method WaitForConnection(timeoutMs: int64, deviceIdRegex: string) returns (r: Result<Option<AdbChimpDevice>>)
      modifies this
      ensures WaitEffects(timeoutMs, deviceIdRegex, r)
    {
      var remaining := timeoutMs;
      if remaining < ConnectionIterationTimeoutMs {
        remaining := ConnectionIterationTimeoutMs + 1;
      }
      ghost var first := polls;
      ghost var budget := PollBudget(EffectiveTimeout(timeoutMs) as int);
      ghost var outcome := Wait(engine, deviceIdRegex, reported, first, timeoutMs);
      ghost var k: nat := 0;
      while true
        invariant k > 0 ==> engine.compiles(deviceIdRegex)
        invariant remaining as int == EffectiveTimeout(timeoutMs) as int - 200 * k
        invariant remaining > 0 && k < budget
        invariant polls == first + k && trace == old(trace) + Unanswered(k) && devices == old(devices)
        invariant FirstConnectingPoll(engine, deviceIdRegex, reported, first, k).None?
        decreases remaining
      {
        r := PollOnce(deviceIdRegex);
        if r.Err? {
          return;
        }
        if r.value.Some? {
          WaitConnectsAt(engine, deviceIdRegex, reported, first, timeoutMs, k);
          assert outcome == Connected(r.value.value.device, k + 1);
          return;
        }
        NoConnectingPollExtends(engine, deviceIdRegex, reported, first, k);
        remaining := remaining - ConnectionIterationTimeoutMs;
        k := k + 1;
        if remaining <= 0 {
          break;
        }
      }
      assert k == budget;
      return Ok(None);
    }

    /** `waitForConnection()`: the same as waiting `Integer.MAX_VALUE` ms for any serial. */
    method WaitForConnectionDefaults() returns (r: Result<Option<AdbChimpDevice>>)
      modifies this
      ensures WaitEffects(IntegerMaxValue as int64, ".*", r)
    {
      r := WaitForConnection(IntegerMaxValue as int64, ".*");
    }

    /**
     * `shutdown`: dispose every device handed out, in order, without clearing
     * the list; then terminate the bridge only if this backend initialised it.
     */
    method Shutdown()
      modifies this`trace
      ensures trace == old(trace) + DisposeAll(devices) + (if initAdb then [Terminate] else [])
    {
      for i := 0 to |devices|
        invariant trace == old(trace) + DisposeAll(devices[..i])
      {
        assert devices[..i + 1][..i] == devices[..i];
        trace := trace + [Dispose(devices[i])];
      }
      assert devices[..|devices|] == devices;
      if initAdb {
        trace := trace + [Terminate];
      }
    }
  }
}

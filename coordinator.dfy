/** The connection coordinator (`EtekcityBPCoordinator`): the availability and
    readiness flags its callbacks keep, the decision whether a sighting warrants
    a poll, and the session loop that connects, listens and backs off. */
module Coordinator {
  import opened Wrappers
  import opened Encoding
  import opened Device

  /** The host application's lifecycle phase. */
  datatype CoreState = NotRunning | Starting | Running | Stopping | FinalWrite | Stopped

  /** What the host hands over with a sighting: the device and its advertisement. */
  datatype ServiceInfo = ServiceInfo(device: BleDevice, advertisement: AdvertisementData)

  // ---------------------------------------------------------------------------
  // The flags

  /** `_was_unavailable`, `_available`, and whether `_ready_event` is set. */
  datatype Flags = Flags(wasUnavailable: bool, available: bool, ready: bool)

  /** The callbacks that touch the flags; `parsed` is what advertisement parsing returned. */
  datatype Callback = PassiveUpdate | Unavailable | BluetoothEvent(parsed: bool) | WaitReady

  /** The flags after one callback. */
  function Next(f: Flags, c: Callback): (g: Flags)
    ensures f.ready ==> g.ready
    ensures g.ready && !f.ready ==> (c == PassiveUpdate && f.wasUnavailable) || c == BluetoothEvent(true)
    ensures g.available != f.available ==> c == Unavailable || (c == WaitReady && f.ready)
    ensures c == Unavailable ==> g.wasUnavailable && !g.available && g.ready == f.ready
    ensures c == BluetoothEvent(false) ==> g == f
  {
    match c
    case PassiveUpdate =>
      if f.wasUnavailable then f.(wasUnavailable := false, ready := true) else f
    case Unavailable =>
      f.(wasUnavailable := true, available := false)
    case BluetoothEvent(parsed) =>
      if parsed then f.(ready := true, wasUnavailable := false) else f
    case WaitReady =>
      if f.ready then f.(available := true) else f
  }

  /** The flags after a sequence of callbacks, in order. */
  function Run(f: Flags, cs: seq<Callback>): Flags
    decreases |cs|
  {
    if cs == [] then f else Run(Next(f, cs[0]), cs[1..])
  }

  /** Each callback is idempotent: running it twice in a row is running it once. */
  lemma NextIdempotent(f: Flags, c: Callback)
    ensures Next(Next(f, c), c) == Next(f, c)
  {
  }

  /** The ready event is never cleared, whatever callbacks follow. */
  lemma {:induction false} ReadyNeverCleared(f: Flags, cs: seq<Callback>)
    requires f.ready
    ensures Run(f, cs).ready
    decreases |cs|
  {
    if cs != [] {
      ReadyNeverCleared(Next(f, cs[0]), cs[1..]);
    }
  }

  /** Only a passive update or a parsed advertisement sets the ready event. */
  lemma {:induction false} ReadySetOnlyBySignal(f: Flags, cs: seq<Callback>)
    requires !f.ready && Run(f, cs).ready
    ensures exists i :: 0 <= i < |cs| && (cs[i] == PassiveUpdate || cs[i] == BluetoothEvent(true))
    decreases |cs|
  {
    if cs[0] != PassiveUpdate && cs[0] != BluetoothEvent(true) {
      ReadySetOnlyBySignal(Next(f, cs[0]), cs[1..]);
      var i :| 0 <= i < |cs[1..]| && (cs[1..][i] == PassiveUpdate || cs[1..][i] == BluetoothEvent(true));
      assert cs[i + 1] == cs[1..][i];
    }
  }

  /** Availability, once lost, comes back only through a successful wait for readiness. */
  lemma {:induction false} StaysUnavailable(f: Flags, cs: seq<Callback>)
    requires !f.available
    requires forall i :: 0 <= i < |cs| ==> cs[i] != WaitReady
    ensures !Run(f, cs).available
    decreases |cs|
  {
    if cs != [] {
      StaysUnavailable(Next(f, cs[0]), cs[1..]);
    }
  }

  /** If a device becomes available again, the ready event is set. */
  lemma {:induction false} AvailableOnlyWhenReady(f: Flags, cs: seq<Callback>)
    requires !f.available && Run(f, cs).available
    ensures Run(f, cs).ready
    decreases |cs|
  {
    if cs != [] {
      var g := Next(f, cs[0]);
      if g.available {
        ReadyNeverCleared(g, cs[1..]);
      } else {
        AvailableOnlyWhenReady(g, cs[1..]);
      }
    }
  }

  // ---------------------------------------------------------------------------
  // The session loop

  /** The operations of one session, in the order the loop performs them. */
  datatype BleStep = Connect | CheckConnected | StartNotify | WriteDescriptor | StopNotify | Disconnect

  /** One pass of the loop as the environment decides it: the step that raises,
      if any, and whether the device went unavailable while the pass was suspended. */
  datatype Round = Round(failure: Option<BleStep>, wentUnavailable: bool)

  function StepIndex(step: BleStep): nat {
    match step
    case Connect => 0
    case CheckConnected => 1
    case StartNotify => 2
    case WriteDescriptor => 3
    case StopNotify => 4
    case Disconnect => 5
  }

  /** Whether `step` completed in a pass whose first raising step is `failure`. */
  predicate Completes(failure: Option<BleStep>, step: BleStep) {
    failure.None? || StepIndex(step) < StepIndex(failure.value)
  }

  /** The pauses of one pass, in order: the listening window once notifications
      are armed, the short pause once they are stopped, the back-off after any raise. */
  function RoundPauses(failure: Option<BleStep>): (p: seq<nat>)
    ensures failure.None? ==> p == [5, 1]
    ensures failure.Some? <==> 30 in p
    ensures failure.Some? ==> p[|p| - 1] == 30
    ensures Sum(p) >= 6
  {
    (if Completes(failure, WriteDescriptor) then [5] else [])
    + (if Completes(failure, StopNotify) then [1] else [])
    + (if failure.Some? then [30] else [])
  }

  /** One pass of the loop body: the session under `try`, the back-off under `except`. */
  method RunSession(failure: Option<BleStep>) returns (pauses: seq<nat>)
    ensures pauses == RoundPauses(failure)
  {
    pauses := [];
    var ok := failure != Some(Connect);
    if ok { ok := failure != Some(CheckConnected); }
    if ok { ok := failure != Some(StartNotify); }
    if ok { ok := failure != Some(WriteDescriptor); }
    if ok {
      pauses := pauses + [5];
      ok := failure != Some(StopNotify);
    }
    if ok {
      pauses := pauses + [1];
      ok := failure != Some(Disconnect);
    }
    if !ok {
      pauses := pauses + [30];
    }
  }

  function Sum(s: seq<nat>): nat {
    if s == [] then 0 else s[0] + Sum(s[1..])
  }

  lemma {:induction false} SumAppend(a: seq<nat>, b: seq<nat>)
    ensures Sum(a + b) == Sum(a) + Sum(b)
  {
    if a != [] {
      assert (a + b)[0] == a[0] && (a + b)[1..] == a[1..] + b;
      SumAppend(a[1..], b);
    } else {
      assert a + b == b;
    }
  }

  /** The pauses of the given passes, one after the other. */
  function Pauses(rounds: seq<Round>): seq<nat> {
    if rounds == [] then []
    else Pauses(rounds[..|rounds| - 1]) + RoundPauses(rounds[|rounds| - 1].failure)
  }

  /** The loop never spins: every pass pauses at least 6 units in all. */
  lemma {:induction false} PausesAtLeast(rounds: seq<Round>)
    ensures Sum(Pauses(rounds)) >= 6 * |rounds|
  {
    if rounds != [] {
      PausesAtLeast(rounds[..|rounds| - 1]);
      SumAppend(Pauses(rounds[..|rounds| - 1]), RoundPauses(rounds[|rounds| - 1].failure));
    }
  }

  /** How many passes `while self._available` begins, given the flag at entry. */
  function PassesStarted(available: bool, rounds: seq<Round>): (n: nat)
    ensures n <= |rounds|
    ensures available && rounds != [] ==> n >= 1
  {
    if !available || rounds == [] then 0
    else 1 + PassesStarted(!rounds[0].wentUnavailable, rounds[1..])
  }

  /** No pass begins after the one during which the device went unavailable. */
  lemma {:induction false} NoPassAfterUnavailable(available: bool, rounds: seq<Round>, i: nat)
    requires i < |rounds| && rounds[i].wentUnavailable
    ensures PassesStarted(available, rounds) <= i + 1
  {
    if available && i > 0 {
      NoPassAfterUnavailable(!rounds[0].wentUnavailable, rounds[1..], i - 1);
    }
  }

  /** While the device stays available, every pass begins. */
  lemma {:induction false} PassesWhileAvailable(rounds: seq<Round>, i: nat)
    requires i < |rounds|
    requires forall j :: 0 <= j < i ==> !rounds[j].wentUnavailable
    ensures PassesStarted(true, rounds) > i
  {
    if i > 0 {
      PassesWhileAvailable(rounds[1..], i - 1);
    }
  }

  // ---------------------------------------------------------------------------
  // The coordinator object

  class EtekcityBPCoordinator {
    const address: string
    const device: EtekcityBPDevice
    const deviceName: string
    const baseUniqueId: string

    var wasUnavailable: bool
    var available: bool
    /** Whether `_ready_event` is set. */
    var readyEvent: bool

    function CurrentFlags(): Flags
      reads this
    {
      Flags(wasUnavailable, available, readyEvent)
    }

    /** `addressPresent` is the availability the host reports for the address at start. */
    constructor (address: string, device: EtekcityBPDevice, baseUniqueId: string,
                 deviceName: string, addressPresent: bool)
      ensures this.address == address && this.device == device
      ensures this.baseUniqueId == baseUniqueId && this.deviceName == deviceName
      ensures CurrentFlags() == Flags(true, addressPresent, false)
    {
      this.address := address;
      this.device := device;
      this.baseUniqueId := baseUniqueId;
      this.deviceName := deviceName;
      available := addressPresent;
      readyEvent := false;
      wasUnavailable := true;
    }

    /** Poll only while the host runs, the device asks for it, and a connectable
        path to the sighted address exists. */
    function NeedsPoll(hassState: CoreState, serviceInfo: ServiceInfo,
                       secondsSinceLastPoll: Option<real>,
                       connectable: map<string, BleDevice>): (r: bool)
      ensures r <==> hassState == Running && serviceInfo.device.address in connectable
    {
      && hassState == Running
      && device.PollNeeded(secondsSinceLastPoll)
      && serviceInfo.device.address in connectable
    }

    /** The passive update hook: the first sighting after unavailability signals readiness. */
    method UpdateMethod(serviceInfo: ServiceInfo)
      modifies this
      ensures CurrentFlags() == Next(old(CurrentFlags()), PassiveUpdate)
    {
      if wasUnavailable {
        wasUnavailable := false;
        readyEvent := true;
      }
    }

    /** The host reports the device unavailable. */
    method HandleUnavailable(serviceInfo: ServiceInfo)
      modifies this
      ensures CurrentFlags() == Next(old(CurrentFlags()), Unavailable)
    {
      wasUnavailable := true;
      available := false;
    }

    /** An advertisement: parsed by the device; a matching one signals readiness. */
    method HandleBluetoothEvent(serviceInfo: ServiceInfo)
      requires device.Valid()
      modifies this, device
      ensures device.Valid()
      ensures CurrentFlags() == Next(old(CurrentFlags()),
                                     BluetoothEvent(device.Supported(serviceInfo.advertisement.manufacturerData)))
      ensures device.CurrentSession() == old(device.CurrentSession())
      ensures device.callbacks == old(device.callbacks) && device.active == old(device.active)
      ensures device.Supported(serviceInfo.advertisement.manufacturerData) ==>
                && device.Rssi() == Some(serviceInfo.advertisement.rssi)
                && device.address == Some(serviceInfo.device.address)
                && device.device == Some(serviceInfo.device)
                && device.mfrData == Some(serviceInfo.advertisement.manufacturerData[device.mfrId])
      ensures !device.Supported(serviceInfo.advertisement.manufacturerData) ==> unchanged(device)
    {
      var parsed := device.ParseAdvertisementData(serviceInfo.device, serviceInfo.advertisement);
      if !parsed {
        return;
      }
      readyEvent := true;
      wasUnavailable := false;
    }

    /** Wait for readiness: true, and the device marked available, iff the event is set. */
    method AsyncWaitReady() returns (ready: bool)
      modifies this
      ensures ready == old(readyEvent)
      ensures CurrentFlags() == Next(old(CurrentFlags()), WaitReady)
    {
      if readyEvent {
        available := true;
        return true;
      }
      return false;
    }

    /** A GATT notification: the frame goes to the device's decoder. */
    method NotificationHandler(data: seq<byte>) returns (ok: bool)
      requires device.Valid()
      modifies device`sensorData, device`user
      ensures device.Valid()
      ensures Step(old(device.CurrentSession()), data) ==
                if ok then Success(device.CurrentSession()) else Failure(IndexError)
      ensures !ok ==> device.CurrentSession() == old(device.CurrentSession())
    {
      ok := device.Update(data);
    }

    /** The poll: passes of connect, listen, stop and pause while the device is
        available; `rounds` says how each pass goes, and the result lists the
        pauses taken and how many passes began. */
    method AsyncUpdate(serviceInfo: ServiceInfo, rounds: seq<Round>) returns (pauses: seq<nat>, passes: nat)
      modifies this
      ensures passes == PassesStarted(old(available), rounds)
      ensures pauses == Pauses(rounds[..passes])
      ensures passes < |rounds| ==> !available
      ensures available == (old(available) && forall j :: 0 <= j < passes ==> !rounds[j].wentUnavailable)
      ensures wasUnavailable == (old(wasUnavailable) || exists j :: 0 <= j < passes && rounds[j].wentUnavailable)
      ensures readyEvent == old(readyEvent)
    {
      pauses, passes := [], 0;
      while available && passes < |rounds|
        invariant passes <= |rounds|
        invariant PassesStarted(old(available), rounds) == passes + PassesStarted(available, rounds[passes..])
        invariant pauses == Pauses(rounds[..passes])
        invariant available == (old(available) && forall j :: 0 <= j < passes ==> !rounds[j].wentUnavailable)
        invariant wasUnavailable == (old(wasUnavailable) || exists j :: 0 <= j < passes && rounds[j].wentUnavailable)
        invariant readyEvent == old(readyEvent)
        decreases |rounds| - passes
      {
        var round := rounds[passes];
        var p := RunSession(round.failure);
        pauses := pauses + p;
        if round.wentUnavailable {
          HandleUnavailable(serviceInfo);
        }
        assert rounds[passes..][1..] == rounds[passes + 1..];
        assert rounds[..passes + 1][..passes] == rounds[..passes];
        passes := passes + 1;
      }
    }
  }
}

/** The blood-pressure monitor as the integration sees it (`EtekcityBPDevice`):
    a keyed store of the latest decoded measurements, a one-slot session memory
    for the user selector, the fields of the last matching advertisement, and
    the list of change subscribers. */
module Device {
  import opened Wrappers
  import opened Encoding

  /** A value held in `sensor_data`: Python's `None`, an int, a bool or a str. */
  datatype Value = Unset | Int(i: int) | Bool(b: bool) | Str(s: string)

  /** The one exception `update` raises: `data[0]` on an empty frame. */
  datatype Error = IndexError

  type SensorData = map<string, Value>

  /** What a notification frame reads and writes: the store and the `_user` slot. */
  datatype Session = Session(sensorData: SensorData, user: Option<byte>)

  /** The Bluetooth device handle the host passes along with an advertisement. */
  datatype BleDevice = BleDevice(address: string, name: string)

  /** One advertisement: signal strength and manufacturer payloads by company id. */
  datatype AdvertisementData = AdvertisementData(rssi: int, manufacturerData: map<int, seq<byte>>)

  /** A subscriber callback, known by its identity. */
  type CallbackId = nat

  const DisplayUnitsKey := "display_units"

  /** The text of the `_user` slot inside a key: `str(None)` or the decimal selector. */
  function UserText(user: Option<byte>): string {
    match user
    case None => "None"
    case Some(n) => Decimal(n)
  }

  /** The key `f"{name}{user}"` under which a per-user reading is stored:
      the channel name, then the text of the user slot. */
  function Key(name: string, user: Option<byte>): (k: string)
    ensures |k| > |name| && k[..|name|] == name
    ensures user.None? ==> k[|name|..] == "None"
  {
    var k := name + UserText(user);
    assert k[|name|..] == UserText(user);
    k
  }

  /** After the channel name, a slot's key holds decimal digits that read back as the slot. */
  lemma KeyReadsBack(name: string, n: byte)
    ensures forall i :: |name| <= i < |Key(name, Some(n))| ==> IsDigit(Key(name, Some(n))[i])
    ensures DigitsValue(Key(name, Some(n))[|name|..]) == n
  {
    var k := Key(name, Some(n));
    assert k[|name|..] == Decimal(n);
    DecimalRoundTrip(n);
  }

  lemma NoneIsNotDecimal(n: nat)
    ensures Decimal(n) != "None"
  {
    assert IsDigit(Decimal(n)[0]);
  }

  /** Readings of different user slots never share a key. */
  lemma KeyInjective(name: string, u: Option<byte>, v: Option<byte>)
    requires Key(name, u) == Key(name, v)
    ensures u == v
  {
    assert UserText(u) == Key(name, u)[|name|..];
    assert UserText(v) == Key(name, v)[|name|..];
    if u.Some? { NoneIsNotDecimal(u.value); }
    if v.Some? { NoneIsNotDecimal(v.value); }
    if u.Some? && v.Some? { DecimalInjective(u.value, v.value); }
  }

  /** The nine channel keys a fresh device starts with. */
  const ChannelKeys: set<string> :=
    {"systolic0", "diastolic0", "pulse0", "irregular_heartbeat0",
     "systolic1", "diastolic1", "pulse1", "irregular_heartbeat1",
     "display_units"}

  /** The channel keys are the four per-user readings of slots 0 and 1, and the display units. */
  lemma ChannelKeysAreUserKeys()
    ensures ChannelKeys == {Key("systolic", Some(0)), Key("diastolic", Some(0)),
                            Key("pulse", Some(0)), Key("irregular_heartbeat", Some(0)),
                            Key("systolic", Some(1)), Key("diastolic", Some(1)),
                            Key("pulse", Some(1)), Key("irregular_heartbeat", Some(1)),
                            DisplayUnitsKey}
  {
    assert Decimal(0) == "0" && Decimal(1) == "1";
    assert Key("systolic", Some(0)) == "systolic0";
    assert Key("diastolic", Some(0)) == "diastolic0";
    assert Key("pulse", Some(0)) == "pulse0";
    assert Key("irregular_heartbeat", Some(0)) == "irregular_heartbeat0";
    assert Key("systolic", Some(1)) == "systolic1";
    assert Key("diastolic", Some(1)) == "diastolic1";
    assert Key("pulse", Some(1)) == "pulse1";
    assert Key("irregular_heartbeat", Some(1)) == "irregular_heartbeat1";
  }

  /** There are exactly nine channels. */
  lemma ChannelCount()
    ensures |ChannelKeys| == 9
  {
  }

  /** The store a fresh device starts with: every channel, none of them known yet. */
  function InitialSensorData(): (m: SensorData)
    ensures m.Keys == ChannelKeys
    ensures |m| == 9
    ensures forall k :: k in m ==> m[k] == Unset
  {
    ChannelCount();
    map k | k in ChannelKeys :: Unset
  }

  function InitialSession(): Session {
    Session(InitialSensorData(), None)
  }

  /** `int.from_bytes(data[0:2], "big")`: a frame's header, or what there is of it. */
  function Header(data: seq<byte>): (h: nat)
    ensures |data| >= 2 ==> h == (data[0] as int) * 256 + data[1] as int
    ensures |data| < 2 ==> h < 256
  {
    if |data| >= 2 then
      FromBytesBigPair(data[0], data[1]);
      assert data[..2] == [data[0], data[1]];
      FromBytesBig(data[..2])
    else
      FromBytesBig(data)
  }

  /** The unit name byte 10 of a configuration frame selects. */
  function UnitsName(b: byte): (u: string)
    ensures u == "kPa" <==> b == 0x01
    ensures u == "mmHg" <==> b != 0x01
  {
    if b == 0x01 then "kPa" else "mmHg"
  }

  /** Configuration frame: header A5 02, 13 bytes. */
  predicate IsUnitsFrame(data: seq<byte>) {
    |data| == 13 && data[0] == 0xA5 && data[1] == 0x02
  }

  /** Reading frame: header A5 22, 20 bytes. */
  predicate IsReadingFrame(data: seq<byte>) {
    |data| == 20 && data[0] == 0xA5 && data[1] == 0x22
  }

  /** Pulse frame: first byte 00, 5 bytes. */
  predicate IsPulseFrame(data: seq<byte>) {
    |data| == 5 && data[0] == 0x00
  }

  /** `after` differs from `before` at most at `keys`, and holds every key of both. */
  ghost predicate ChangesOnly(before: SensorData, after: SensorData, keys: set<string>) {
    && after.Keys == before.Keys + keys
    && forall k :: k in before && k !in keys ==> after[k] == before[k]
  }

  /** What one notification frame does to the session: `update` with its calls to `update_value`. */
  function Step(s: Session, data: seq<byte>): (r: Result<Session, Error>)
    ensures r.Failure? <==> data == []
    ensures r.Success? ==> s.sensorData.Keys <= r.value.sensorData.Keys
  {
    if Header(data) == 0xA502 && |data| == 13 then
      Success(s.(sensorData := s.sensorData[DisplayUnitsKey := Str(UnitsName(data[10]))]))
    else if Header(data) == 0xA522 && |data| == 20 then
      var user := Some(data[14]);
      Success(Session(s.sensorData[Key("systolic", user) := Int(data[15])]
                                  [Key("diastolic", user) := Int(data[17])], user))
    else if |data| == 0 then
      // `data[0]` is evaluated before the length test and raises
      Failure(IndexError)
    else if data[0] == 0x00 && |data| == 5 then
      Success(s.(sensorData := s.sensorData[Key("pulse", s.user) := Int(data[1])]
                                           [Key("irregular_heartbeat", s.user) := Bool(data[3] == 0x04)]))
    else
      Success(s)
  }

  /** Dispatch on the big-endian header and exact length is dispatch on the first two bytes. */
  lemma HeaderDispatch(data: seq<byte>)
    ensures (Header(data) == 0xA502 && |data| == 13) <==> IsUnitsFrame(data)
    ensures (Header(data) == 0xA522 && |data| == 20) <==> IsReadingFrame(data)
  {
  }

  /** A configuration frame sets the display units only: kPa iff byte 10 is 01, else mmHg. */
  lemma StepUnitsFrame(s: Session, data: seq<byte>)
    requires IsUnitsFrame(data)
    ensures Step(s, data).Success?
    ensures var t := Step(s, data).value;
      && t.user == s.user
      && ChangesOnly(s.sensorData, t.sensorData, {DisplayUnitsKey})
      && (t.sensorData[DisplayUnitsKey] == Str("kPa") <==> data[10] == 0x01)
      && (t.sensorData[DisplayUnitsKey] == Str("mmHg") <==> data[10] != 0x01)
  {
  }

  /** A reading frame selects the user slot from byte 14 and stores bytes 15 and 17 unscaled. */
  lemma StepReadingFrame(s: Session, data: seq<byte>)
    requires IsReadingFrame(data)
    ensures Step(s, data).Success?
    ensures var t := Step(s, data).value; var u := Some(data[14]);
      && t.user == u
      && ChangesOnly(s.sensorData, t.sensorData, {Key("systolic", u), Key("diastolic", u)})
      && t.sensorData[Key("systolic", u)] == Int(data[15])
      && t.sensorData[Key("diastolic", u)] == Int(data[17])
  {
  }

  /** A pulse frame is filed under the current user slot, which it leaves as it is. */
  lemma StepPulseFrame(s: Session, data: seq<byte>)
    requires IsPulseFrame(data)
    ensures Step(s, data).Success?
    ensures var t := Step(s, data).value;
      && t.user == s.user
      && ChangesOnly(s.sensorData, t.sensorData, {Key("pulse", s.user), Key("irregular_heartbeat", s.user)})
      && t.sensorData[Key("pulse", s.user)] == Int(data[1])
      && t.sensorData[Key("irregular_heartbeat", s.user)] == Bool(data[3] == 0x04)
  {
  }

  /** Any other non-empty frame is ignored. */
  lemma StepOtherFrame(s: Session, data: seq<byte>)
    requires data != []
    requires !IsUnitsFrame(data) && !IsReadingFrame(data) && !IsPulseFrame(data)
    ensures Step(s, data) == Success(s)
  {
    HeaderDispatch(data);
  }

  /** Delivering the same frame twice leaves the session as delivering it once. */
  lemma StepIdempotent(s: Session, data: seq<byte>)
    requires data != []
    ensures Step(Step(s, data).value, data) == Step(s, data)
  {
    if IsUnitsFrame(data) {
      var t := Step(s, data).value;
      assert t.sensorData[DisplayUnitsKey := Str(UnitsName(data[10]))] == t.sensorData;
    } else if IsReadingFrame(data) {
      var t := Step(s, data).value;
      var u := Some(data[14]);
      assert Key("systolic", u)[0] != Key("diastolic", u)[0];
      assert t.sensorData[Key("systolic", u) := Int(data[15])][Key("diastolic", u) := Int(data[17])] == t.sensorData;
    } else if IsPulseFrame(data) {
      var t := Step(s, data).value;
      assert Key("pulse", s.user)[0] != Key("irregular_heartbeat", s.user)[0];
      assert t.sensorData[Key("pulse", s.user) := Int(data[1])]
                         [Key("irregular_heartbeat", s.user) := Bool(data[3] == 0x04)] == t.sensorData;
    } else {
      StepOtherFrame(s, data);
    }
  }

  /** Before any reading frame `_user` is None, so a pulse frame adds two keys
      outside the nine channels instead of filling one of them. */
  lemma PulseBeforeReading(data: seq<byte>)
    requires IsPulseFrame(data)
    ensures var t := Step(InitialSession(), data).value;
      && "pulseNone" !in InitialSensorData() && "irregular_heartbeatNone" !in InitialSensorData()
      && t.sensorData.Keys == InitialSensorData().Keys + {"pulseNone", "irregular_heartbeatNone"}
      && |t.sensorData| == 11
      && t.sensorData["pulseNone"] == Int(data[1])
  {
    assert Key("pulse", None) == "pulseNone";
    assert Key("irregular_heartbeat", None) == "irregular_heartbeatNone";
    assert "pulseNone"[0] == 'p' && "irregular_heartbeatNone"[0] == 'i';
    StepPulseFrame(InitialSession(), data);
    ChannelCount();
    assert "pulseNone" !in ChannelKeys;
    assert "irregular_heartbeatNone" !in ChannelKeys;
    assert |ChannelKeys + {"pulseNone"}| == 10;
  }

  /** A systolic or diastolic key is one of the nine channels iff its user slot is 0 or 1. */
  lemma ReadingKeyIsChannel(name: string, u: Option<byte>)
    requires name == "systolic" || name == "diastolic"
    ensures Key(name, u) in ChannelKeys <==> u == Some(0) || u == Some(1)
  {
    ChannelKeysAreUserKeys();
    var k := Key(name, u);
    if k == Key(name, Some(0)) { KeyInjective(name, u, Some(0)); }
    if k == Key(name, Some(1)) { KeyInjective(name, u, Some(1)); }
    if name == "systolic" {
      assert k[0] == 's';
      assert Key("diastolic", Some(0))[0] == 'd' && Key("diastolic", Some(1))[0] == 'd';
    } else {
      assert k[2] == 'a';
      assert Key("systolic", Some(0))[0] == 's' && Key("systolic", Some(1))[0] == 's';
      assert DisplayUnitsKey[2] == 's';
    }
    assert Key("pulse", Some(0))[0] == 'p' && Key("pulse", Some(1))[0] == 'p';
    assert Key("irregular_heartbeat", Some(0))[0] == 'i' && Key("irregular_heartbeat", Some(1))[0] == 'i';
  }

  /** Byte 14 is not range-checked: a selector other than 0 or 1 adds keys
      outside the nine channels. */
  lemma UnrangedUserSelector(s: Session, data: seq<byte>)
    requires IsReadingFrame(data) && data[14] >= 2
    ensures Key("systolic", Some(data[14])) !in ChannelKeys
    ensures Key("diastolic", Some(data[14])) !in ChannelKeys
    ensures Step(s, data).value.sensorData[Key("systolic", Some(data[14]))] == Int(data[15])
  {
    StepReadingFrame(s, data);
    ReadingKeyIsChannel("systolic", Some(data[14]));
    ReadingKeyIsChannel("diastolic", Some(data[14]));
  }

  /** A configuration frame with byte 10 = 01, a reading frame for user 0
      (systolic 50, diastolic 80), then a pulse frame (pulse 70, irregular). */
  lemma MeasurementScenario(units: seq<byte>, reading: seq<byte>, pulse: seq<byte>)
    requires units == [0xA5, 0x02, 0, 0, 0, 0, 0, 0, 0, 0, 0x01, 0, 0]
    requires reading == [0xA5, 0x22, 0, 0, 0, 0, 0, 0, 0, 0, 0, 0, 0, 0, 0x00, 0x32, 0x00, 0x50, 0x00, 0x00]
    requires pulse == [0x00, 0x46, 0x00, 0x04, 0x00]
    ensures Step(InitialSession(), units).Success?
    ensures var s1 := Step(InitialSession(), units).value;
      && s1.sensorData["display_units"] == Str("kPa")
      && Step(s1, reading).Success?
      && var s2 := Step(s1, reading).value;
      && s2.user == Some(0)
      && s2.sensorData["systolic0"] == Int(50)
      && s2.sensorData["diastolic0"] == Int(80)
      && Step(s2, pulse).Success?
      && var s3 := Step(s2, pulse).value;
      && s3.user == Some(0)
      && s3.sensorData["pulse0"] == Int(70)
      && s3.sensorData["irregular_heartbeat0"] == Bool(true)
      && s3.sensorData["systolic0"] == Int(50)
      && s3.sensorData["display_units"] == Str("kPa")
  {
    assert Decimal(0) == "0";
    assert Key("systolic", Some(0)) == "systolic0";
    assert Key("diastolic", Some(0)) == "diastolic0";
    assert Key("pulse", Some(0)) == "pulse0";
    assert Key("irregular_heartbeat", Some(0)) == "irregular_heartbeat0";
    assert IsUnitsFrame(units) && IsReadingFrame(reading) && IsPulseFrame(pulse);
    StepUnitsFrame(InitialSession(), units);
    var s1 := Step(InitialSession(), units).value;
    assert s1.sensorData["display_units"] == Str("kPa");
    StepReadingFrame(s1, reading);
    var s2 := Step(s1, reading).value;
    assert s2.user == Some(0);
    assert s2.sensorData["systolic0"] == Int(50) && s2.sensorData["diastolic0"] == Int(80);
    assert "systolic0"[0] != "display_units"[0];
    StepPulseFrame(s2, pulse);
  }

  /** The first occurrence of x in s. */
  function FirstIndex(s: seq<CallbackId>, x: CallbackId): (i: nat)
    requires x in s
    ensures i < |s| && s[i] == x && x !in s[..i]
  {
    if s[0] == x then 0 else 1 + FirstIndex(s[1..], x)
  }

  /** `list.remove(x)`: s without its first occurrence of x; s itself when x is absent. */
  function RemoveFirst(s: seq<CallbackId>, x: CallbackId): (r: seq<CallbackId>)
    ensures x !in s ==> r == s
    ensures x in s ==> r == s[..FirstIndex(s, x)] + s[FirstIndex(s, x) + 1..]
  {
    if s == [] then []
    else if s[0] == x then s[1..]
    else
      var r' := RemoveFirst(s[1..], x);
      if x !in s then [s[0]] + r'
      else
        var i := FirstIndex(s, x);
        assert i == 1 + FirstIndex(s[1..], x);
        assert s[1..][..i - 1] == s[1..i] && s[1..][i..] == s[i + 1..];
        assert [s[0]] + s[1..i] == s[..i];
        [s[0]] + r'
  }

  /** Removing a listed callback takes exactly one copy of it out. */
  lemma RemoveFirstMultiset(s: seq<CallbackId>, x: CallbackId)
    requires x in s
    ensures |RemoveFirst(s, x)| == |s| - 1
    ensures multiset(RemoveFirst(s, x)) == multiset(s) - multiset{x}
  {
    var i := FirstIndex(s, x);
    assert s == s[..i] + [x] + s[i + 1..];
  }

  /** Unsubscribing right after subscribing restores the subscribers; exactly
      so when the callback was not subscribed already. */
  lemma SubscribeThenUnsubscribe(s: seq<CallbackId>, cb: CallbackId)
    ensures multiset(RemoveFirst(s + [cb], cb)) == multiset(s)
    ensures cb !in s ==> RemoveFirst(s + [cb], cb) == s
  {
    RemoveFirstMultiset(s + [cb], cb);
    assert multiset(s + [cb]) == multiset(s) + multiset{cb};
    if cb !in s {
      assert FirstIndex(s + [cb], cb) == |s|;
      assert (s + [cb])[..|s|] == s;
    }
  }

  class EtekcityBPDevice {
    /** The manufacturer id whose payload identifies this device (`MFR_ID`). */
    const mfrId: int

    // The fields of `EtekcityBPData`
    var address: Option<string>
    var device: Option<BleDevice>
    var rssi: Option<int>
    var mfrIdSeen: Option<int>
    var mfrData: Option<seq<byte>>
    var sensorData: SensorData
    var active: bool

    var callbacks: seq<CallbackId>
    /** The user slot of the last reading frame (`_user`). */
    var user: Option<byte>

    /** The store never loses a channel, and the advertisement fields are set together. */
    ghost predicate Valid()
      reads this
    {
      && ChannelKeys <= sensorData.Keys
      && (address.Some? <==> mfrIdSeen.Some?)
      && (device.Some? <==> mfrIdSeen.Some?)
      && (rssi.Some? <==> mfrIdSeen.Some?)
      && (mfrData.Some? <==> mfrIdSeen.Some?)
      && (mfrIdSeen.Some? ==> mfrIdSeen.value == mfrId)
    }

    function CurrentSession(): Session
      reads this
    {
      Session(sensorData, user)
    }

    constructor (mfrId: int)
      ensures Valid() && this.mfrId == mfrId
      ensures sensorData == InitialSensorData() && user == None && callbacks == []
      ensures address == None && device == None && rssi == None
      ensures mfrIdSeen == None && mfrData == None && !active
    {
      this.mfrId := mfrId;
      address, device, rssi, mfrIdSeen, mfrData := None, None, None, None, None;
      sensorData := InitialSensorData();
      active := false;
      callbacks := [];
      user := None;
    }

    /** The polling policy: every sighting warrants a poll. */
    function PollNeeded(secondsSinceLastPoll: Option<real>): (r: bool)
      ensures r
    {
      true
    }

    /** Discovery filter: the manufacturer data is non-empty and carries this device's id. */
    function Supported(manufacturerData: map<int, seq<byte>>): (r: bool)
      ensures r <==> mfrId in manufacturerData
    {
      |manufacturerData| > 0 && mfrId in manufacturerData
    }

    /** Record an advertisement that carries this device's manufacturer id; ignore any other. */
    method ParseAdvertisementData(bleDevice: BleDevice, adv: AdvertisementData) returns (parsed: bool)
      requires Valid()
      modifies this
      ensures Valid()
      ensures parsed <==> Supported(adv.manufacturerData)
      ensures parsed ==> && address == Some(bleDevice.address) && device == Some(bleDevice)
                         && rssi == Some(adv.rssi) && mfrIdSeen == Some(mfrId)
                         && mfrData == Some(adv.manufacturerData[mfrId])
      ensures !parsed ==> unchanged(this)
      ensures sensorData == old(sensorData) && user == old(user)
      ensures callbacks == old(callbacks) && active == old(active)
    {
      var found: Option<seq<byte>> := None;
      if mfrId in adv.manufacturerData {
        found := Some(adv.manufacturerData[mfrId]);
      }
      if found.None? {
        return false;
      }
      address := Some(bleDevice.address);
      device := Some(bleDevice);
      rssi := Some(adv.rssi);
      mfrIdSeen := Some(mfrId);
      mfrData := found;
      return true;
    }

    method Subscribe(cb: CallbackId)
      requires Valid()
      modifies this`callbacks
      ensures Valid()
      ensures callbacks == old(callbacks) + [cb]
    {
      callbacks := callbacks + [cb];
    }

    /** The unsubscribe function `subscribe` hands out; `ok` is false where
        `list.remove` raises ValueError (the callback is no longer listed). */
    method Unsubscribe(cb: CallbackId) returns (ok: bool)
      requires Valid()
      modifies this`callbacks
      ensures Valid()
      ensures ok <==> cb in old(callbacks)
      ensures callbacks == RemoveFirst(old(callbacks), cb)
    {
      ok := cb in callbacks;
      if ok {
        callbacks := RemoveFirst(callbacks, cb);
      }
    }

    /** Store one value under one key. */
    method UpdateValue(parameter: string, value: Value)
      requires Valid()
      modifies this`sensorData
      ensures Valid()
      ensures sensorData == old(sensorData)[parameter := value]
    {
      sensorData := sensorData[parameter := value];
    }

    /** Decode one notification frame into the store; `ok` is false where the
        source raises IndexError, and then nothing has changed. */
    method Update(data: seq<byte>) returns (ok: bool)
      requires Valid()
      modifies this`sensorData, this`user
      ensures Valid()
      ensures Step(old(CurrentSession()), data) == if ok then Success(CurrentSession()) else Failure(IndexError)
      ensures !ok ==> CurrentSession() == old(CurrentSession())
    {
      var header := Header(data);
      if header == 0xA502 && |data| == 13 {
        UpdateValue(DisplayUnitsKey, Str(if data[10] == 0x01 then "kPa" else "mmHg"));
      } else if header == 0xA522 && |data| == 20 {
        user := Some(data[14]);
        UpdateValue(Key("systolic", user), Int(data[15]));
        UpdateValue(Key("diastolic", user), Int(data[17]));
      } else if |data| == 0 {
        return false;
      } else if data[0] == 0x00 && |data| == 5 {
        UpdateValue(Key("pulse", user), Int(data[1]));
        UpdateValue(Key("irregular_heartbeat", user), Bool(data[3] == 0x04));
      }
      return true;
    }

    /** The `sensor_data` property: every channel is still present. */
    function SensorDataView(): (r: SensorData)
      reads this
      requires Valid()
      ensures ChannelKeys <= r.Keys
    {
      sensorData
    }

    /** The `rssi` property: known exactly once a matching advertisement was parsed. */
    function Rssi(): (r: Option<int>)
      reads this
      requires Valid()
      ensures r.Some? <==> mfrIdSeen == Some(mfrId)
    {
      rssi
    }
  }
}

# Etekcity blood-pressure monitor over BLE: a Dafny model

This project models the core of the `etekcitybp_ble` Home Assistant
integration:

- **`EtekcityBPDevice`** (`device.dfy`, module `Device`): the decoder of the
  monitor's proprietary notification frames. Three frame shapes are decoded:
  a configuration frame (header `A5 02`, 13 bytes), a reading frame (header
  `A5 22`, 20 bytes) and a pulse frame (first byte `00`, 5 bytes). Each writes
  into the keyed `sensor_data` store. The `_user` slot carries the user
  selector from a reading frame to the pulse frame after it. Around the decoder
  sit the manufacturer-id filter for advertisements, the subscriber list and
  the single-key writer.
- **`EtekcityBPCoordinator`** (`coordinator.dfy`, module `Coordinator`): three
  flags kept by the host's callbacks. They are `_was_unavailable`,
  `_available`, and the ready event (a boolean that is set and never cleared).
  Around them sit the poll decision and the session loop. While the device is
  available, the loop connects, arms notifications, listens for 5 units, stops
  notifications and pauses 1 unit. After any exception it backs off for 30
  units.

`encoding.dfy` (module `Encoding`) holds the two Python conversions the
decoder relies on: `int.from_bytes(.., "big")` and `str()` of a non-negative
integer. `wrappers.dfy` holds `Option` (Python's `None`) and `Result`.

The pure decoder `Device.Step` is the specification of one notification. The
method `EtekcityBPDevice.Update` has the source's branches and `update_value`
calls, and is proved equal to `Step`. In the same way, the pure `Coordinator.Next`
specifies the flags, and each coordinator callback method is proved to move
its flags by `Next`. The session loop `AsyncUpdate` is proved against
`PassesStarted` and `Pauses`.

Some behaviour of the code is easy to miss. The model keeps it as written:

- A frame of the right header but the wrong length is ignored, and so is any
  short frame. There is no separate "invalid length" outcome. The only error is
  the `IndexError` that `data[0]` raises on an empty frame.
- The user selector (byte 14) is not limited to 0 or 1. Any other value creates
  new keys such as `systolic7` (`UnrangedUserSelector`).
- A pulse frame that arrives before any reading frame is not dropped. It is
  filed under `pulseNone` / `irregular_heartbeatNone` (`PulseBeforeReading`).
- `rssi` never returns the `-127` default. `self._data` is always a dataclass
  instance and so always truthy. Before the first matching advertisement the
  property returns `None` (`Option.None` here).
- Subscribers are registered and removed, but `update` never calls them. No
  change notification is modelled because the code sends none.
- There is no explicit connectivity state. The state is exactly the three
  flags plus the loop's position.

## Model

| member | source | states |
|---|---|---|
| `Encoding.FromBytesBig` | custom_components/etekcitybp_ble/device.py:99 | the big-endian value of n bytes is below 256^n |
| `Encoding.FromBytesBigPair` | custom_components/etekcitybp_ble/device.py:99 | two bytes read big-endian are hi*256 + lo |
| `Encoding.Decimal` | custom_components/etekcitybp_ble/device.py:105 | `str(n)` is a non-empty string of digits, one digit exactly when n < 10 |
| `Encoding.DecimalLeadingDigit` | custom_components/etekcitybp_ble/device.py:105 | `str(n)` has no leading zero: a rendering of n >= 10 does not start with '0' |
| `Encoding.DecimalRoundTrip` | custom_components/etekcitybp_ble/device.py:105 | reading the decimal text back gives n |
| `Encoding.DecimalInjective` | custom_components/etekcitybp_ble/device.py:105 | different selectors render differently |
| `Device.Key` | custom_components/etekcitybp_ble/device.py:105-109 | a per-user key is the channel name followed by the text of `_user`, which is `None` when no reading frame has arrived |
| `Device.KeyReadsBack` | custom_components/etekcitybp_ble/device.py:105-109 | after the channel name, a slot's key holds decimal digits that read back as the slot |
| `Device.KeyInjective` | custom_components/etekcitybp_ble/device.py:105-109 | `f"{name}{user}"` keys of different user slots (including `None`) never coincide |
| `Device.ChannelKeysAreUserKeys` | custom_components/etekcitybp_ble/device.py:44-54 | the nine initial keys are the four per-user readings for slots 0 and 1, plus `display_units` |
| `Device.ChannelCount` | custom_components/etekcitybp_ble/device.py:44-54 | the initial keys are nine distinct keys |
| `Device.InitialSensorData` | custom_components/etekcitybp_ble/device.py:43-55 | the store starts with exactly the nine channel keys, all `None` |
| `Device.Header` | custom_components/etekcitybp_ble/device.py:99 | the header is byte0*256 + byte1, and below 256 for frames shorter than two bytes |
| `Device.UnitsName` | custom_components/etekcitybp_ble/device.py:102 | the units text is `kPa` iff byte 10 is 01, and `mmHg` otherwise |
| `Device.HeaderDispatch` | custom_components/etekcitybp_ble/device.py:99-103 | matching header 0xA502 and length 13 (or 0xA522 and 20) is matching the first two bytes and the exact length |
| `Device.Step` | custom_components/etekcitybp_ble/device.py:97-114 | a frame fails (IndexError) iff it is empty; a decoded frame never removes a key |
| `Device.StepUnitsFrame` | custom_components/etekcitybp_ble/device.py:100-102 | an A5 02 / 13-byte frame changes only `display_units`: `kPa` iff byte 10 is 01, else `mmHg`; `_user` unchanged |
| `Device.StepReadingFrame` | custom_components/etekcitybp_ble/device.py:103-106 | an A5 22 / 20-byte frame sets `_user` to byte 14 and writes `systolic{user}` = byte 15, `diastolic{user}` = byte 17 unscaled; nothing else changes |
| `Device.StepPulseFrame` | custom_components/etekcitybp_ble/device.py:107-109 | a 00 / 5-byte frame writes `pulse{user}` = byte 1 and `irregular_heartbeat{user}` = (byte 3 == 04) for the current `_user`, which it leaves as it is; nothing else changes |
| `Device.StepOtherFrame` | custom_components/etekcitybp_ble/device.py:99-109 | any other non-empty frame leaves store and `_user` unchanged |
| `Device.StepIdempotent` | custom_components/etekcitybp_ble/device.py:97-109 | delivering a frame twice has the effect of delivering it once |
| `Device.PulseBeforeReading` | custom_components/etekcitybp_ble/device.py:107-109 | with `_user` still `None`, a pulse frame adds `pulseNone` and `irregular_heartbeatNone`, giving eleven keys |
| `Device.ReadingKeyIsChannel` | custom_components/etekcitybp_ble/device.py:103-106 | a systolic or diastolic key is one of the nine channels iff the selector is 0 or 1 |
| `Device.UnrangedUserSelector` | custom_components/etekcitybp_ble/device.py:103-106 | a selector of 2 or more stores its reading under a key outside the nine channels |
| `Device.MeasurementScenario` | custom_components/etekcitybp_ble/device.py:97-109 | configuration, reading and pulse frames in turn give kPa, systolic0 50, diastolic0 80, pulse0 70, irregular true, user 0 |
| `Device.FirstIndex` | custom_components/etekcitybp_ble/device.py:93 | the position of the first occurrence of a listed callback |
| `Device.RemoveFirst` | custom_components/etekcitybp_ble/device.py:93 | `list.remove` cuts out exactly the first occurrence, and leaves a list without the callback as it is |
| `Device.RemoveFirstMultiset` | custom_components/etekcitybp_ble/device.py:91-93 | removing a listed callback takes out one copy and shortens the list by one |
| `Device.SubscribeThenUnsubscribe` | custom_components/etekcitybp_ble/device.py:86-95 | unsubscribing after subscribing restores the subscriber multiset, and the exact list when the callback was new |
| `Device.EtekcityBPDevice.constructor` | custom_components/etekcitybp_ble/device.py:39-57 | initial store as above, no subscribers, `_user` `None`, no advertisement fields |
| `Device.EtekcityBPDevice.PollNeeded` | custom_components/etekcitybp_ble/device.py:59-62 | polling is always needed |
| `Device.EtekcityBPDevice.Supported` | custom_components/etekcitybp_ble/device.py:116-119 | supported iff the manufacturer data carries the device's id (non-emptiness follows) |
| `Device.EtekcityBPDevice.ParseAdvertisementData` | custom_components/etekcitybp_ble/device.py:64-84 | without the id nothing changes and the result is falsy; with it, address, device, rssi, the id and its payload are stored and the result is true; the store and `_user` never change |
| `Device.EtekcityBPDevice.Subscribe` | custom_components/etekcitybp_ble/device.py:86-89 | appends the callback; the store and advertisement fields are untouched |
| `Device.EtekcityBPDevice.Unsubscribe` | custom_components/etekcitybp_ble/device.py:91-93 | removes the first occurrence; reports the ValueError case (callback not listed) and then changes nothing; the store and advertisement fields are untouched |
| `Device.EtekcityBPDevice.UpdateValue` | custom_components/etekcitybp_ble/device.py:111-114 | overwrites or adds exactly one key; the nine channels stay present |
| `Device.EtekcityBPDevice.Update` | custom_components/etekcitybp_ble/device.py:97-109 | the new store and `_user` are those `Step` gives; on an empty frame it reports IndexError and the store and `_user` are exactly as before |
| `Device.EtekcityBPDevice.SensorDataView` | custom_components/etekcitybp_ble/device.py:127-130 | the store handed to readers holds every channel key |
| `Device.EtekcityBPDevice.Rssi` | custom_components/etekcitybp_ble/device.py:132-138 | the rssi is known exactly when a matching advertisement has been parsed |
| `Coordinator.Next` | custom_components/etekcitybp_ble/coordinator.py:99-188 | one callback never clears the ready event; only a passive update after unavailability or a parsed advertisement sets it; of the writes coordinator.py itself makes, only the unavailable callback and a wait that finds the event set change `_available` (the host base class's own writes are left out, see below); the unavailable callback sets `_was_unavailable` and clears `_available`; an unparsed advertisement changes nothing |
| `Coordinator.NextIdempotent` | custom_components/etekcitybp_ble/coordinator.py:99-188 | every callback, repeated at once, has no further effect |
| `Coordinator.ReadyNeverCleared` | custom_components/etekcitybp_ble/coordinator.py:70-188 | once set, the ready event stays set through any callbacks |
| `Coordinator.ReadySetOnlyBySignal` | custom_components/etekcitybp_ble/coordinator.py:99-176 | if the event becomes set, some callback was a passive update or a parsed advertisement |
| `Coordinator.StaysUnavailable` | custom_components/etekcitybp_ble/coordinator.py:143-188 | of the writes coordinator.py makes, none but a wait for readiness sets `_available` again after unavailability (host base-class writes are left out, see below) |
| `Coordinator.AvailableOnlyWhenReady` | custom_components/etekcitybp_ble/coordinator.py:143-188 | of the writes coordinator.py makes, the one that makes the device available again happens only with the ready event set (host base-class writes are left out, see below) |
| `Coordinator.RoundPauses` | custom_components/etekcitybp_ble/coordinator.py:115-132 | a successful pass pauses 5 then 1; a failing pass ends with the 30-unit back-off, and only failing passes have it; each pass pauses at least 6 |
| `Coordinator.RunSession` | custom_components/etekcitybp_ble/coordinator.py:115-132 | the try/except body takes exactly the pauses `RoundPauses` gives, for every failing step, and never propagates the exception |
| `Coordinator.SumAppend` | custom_components/etekcitybp_ble/coordinator.py:109-132 | total pause of consecutive passes adds up |
| `Coordinator.PausesAtLeast` | custom_components/etekcitybp_ble/coordinator.py:109-132 | `Pauses`, the loop's sleeps pass after pass (5 and 1 at lines 124 and 129, 30 at line 132), total at least 6n units for n passes: the loop never spins |
| `Coordinator.PassesStarted` | custom_components/etekcitybp_ble/coordinator.py:114 | no more passes than rounds, and at least one whenever the loop is entered available |
| `Coordinator.NoPassAfterUnavailable` | custom_components/etekcitybp_ble/coordinator.py:114-151 | no pass begins after the one during which the device went unavailable |
| `Coordinator.PassesWhileAvailable` | custom_components/etekcitybp_ble/coordinator.py:114 | while the device stays available, every pass begins |
| `Coordinator.EtekcityBPCoordinator.constructor` | custom_components/etekcitybp_ble/coordinator.py:45-71 | `_was_unavailable` set, ready event clear, `_available` as the host reports |
| `Coordinator.EtekcityBPCoordinator.NeedsPoll` | custom_components/etekcitybp_ble/coordinator.py:77-97 | poll iff the host is running and a connectable device exists for the address; never without a connectable device |
| `Coordinator.EtekcityBPCoordinator.UpdateMethod` | custom_components/etekcitybp_ble/coordinator.py:99-107 | flags move by `Next(PassiveUpdate)`: if `_was_unavailable`, it is cleared and the event set; else nothing changes |
| `Coordinator.EtekcityBPCoordinator.HandleUnavailable` | custom_components/etekcitybp_ble/coordinator.py:143-152 | flags move by `Next(Unavailable)`: `_was_unavailable` true, `_available` false |
| `Coordinator.EtekcityBPCoordinator.HandleBluetoothEvent` | custom_components/etekcitybp_ble/coordinator.py:156-176 | flags move by `Next(BluetoothEvent(parsed))` with parsed iff the id is present; on a match the device stores address, device handle, rssi and payload; without one the device is unchanged; its store, `_user`, subscribers and `active` are never touched |
| `Coordinator.EtekcityBPCoordinator.AsyncWaitReady` | custom_components/etekcitybp_ble/coordinator.py:178-188 | returns whether the event is set, and only then sets `_available` |
| `Coordinator.EtekcityBPCoordinator.NotificationHandler` | custom_components/etekcitybp_ble/coordinator.py:135-140 | a notification frame updates the device exactly as `Step` says; an empty frame reports IndexError and leaves the device's store and `_user` as they were |
| `Coordinator.EtekcityBPCoordinator.AsyncUpdate` | custom_components/etekcitybp_ble/coordinator.py:109-132 | the loop begins exactly `PassesStarted` passes and takes their sleeps in order (`Pauses`); it stops early only when `_available` is false; afterwards `_available` holds iff it held at entry and no pass went unavailable, and `_was_unavailable` is set iff it was set or some pass went unavailable; the ready event is left alone |

## Left out

- BLE I/O: connecting, the `is_connected` check, `start_notify`, `write_gatt_descriptor`, `stop_notify` and the disconnect on leaving the client context. Each is an abstract step that completes or raises, chosen per pass by `Round.failure`. `raise "client not connected"` raises a TypeError, which `except Exception` catches like the others.
- asyncio: each `asyncio.sleep` is a returned pause value. The 10-unit timeout around `stop_notify` is a `StopNotify` failure. `Event.wait` is not modelled as a suspension: `AsyncWaitReady` returns the event's current state, so a wait that another callback would satisfy later is modelled by running that callback first.
- AsyncUpdate: the source loop runs for as long as the device stays available. The model runs at most as many passes as it is given rounds. The only callback that interleaves with it is the unavailable callback (`Round.wentUnavailable`).
- Host base-class behaviour reached through `super()` in the constructor and the two event handlers is not modelled. The host's own handling of `_available` is part of that. So are `_async_handle_bluetooth_poll` and `async_update_listeners`. These are framework code that is not part of this model.
- `bluetooth.async_ble_device_from_address` is a host lookup. It is a parameter: the map of connectable devices by address.
- const.py is not part of this model. `MFR_ID` is the device's constant `mfrId`, given to its constructor. The characteristic UUID, the descriptor handle and its payload appear only as the abstract steps above.
- `EtekcityBPDevice.name` is left out: it reads `self._device`, which the class never sets.
- The unreachable fallbacks `{}` in `sensor_data` and `-127` in `rssi` are left out. `self._data` is always truthy.
- `supported` returns the empty dict itself when there is no manufacturer data. It is modelled by its truth value.
- The `BLEDevice` object is a value holding only its address and name.
- Logging throughout is left out, as are sensor.py, binary_sensor.py and entity.py (entity presentation over the host framework).

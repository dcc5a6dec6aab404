# Booster control library — Dafny model

This project models the client side of the Booster RF amplifier control library
(`boosterCtrlLib/booster_quartiq.py`). The library talks to a Booster over MQTT through the
Miniconf protocol. It builds the device's topic prefix when a resource is opened. It turns channel
and setting requests into topic suffixes and wire values. It registers save requests under a
correlation token. It polls telemetry once, with teardown on both exits, and it polls liveness with
a bounded number of subscribe attempts.

Modules:

- `Wrappers` (wrappers.dfy): `Option`, `Result` and the exceptions the library raises.
- `Decimal` (decimal.dfy): Python's decimal rendering of an `int` in an f-string, and a parser that
  reads it back (it also accepts forms the rendering never produces, such as `007` and `-0`).
- `Topics` (topics.dfy): `PwrType`, the device prefix, every path suffix, and a parser proving that
  each suffix and topic identifies exactly one operation.
- `Wire` (wire.dfy): payload values, the `Enabled`/`Off` state token, the channel names of the save
  command, the `{slope, offset}` calibration record, and Python's `d[key]` on a reply.
- `Transport` (transport.dfy): the MQTT client as the library sees it. It records published
  messages, subscribed topics, per-topic callbacks and subscribe requests. The broker's answer to
  the n-th subscribe request is the given function `grants`.
- `Miniconf` (miniconf.dfy): `MiniconfSync` and its in-flight table; `get`/`set` of the Miniconf
  library are recorded as calls, since their protocol is not part of this file.
- `Booster` (booster.dfy): `MqttServer.open_resource` and every `BoosterQuartiq` operation.

## Model

| member | source | states |
|---|---|---|
| `Topics.DevicePrefix` | boosterCtrlLib/booster_quartiq.py:76 | the prefix is exactly `dt/sinara/booster/` followed by the booster id |
| `Topics.TopicRoundTrip` | boosterCtrlLib/booster_quartiq.py:76 | a device topic (prefix followed by an operation's suffix) parses back to that operation |
| `Topics.ParamSegmentRoundTrip` | boosterCtrlLib/booster_quartiq.py:49-52 | every channel setting, including `{input,output,reflected}_power_transform` built from the `PwrType` names, has a segment that names only it |
| `Topics.ChannelSuffixRoundTrip` | boosterCtrlLib/booster_quartiq.py:215 | `/channel/{n}/{setting}` parses back to the same channel number and setting, for every integer n |
| `Topics.TelemetrySuffixRoundTrip` | boosterCtrlLib/booster_quartiq.py:247 | `/telemetry/ch{n}` parses back to telemetry of channel n |
| `Topics.SuffixRoundTrip` | boosterCtrlLib/booster_quartiq.py:130-257 | every path suffix the library builds parses back to the operation that built it |
| `Topics.SuffixInjective` | boosterCtrlLib/booster_quartiq.py:130-257 | two operations share a suffix if and only if they are the same operation |
| `Decimal.NatToString` | boosterCtrlLib/booster_quartiq.py:215 | a channel number is written as non-empty decimal digits without a leading zero |
| `Decimal.IntToStringRoundTrip` | boosterCtrlLib/booster_quartiq.py:215 | the formatted channel number reads back as the same integer, negative numbers included |
| `Decimal.IntToStringInjective` | boosterCtrlLib/booster_quartiq.py:215 | two channel numbers are formatted alike if and only if they are equal |
| `Wire.StateValue` | boosterCtrlLib/booster_quartiq.py:216 | the state token is `Enabled` for true and `Off` for false, and no other string denotes a state |
| `Wire.StateValueInjective` | boosterCtrlLib/booster_quartiq.py:215-217 | the two states have different tokens |
| `Wire.ChannelNamesDistinct` | boosterCtrlLib/booster_quartiq.py:258 | the channel-name table has 8 pairwise distinct entries |
| `Wire.ChannelStringAsWritten` | boosterCtrlLib/booster_quartiq.py:258-259 | the list lookup succeeds exactly for -8..7, names entry `channel mod 8`, and raises IndexError otherwise |
| `Wire.NegativeChannelAliases` | boosterCtrlLib/booster_quartiq.py:258-259 | as written, channel -1 and channel 7 both yield `Seven` |
| `Wire.SaveChannelName` | boosterCtrlLib/booster_quartiq.py:250-259 | succeeds exactly for channels 0..7, and the name found leads back to the channel number |
| `Wire.SavePayload` | boosterCtrlLib/booster_quartiq.py:258-259 | the save payload is a record with the single field `channel` holding the channel's name, or the out-of-range failure |
| `Wire.CalibrationPayload` | boosterCtrlLib/booster_quartiq.py:186 | the calibration record has exactly the fields `slope` and `offset`, and each reads back the value written |
| `Wire.Field` | boosterCtrlLib/booster_quartiq.py:150 | projecting a field succeeds exactly on a record holding it; KeyError for a missing field, TypeError for a non-record |
| `Miniconf.MiniconfSync.constructor` | boosterCtrlLib/booster_quartiq.py:20-26 | a new Miniconf layer keeps its client and prefix and has nothing in flight |
| `Miniconf.MiniconfSync.SaveConfig` | boosterCtrlLib/booster_quartiq.py:28-47 | with a token not in flight: the table gains exactly that token, bound to a fresh unset event and the returned list, and no other entry changes; exactly one message goes to `prefix + path` with the response topic and the token in its properties; subscriptions and callbacks are untouched |
| `Booster.MqttServer.constructor` | boosterCtrlLib/booster_quartiq.py:56-65 | a server keeps its broker address and port (by default `localhost` and 1883) and has no client yet |
| `Booster.MqttServer.OpenResource` | boosterCtrlLib/booster_quartiq.py:67-79 | the device object gets a fresh client and a Miniconf layer whose prefix is `DevicePrefix(booster_id)` |
| `Booster.BoosterQuartiq.constructor` | boosterCtrlLib/booster_quartiq.py:83-91 | keeps the MAC as the booster id and the given Miniconf layer |
| `Booster.BoosterQuartiq.GetTelemetryData` | boosterCtrlLib/booster_quartiq.py:93-123 | fails with TimeoutError on the topic exactly when no message arrives, otherwise returns the delivered payload; on both exits the topic's callback and subscription are removed and nothing else changes, so state held before the call without that topic is restored |
| `Booster.PollAttemptsSpec` | boosterCtrlLib/booster_quartiq.py:131-136 | a liveness poll makes at most `timeout` attempts, stops at the first granted one, succeeds if and only if some attempt within the budget is granted, and uses all attempts whenever none is granted |
| `Booster.PollAttemptsSkip` | boosterCtrlLib/booster_quartiq.py:131-135 | after refused attempts the poll continues as a poll of the remaining budget |
| `Booster.BoosterQuartiq.IsAlive` | boosterCtrlLib/booster_quartiq.py:125-136 | returns whether some attempt within the budget (15 by default) was granted, and has made exactly `PollAttempts` subscribe requests, all to `prefix + /alive`; the topic stays subscribed after any attempt, and nothing else changes |
| `Booster.BoosterQuartiq.GetSlope` | boosterCtrlLib/booster_quartiq.py:139-150 | issues one `get` on `/channel/{ch}/{pwr}_transform` and returns the reply's `slope` field |
| `Booster.BoosterQuartiq.GetOffset` | boosterCtrlLib/booster_quartiq.py:152-164 | issues one `get` on the same path as `GetSlope` and returns the reply's `offset` field |
| `Booster.BoosterQuartiq.GetTelemetryPeriod` | boosterCtrlLib/booster_quartiq.py:166-174 | issues one `get` on `/telemetry_period` and returns the reply unchanged |
| `Booster.BoosterQuartiq.SetCalibration` | boosterCtrlLib/booster_quartiq.py:176-187 | issues one `set` on the calibration path read by `GetSlope` and `GetOffset`, with the `{slope, offset}` record |
| `Booster.BoosterQuartiq.SetTelemetryPeriod` | boosterCtrlLib/booster_quartiq.py:189-196 | issues one `set` on `/telemetry_period` with the period |
| `Booster.BoosterQuartiq.SetFanSpeed` | boosterCtrlLib/booster_quartiq.py:198-205 | issues one `set` on `/fan_speed` with the speed |
| `Booster.BoosterQuartiq.SetState` | boosterCtrlLib/booster_quartiq.py:207-217 | issues one `set` on `/channel/{ch}/state` with the token `StateValue(state)` |
| `Booster.BoosterQuartiq.SetOutputInterlockTh` | boosterCtrlLib/booster_quartiq.py:219-228 | issues one `set` on `/channel/{ch}/output_interlock_threshold` with the threshold |
| `Booster.BoosterQuartiq.SetBiasVoltage` | boosterCtrlLib/booster_quartiq.py:230-239 | issues one `set` on `/channel/{ch}/bias_voltage` with the voltage |
| `Booster.BoosterQuartiq.GetTelemetry` | boosterCtrlLib/booster_quartiq.py:241-248 | polls `prefix + /telemetry/ch{ch}` once (exactly one subscribe request): TimeoutError when nothing arrives, the payload otherwise, with callback and subscription removed |
| `Booster.BoosterQuartiq.SaveConfig` | boosterCtrlLib/booster_quartiq.py:250-260 | a channel outside 0..7 fails before anything is registered or published; otherwise exactly one request goes to `prefix + /command/save` carrying the channel's name, registered under the token with a fresh unset event and the fresh returned list; no subscription changes |

## Left out

- Connecting to the broker, `loop_start`, the connection message and logging set-up are not modelled.
  Only the prefix rule of `open_resource` is kept.
- The Miniconf library's `get`, `set`, its reply handler and any removal from the in-flight table
  are not part of this model. `MiniconfSync.Get` and `MiniconfSync.Set` only record the call;
  the reply of a `get` is given as a parameter.
- Miniconf.MiniconfSync.SaveConfig: the blocking `event.wait(timeout)` is not modelled. The method
  returns the registered reply list and says nothing of what the reply handler later puts in it.
- The correlation token comes from `uuid.uuid1()`; here it is a parameter, and the assertion that
  it is not already in flight is the method's precondition.
- Blocking waits, `time.sleep` and the MQTT dispatch thread are left out, because they are about
  time and concurrency. The outcome of a telemetry wait is the parameter `arrival`. The broker's
  answer to each subscribe request is the client's `grants` function. Messages that arrive after
  the first one and before the unsubscribe are not modelled.
- Booster.BoosterQuartiq.IsAlive: the truth value of `subscribe(...)` is taken as given. With the
  paho client the call returns a result tuple, which is always truthy. That client is not part of
  this model, so the model does not claim this.
- JSON encoding (`json.dumps`) and decoding (`json.loads`) and UTF-8 decoding are left out.
  Payloads are structured `Value`s, and `GetTelemetry` returns the received text undecoded.
- Floating-point values (slope, offset, fan speed, bias, threshold) are exact reals passed through
  unchanged. The library never computes with them.
- `pwr_type` is a free `str` in the source. The model allows only the three `PwrType` constants.
- Channel numbers in paths are not range-checked by the code, and the model follows the code: any
  integer is formatted into the path. A design that rejects channels outside 0..7 before any
  network activity would differ here.
- Booster.BoosterQuartiq.SaveConfig: models the corrected channel check described under Findings.
  It refuses negative channels; the code as written accepts them. It also reports every refused
  channel as `ChannelOutOfRange(channel)`, where the code raises `IndexError` for channels of 8 or
  more and below -8. `Wire.SaveChannelName` and `Wire.SavePayload` carry the same correction and
  error kind; `Wire.ChannelStringAsWritten` keeps the code's `IndexError`.
- Miniconf.MiniconfSync.constructor: takes the response topic as a parameter. In the code the
  response topic is chosen by the Miniconf library's own constructor, which is not part of this
  model; `Booster.MqttServer.OpenResource` passes it through for the same reason.
- `main.py` and the demo scripts only sequence library calls and print, so they are not modelled.

## Findings

| source | as written | input that shows it | evidently intended | confidence | as-written member | corrected member |
|---|---|---|---|---|---|---|
| boosterCtrlLib/booster_quartiq.py:258-259 | `channel_string[channel]` uses Python list indexing, so channels -8..-1 are accepted and name channels 0..7 | `save_config(-1)` sends `{"channel": "Seven"}`, the same payload as `save_config(7)` | only channels 0..7 are accepted, as the docstring states | not executed; high | `Wire.ChannelStringAsWritten`, `Wire.NegativeChannelAliases` | `Wire.SaveChannelName`, `Wire.SavePayload`, `Booster.BoosterQuartiq.SaveConfig` |

/** The per-device API: opening a Booster under its topic prefix, the calibration, state and
    setting accessors, the one-shot telemetry poll, the liveness poll and the save command. */
module Booster {
  import opened Wrappers
  import opened Wire
  import opened Topics
  import opened Transport
  import opened Miniconf

  /** How many subscribe requests a liveness poll makes when the next request is number `next`
      and `remaining` attempts are allowed: it stops right after the first granted one. */
  function PollAttempts(grants: nat -> bool, next: nat, remaining: int): nat
    decreases remaining
  {
    if remaining <= 0 then 0
    else if grants(next) then 1
    else 1 + PollAttempts(grants, next + 1, remaining - 1)
  }

  /** Some request among the `remaining` ones starting at `next` is granted. */
  predicate PollSucceeds(grants: nat -> bool, next: nat, remaining: int)
  {
    exists j :: next <= j < next + remaining && grants(j)
  }

  /** A poll makes at most `remaining` attempts; it succeeds exactly when its last attempt is
      granted, every earlier attempt was refused, and it uses all attempts whenever none is granted. */
  lemma {:induction false} PollAttemptsSpec(grants: nat -> bool, next: nat, remaining: int)
    ensures PollAttempts(grants, next, remaining) <= (if remaining > 0 then remaining else 0)
    ensures var k := PollAttempts(grants, next, remaining);
      PollSucceeds(grants, next, remaining) <==> k > 0 && grants(next + k - 1)
    ensures var k := PollAttempts(grants, next, remaining);
      forall j :: next <= j < next + k - 1 ==> !grants(j)
    ensures !PollSucceeds(grants, next, remaining) ==>
      PollAttempts(grants, next, remaining) == (if remaining > 0 then remaining else 0)
    decreases remaining
  {
    if remaining > 0 && !grants(next) {
      PollAttemptsSpec(grants, next + 1, remaining - 1);
      if PollSucceeds(grants, next, remaining) {
        var j :| next <= j < next + remaining && grants(j);
        assert next + 1 <= j < next + 1 + (remaining - 1) && grants(j);
      }
      if PollSucceeds(grants, next + 1, remaining - 1) {
        var j :| next + 1 <= j < next + 1 + (remaining - 1) && grants(j);
        assert next <= j < next + remaining;
      }
    } else if remaining > 0 {
      assert next <= next < next + remaining && grants(next);
    }
  }

  /** After `done` refused attempts the rest of the poll is a poll of its own. */
  lemma {:induction false} PollAttemptsSkip(grants: nat -> bool, next: nat, remaining: int, done: nat)
    requires done <= remaining
    requires forall j :: next <= j < next + done ==> !grants(j)
    ensures PollAttempts(grants, next, remaining) == done + PollAttempts(grants, next + done, remaining - done)
    decreases done
  {
    if done > 0 {
      PollAttemptsSkip(grants, next + 1, remaining - 1, done - 1);
    }
  }

  /** `n` copies of `x`. */
  function Repeat<T>(x: T, n: nat): (s: seq<T>)
    ensures |s| == n && forall i :: 0 <= i < n ==> s[i] == x
  {
    if n == 0 then [] else Repeat(x, n - 1) + [x]
  }

  class MqttServer {
    const brokerAddr: string
    const port: int
    var client: Client?
    var miniconf: MiniconfSync?

    constructor (brokerAddr: string := "localhost", port: int := 1883)
      ensures this.brokerAddr == brokerAddr && this.port == port
      ensures client == null && miniconf == null
    {
      this.brokerAddr, this.port := brokerAddr, port;
      client, miniconf := null, null;
    }

    /** Opens a Booster: a new client, a Miniconf layer whose prefix is the device prefix of
        `boosterId`, and the device object on top. Connecting is not modelled; `grants` stands
        for the broker's answers to subscribe requests. */
    method OpenResource(boosterId: string, grants: nat -> bool, responseTopic: string) returns (b: BoosterQuartiq)
      modifies this
      ensures fresh(b) && fresh(b.miniconf) && fresh(b.miniconf.client)
      ensures b.boosterId == boosterId && miniconf == b.miniconf && client == b.miniconf.client
      ensures b.miniconf.prefix == DevicePrefix(boosterId) && b.miniconf.responseTopic == responseTopic
      ensures b.miniconf.inflight == map[] && b.miniconf.calls == []
      ensures b.miniconf.client.published == [] && b.miniconf.client.subscribed == {}
      ensures b.miniconf.client.callbacks == map[] && b.miniconf.client.subscribeRequests == []
      ensures b.miniconf.client.grants == grants
    {
      client := new Client(grants);
      var prefix := DevicePrefix(boosterId);
      miniconf := new MiniconfSync(client, prefix, responseTopic);
      b := new BoosterQuartiq(boosterId, miniconf);
    }
  }

  class BoosterQuartiq {
    const boosterId: string
    const miniconf: MiniconfSync

    constructor (mac: string, miniconf: MiniconfSync)
      ensures boosterId == mac && this.miniconf == miniconf
    {
      boosterId, this.miniconf := mac, miniconf;
    }

    /** Waits for one message on `prefix + topicSuffix`. `arrival` is the payload the dispatch
        thread hands to the callback before the wait times out, if any. The callback and the
        subscription are removed on both exits. */
    method GetTelemetryData(topicSuffix: string, arrival: Option<string>) returns (r: Result<string>)
      modifies miniconf.client
      ensures r.Failure? <==> arrival.None?
      ensures arrival.None? ==> r.error == TimeoutError(miniconf.prefix + topicSuffix)
      ensures arrival.Some? ==> r.value == arrival.value
      ensures miniconf.client.callbacks == old(miniconf.client.callbacks) - {miniconf.prefix + topicSuffix}
      ensures miniconf.client.subscribed == old(miniconf.client.subscribed) - {miniconf.prefix + topicSuffix}
      ensures miniconf.client.subscribeRequests == old(miniconf.client.subscribeRequests) + [miniconf.prefix + topicSuffix]
      ensures miniconf.client.published == old(miniconf.client.published)
    {
      var topic := miniconf.prefix + topicSuffix;
      var eventSet := false;
      var result: map<string, string> := map[];
      var client := miniconf.client;
      client.MessageCallbackAdd(topic, CaptureTelemetry);
      var _ := client.Subscribe(topic);
      if arrival.Some? {
        // the callback, run by the dispatch thread
        result := result["payload" := arrival.value];
        eventSet := true;
      }
      if !eventSet {
        r := Failure(TimeoutError(topic));
      } else {
        r := Success(result["payload"]);
      }
      client.MessageCallbackRemove(topic);
      client.Unsubscribe(topic);
    }

    /** Subscribes to the liveness topic up to `timeout` times and reports whether some attempt
        was granted; the pause between attempts is not modelled. */
    method IsAlive(timeout: int := 15) returns (alive: bool)
      modifies miniconf.client
      ensures alive == PollSucceeds(miniconf.client.grants, |old(miniconf.client.subscribeRequests)|, timeout)
      ensures miniconf.client.subscribeRequests == old(miniconf.client.subscribeRequests)
        + Repeat(miniconf.prefix + Suffix(Alive),
                 PollAttempts(miniconf.client.grants, |old(miniconf.client.subscribeRequests)|, timeout))
      ensures miniconf.client.subscribed == old(miniconf.client.subscribed)
        + (if PollAttempts(miniconf.client.grants, |old(miniconf.client.subscribeRequests)|, timeout) > 0
           then {miniconf.prefix + Suffix(Alive)} else {})
      ensures miniconf.client.published == old(miniconf.client.published)
      ensures miniconf.client.callbacks == old(miniconf.client.callbacks)
    {
      var client := miniconf.client;
      var topic := miniconf.prefix + Suffix(Alive);
      ghost var grants, before := client.grants, client.subscribeRequests;
      ghost var next := |before|;
      var attempt := 0;
      while attempt < timeout
        invariant 0 <= attempt <= (if timeout > 0 then timeout else 0)
        invariant client.subscribeRequests == before + Repeat(topic, attempt)
        invariant forall j :: next <= j < next + attempt ==> !grants(j)
        invariant client.subscribed == old(client.subscribed) + (if attempt > 0 then {topic} else {})
        invariant client.published == old(client.published) && client.callbacks == old(client.callbacks)
      {
        var msg := client.Subscribe(topic);
        if msg {
          PollAttemptsSkip(grants, next, timeout, attempt);
          PollAttemptsSpec(grants, next, timeout);
          return true;
        }
        attempt := attempt + 1;
      }
      if timeout > 0 {
        PollAttemptsSkip(grants, next, timeout, attempt);
        assert PollAttempts(grants, next + attempt, timeout - attempt) == 0;
      }
      PollAttemptsSpec(grants, next, timeout);
      return false;
    }

    method GetSlope(channel: int, pwrType: PwrType, reply: Value) returns (r: Result<Value>)
      modifies miniconf
      ensures miniconf.calls == old(miniconf.calls) + [GetCall(Suffix(Channel(channel, Transform(pwrType))))]
      ensures r == Field(reply, "slope")
      ensures miniconf.inflight == old(miniconf.inflight)
    {
      var path := Suffix(Channel(channel, Transform(pwrType)));
      var record := miniconf.Get(path, reply);
      r := Field(record, "slope");
    }

    method GetOffset(channel: int, pwrType: PwrType, reply: Value) returns (r: Result<Value>)
      modifies miniconf
      ensures miniconf.calls == old(miniconf.calls) + [GetCall(Suffix(Channel(channel, Transform(pwrType))))]
      ensures r == Field(reply, "offset")
      ensures miniconf.inflight == old(miniconf.inflight)
    {
      var path := Suffix(Channel(channel, Transform(pwrType)));
      var record := miniconf.Get(path, reply);
      r := Field(record, "offset");
    }

    method GetTelemetryPeriod(reply: Value) returns (period: Value)
      modifies miniconf
      ensures miniconf.calls == old(miniconf.calls) + [GetCall(Suffix(TelemetryPeriod))]
      ensures period == reply
      ensures miniconf.inflight == old(miniconf.inflight)
    {
      period := miniconf.Get(Suffix(TelemetryPeriod), reply);
    }

    method SetCalibration(channel: int, pwrType: PwrType, slope: real, offset: real)
      modifies miniconf
      ensures miniconf.calls == old(miniconf.calls)
        + [SetCall(Suffix(Channel(channel, Transform(pwrType))), CalibrationPayload(slope, offset))]
      ensures miniconf.inflight == old(miniconf.inflight)
    {
      var payload := CalibrationPayload(slope, offset);
      miniconf.Set(Suffix(Channel(channel, Transform(pwrType))), payload);
    }

    method SetTelemetryPeriod(periodSec: int)
      modifies miniconf
      ensures miniconf.calls == old(miniconf.calls) + [SetCall(Suffix(TelemetryPeriod), Integer(periodSec))]
      ensures miniconf.inflight == old(miniconf.inflight)
    {
      miniconf.Set(Suffix(TelemetryPeriod), Integer(periodSec));
    }

    method SetFanSpeed(fanSpeed: real)
      modifies miniconf
      ensures miniconf.calls == old(miniconf.calls) + [SetCall(Suffix(FanSpeed), Number(fanSpeed))]
      ensures miniconf.inflight == old(miniconf.inflight)
    {
      miniconf.Set(Suffix(FanSpeed), Number(fanSpeed));
    }

    method SetState(channel: int, state: bool)
      modifies miniconf
      ensures miniconf.calls == old(miniconf.calls) + [SetCall(Suffix(Channel(channel, State)), Text(StateValue(state)))]
      ensures miniconf.inflight == old(miniconf.inflight)
    {
      var value := StateValue(state);
      miniconf.Set(Suffix(Channel(channel, State)), Text(value));
    }

    method SetOutputInterlockTh(channel: int, threshold: real)
      modifies miniconf
      ensures miniconf.calls == old(miniconf.calls)
        + [SetCall(Suffix(Channel(channel, OutputInterlockThreshold)), Number(threshold))]
      ensures miniconf.inflight == old(miniconf.inflight)
    {
      miniconf.Set(Suffix(Channel(channel, OutputInterlockThreshold)), Number(threshold));
    }

    method SetBiasVoltage(channel: int, bias: real)
      modifies miniconf
      ensures miniconf.calls == old(miniconf.calls) + [SetCall(Suffix(Channel(channel, BiasVoltage)), Number(bias))]
      ensures miniconf.inflight == old(miniconf.inflight)
    {
      miniconf.Set(Suffix(Channel(channel, BiasVoltage)), Number(bias));
    }

    /** One telemetry record of `channel`, as text; decoding it is not modelled. */
    method GetTelemetry(channel: int, arrival: Option<string>) returns (r: Result<string>)
      modifies miniconf.client
      ensures r.Failure? <==> arrival.None?
      ensures arrival.None? ==> r.error == TimeoutError(miniconf.prefix + Suffix(Telemetry(channel)))
      ensures arrival.Some? ==> r.value == arrival.value
      ensures miniconf.client.callbacks == old(miniconf.client.callbacks) - {miniconf.prefix + Suffix(Telemetry(channel))}
      ensures miniconf.client.subscribed == old(miniconf.client.subscribed) - {miniconf.prefix + Suffix(Telemetry(channel))}
      ensures miniconf.client.subscribeRequests == old(miniconf.client.subscribeRequests) + [miniconf.prefix + Suffix(Telemetry(channel))]
      ensures miniconf.client.published == old(miniconf.client.published)
    {
      r := GetTelemetryData(Suffix(Telemetry(channel)), arrival);
    }

    /** Asks the device to persist the configuration of `channel`. A channel outside 0..7 is
        refused before anything is registered or published; otherwise exactly one request goes
        to the save command topic, registered under the token `cd`. */
    method SaveConfig(channel: int, cd: Token) returns (r: Result<ReplyList>)
      requires 0 <= channel < 8 ==> cd !in miniconf.inflight
      modifies miniconf, miniconf.client
      ensures r.Failure? <==> !(0 <= channel < 8)
      ensures r.Failure? ==> r.error == ChannelOutOfRange(channel)
      ensures r.Failure? ==>
                miniconf.inflight == old(miniconf.inflight)
                && miniconf.client.published == old(miniconf.client.published)
      ensures r.Success? ==>
                SavePayload(channel).Success?
                && miniconf.client.published == old(miniconf.client.published)
                   + [Message(miniconf.prefix + Suffix(CommandSave), SavePayload(channel).value,
                              RequestProperties(miniconf.responseTopic, cd))]
      ensures r.Success? ==>
                fresh(r.value) && cd in miniconf.inflight && miniconf.inflight[cd].ret == r.value
                && fresh(miniconf.inflight[cd].event) && !miniconf.inflight[cd].event.isSet
                && miniconf.inflight.Keys == old(miniconf.inflight).Keys + {cd}
                && forall k :: k in old(miniconf.inflight) ==> miniconf.inflight[k] == old(miniconf.inflight)[k]
      ensures miniconf.client.subscribed == old(miniconf.client.subscribed)
      ensures miniconf.client.callbacks == old(miniconf.client.callbacks)
      ensures miniconf.client.subscribeRequests == old(miniconf.client.subscribeRequests)
      ensures miniconf.calls == old(miniconf.calls)
    {
      var path := Suffix(CommandSave);
      match SavePayload(channel)
      case Failure(e) =>
        r := Failure(e);
      case Success(message) =>
        var ret := miniconf.SaveConfig(path, message, cd);
        r := Success(ret);
    }
  }
}

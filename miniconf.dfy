/** The synchronous Miniconf layer: requests carry a response topic and a correlation token in
    their MQTT properties, and each outstanding request is registered in the in-flight table. */
module Miniconf {
  import opened Wire
  import opened Transport

  /** A one-shot signal, set by the reply handler. */
  class Event {
    var isSet: bool
    constructor ()
      ensures !isSet
    {
      isSet := false;
    }
  }

  /** The list the reply handler fills with the device's answer. */
  class ReplyList {
    var items: seq<Value>
    constructor ()
      ensures items == []
    {
      items := [];
    }
  }

  /** An in-flight entry: the signal the caller waits on and the list its reply goes to. */
  datatype Pending = Pending(event: Event, ret: ReplyList)

  /** A call of the underlying Miniconf `get` or `set`, whose own protocol is not modelled. */
  datatype Call = GetCall(path: string) | SetCall(path: string, value: Value)

  class MiniconfSync {
    const client: Client
    const prefix: string
    const responseTopic: string
    var inflight: map<Token, Pending>
    /** Every `get` and `set` issued through this object, in order. */
    var calls: seq<Call>

    constructor (client: Client, prefix: string, responseTopic: string)
      ensures this.client == client && this.prefix == prefix && this.responseTopic == responseTopic
      ensures inflight == map[] && calls == []
    {
      this.client, this.prefix, this.responseTopic := client, prefix, responseTopic;
      inflight, calls := map[], [];
    }

    /** Registers a fresh correlation token and publishes one request to `prefix + path` whose
        properties name the response topic and the token. The token comes from a UUID and must not
        be in flight already. The blocking wait on the event is not modelled: the method returns
        the registered list as it is handed back to the caller. */
    method SaveConfig(path: string, payload: Value, cd: Token) returns (ret: ReplyList)
      requires cd !in inflight
      modifies this, client
      ensures fresh(ret) && cd in inflight && inflight[cd].ret == ret
      ensures fresh(inflight[cd].event) && !inflight[cd].event.isSet
      ensures inflight.Keys == old(inflight).Keys + {cd}
      ensures forall k :: k in old(inflight) ==> inflight[k] == old(inflight)[k]
      ensures client.published == old(client.published) + [Message(prefix + path, payload, RequestProperties(responseTopic, cd))]
      ensures client.subscribed == old(client.subscribed) && client.callbacks == old(client.callbacks)
      ensures client.subscribeRequests == old(client.subscribeRequests)
      ensures calls == old(calls)
    {
      var event := new Event();
      ret := new ReplyList();
      var props := RequestProperties(responseTopic, cd);
      inflight := inflight[cd := Pending(event, ret)];
      var topic := prefix + path;
      client.Publish(topic, payload, props);
    }

    /** Miniconf's `get`: the device's answer is given, since the exchange is not modelled. */
    method Get(path: string, reply: Value) returns (v: Value)
      modifies this
      ensures calls == old(calls) + [GetCall(path)] && v == reply
      ensures inflight == old(inflight)
    {
      calls := calls + [GetCall(path)];
      v := reply;
    }

    /** Miniconf's `set`. */
    method Set(path: string, value: Value)
      modifies this
      ensures calls == old(calls) + [SetCall(path, value)]
      ensures inflight == old(inflight)
    {
      calls := calls + [SetCall(path, value)];
    }
  }
}

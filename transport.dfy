/** The MQTT client the Booster library drives, reduced to what the library observes of it: the
    messages it published, the topics it subscribed, its per-topic callbacks and the answer it
    gives to each subscribe request. Connection, keepalive and the dispatch thread are not modelled. */
module Transport {
  import opened Wire

  /** A correlation token: the bytes of a UUID. */
  type Token = seq<bv8>

  /** MQTT v5 publish properties. */
  datatype Properties = NoProperties | RequestProperties(responseTopic: string, correlationData: Token)

  datatype Message = Message(topic: string, payload: Value, props: Properties)

  /** The only callback the library installs: store the payload of a telemetry message. */
  datatype Handler = CaptureTelemetry

  class Client {
    var published: seq<Message>
    var subscribed: set<string>
    var callbacks: map<string, Handler>
    /** The topic of every subscribe request, in the order they were made. */
    var subscribeRequests: seq<string>
    /** Whether the n-th subscribe request (counting from 0) reports success; chosen by the broker. */
    const grants: nat -> bool

    constructor (grants: nat -> bool)
      ensures published == [] && subscribed == {} && callbacks == map[] && subscribeRequests == []
      ensures this.grants == grants
    {
      published, subscribed, callbacks, subscribeRequests := [], {}, map[], [];
      this.grants := grants;
    }

    method Publish(topic: string, payload: Value, props: Properties)
      modifies this
      ensures published == old(published) + [Message(topic, payload, props)]
      ensures subscribed == old(subscribed) && callbacks == old(callbacks)
      ensures subscribeRequests == old(subscribeRequests)
    {
      published := published + [Message(topic, payload, props)];
    }

    method Subscribe(topic: string) returns (ok: bool)
      modifies this
      ensures ok == grants(|old(subscribeRequests)|)
      ensures subscribeRequests == old(subscribeRequests) + [topic]
      ensures subscribed == old(subscribed) + {topic}
      ensures published == old(published) && callbacks == old(callbacks)
    {
      ok := grants(|subscribeRequests|);
      subscribeRequests := subscribeRequests + [topic];
      subscribed := subscribed + {topic};
    }

    method Unsubscribe(topic: string)
      modifies this
      ensures subscribed == old(subscribed) - {topic}
      ensures published == old(published) && callbacks == old(callbacks)
      ensures subscribeRequests == old(subscribeRequests)
    {
      subscribed := subscribed - {topic};
    }

    method MessageCallbackAdd(topic: string, h: Handler)
      modifies this
      ensures callbacks == old(callbacks)[topic := h]
      ensures published == old(published) && subscribed == old(subscribed)
      ensures subscribeRequests == old(subscribeRequests)
    {
      callbacks := callbacks[topic := h];
    }

    method MessageCallbackRemove(topic: string)
      modifies this
      ensures callbacks == old(callbacks) - {topic}
      ensures published == old(published) && subscribed == old(subscribed)
      ensures subscribeRequests == old(subscribeRequests)
    {
      callbacks := callbacks - {topic};
    }
  }
}

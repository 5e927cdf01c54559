/** The one operation of the paho-mqtt client that the monitor's logic depends
    on: `client.publish(topic, payload, qos=...)`. Connecting, authenticating,
    pacing with `time.sleep` and disconnecting are not modelled; the client is
    a recorder of what was published, in the order it was published. */
module Mqtt {

  /** MQTT quality-of-service levels. */
  type Qos = q: nat | q <= 2

  datatype Message<P> = Message(topic: string, payload: P, qos: Qos)

  class Recorder<P> {
    /** Every message handed to `publish`, oldest first. */
    var sent: seq<Message<P>>

    constructor ()
      ensures sent == []
    {
      sent := [];
    }

    /** `client.publish(topic, payload, qos=qos)` */
    method Publish(topic: string, payload: P, qos: Qos)
      modifies this
      ensures sent == old(sent) + [Message(topic, payload, qos)]
    {
      sent := sent + [Message(topic, payload, qos)];
    }
  }
}

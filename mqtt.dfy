/**
  What a publisher loop hands to its MQTT client, in order. Every client
  here has one `available` topic and one data topic: `Available` is
  `pub('available', 'online' | 'offline')`, `Data` a message on the data
  topic, and `Sleep` the delay before the next round. Connecting announces
  online and disconnecting announces offline (`hass_client.connect` and
  `hass_client.disconnect`).
*/
module Mqtt {

  datatype Event<P> = Available(online: bool) | Data(payload: P) | Sleep(seconds: int)
}

/** Records exchanged with the Connect Mesh cloud REST API, shared by both
    integration variants. */
module Wire {
  import opened Wrappers

  /** Root of every REST path. */
  const BaseUrl: string := "https://cloud.connect-mesh.io/api/core"

  /** Delivery options every command payload carries unchanged. */
  const Acknowledged: bool := true
  const Retries: int := 0
  const TimeoutMs: int := 10000

  /** The `state` object of a status response. Every field may be absent;
      `lightness`, `hue` and `saturation` are on the 0..65535 scale,
      `temperature` is in Kelvin. */
  datatype StateFields = StateFields(
    power: Option<bool>,
    lightness: Option<int>,
    temperature: Option<int>,
    hue: Option<int>,
    saturation: Option<int>)

  /** The state object `{}` that stands in for a missing one. */
  const NoFields: StateFields := StateFields(None, None, None, None, None)

  /** A body of `GET /devices/{uniqueId}/status`. */
  datatype DeviceStatus = DeviceStatus(abstraction: Option<string>, state: Option<StateFields>)

  /** A device as listed by `GET /devices`. */
  datatype Device = Device(uniqueId: string, name: string, networkId: string, deviceType: string)

  /** A device as stored in a configuration entry. */
  datatype DeviceRecord = DeviceRecord(uniqueId: string, name: string, deviceType: string)

  /** A network as listed by `GET /networks`. */
  datatype Network = Network(id: string, name: string)

  /** The command-specific part of a PUT payload. */
  datatype Body =
    | PowerBody(power: string, extraLightness: Option<real>)
    | LightnessBody(lightness: real)
    | TemperatureBody(temperature: int)
    | HueSaturationBody(hue: real, saturation: real)

  /** A full PUT payload: the command part plus the target and delivery options. */
  datatype Payload = Payload(body: Body, uniqueId: string, acknowledged: bool, retries: int, timeoutMs: int)

  datatype Request = Get(url: string) | Put(url: string, payload: Payload)

  /** An HTTP response: its status code and the parsed body. */
  datatype Response<T> = Response(status: int, body: T)

  /** The payload carries the given target and the fixed delivery options. */
  predicate CarriesProtocolConstants(p: Payload, uniqueId: string) {
    && p.uniqueId == uniqueId
    && p.acknowledged
    && p.retries == 0
    && p.timeoutMs == 10000
  }

  function MakePayload(body: Body, uniqueId: string): (p: Payload)
    ensures CarriesProtocolConstants(p, uniqueId)
    ensures p.body == body
  {
    Payload(body, uniqueId, Acknowledged, Retries, TimeoutMs)
  }

  /** The wire word for a power state. */
  function PowerWord(on: bool): (w: string)
    ensures w == "on" <==> on
    ensures w == "on" || w == "off"
  {
    if on then "on" else "off"
  }
}

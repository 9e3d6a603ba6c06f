/** The REST client of the current integration (`ConnectMeshAPI`): the request
    each call sends and how a status response is read. Sending is left to the
    caller; a response is an input. */
module Api {
  import opened Wrappers
  import opened Wire

  /** The calls the light entity makes on the client. */
  datatype Command =
    | SetPower(uniqueId: string, on: bool)
    | SetLightness(uniqueId: string, lightness: real)
    | SetTemperature(uniqueId: string, temperature: int)
    | SetHueSaturation(uniqueId: string, hue: real, saturation: real)

  const StatusPrefix: string := BaseUrl + "/devices/"
  const StatusSuffix: string := "/status"

  /** The status URL of a device: a fixed prefix and suffix around its id,
      so the id can be read back from the URL. */
  function StatusUrl(uniqueId: string): (url: string)
    ensures |url| == |StatusPrefix| + |uniqueId| + |StatusSuffix|
    ensures url[..|StatusPrefix|] == StatusPrefix
    ensures url[|StatusPrefix|..|url| - |StatusSuffix|] == uniqueId
    ensures url[|url| - |StatusSuffix|..] == StatusSuffix
  {
    StatusPrefix + uniqueId + StatusSuffix
  }

  /** Distinct devices are polled at distinct URLs. */
  lemma StatusUrlInjective(a: string, b: string)
    requires StatusUrl(a) == StatusUrl(b)
    ensures a == b
  {
    var url := StatusUrl(a);
    assert a == url[|StatusPrefix|..|url| - |StatusSuffix|];
  }

  /** `get_device_status`: the parsed body on HTTP 200, nothing otherwise. */
  function GetDeviceStatus(response: Response<DeviceStatus>): (r: Option<DeviceStatus>)
    ensures r.Some? <==> response.status == 200
    ensures r.Some? ==> r.value == response.body
  {
    if response.status == 200 then Some(response.body) else None
  }

  /** `min(360, max(0, hue))`. */
  function ClampHue(hue: real): (r: real)
    ensures 0.0 <= r <= 360.0
    ensures 0.0 <= hue <= 360.0 ==> r == hue
    ensures hue < 0.0 ==> r == 0.0
    ensures hue > 360.0 ==> r == 360.0
  {
    var low := if 0.0 < hue then hue else 0.0;
    if 360.0 < low then 360.0 else low
  }

  /** `min(1, max(0, saturation))`. */
  function ClampSaturation(saturation: real): (r: real)
    ensures 0.0 <= r <= 1.0
    ensures 0.0 <= saturation <= 1.0 ==> r == saturation
    ensures saturation < 0.0 ==> r == 0.0
    ensures saturation > 1.0 ==> r == 1.0
  {
    var low := if 0.0 < saturation then saturation else 0.0;
    if 1.0 < low then 1.0 else low
  }

  /** Clamping twice is clamping once, and clamping keeps the order of its inputs. */
  lemma ClampsIdempotentAndMonotone(h: real, h': real, s: real, s': real)
    ensures ClampHue(ClampHue(h)) == ClampHue(h)
    ensures ClampSaturation(ClampSaturation(s)) == ClampSaturation(s)
    ensures h <= h' ==> ClampHue(h) <= ClampHue(h')
    ensures s <= s' ==> ClampSaturation(s) <= ClampSaturation(s')
  {
  }

  /** The PUT path of a command. */
  function CommandUrl(c: Command): string {
    match c
    case SetPower(_, _) => BaseUrl + "/devices/power"
    case SetLightness(_, _) => BaseUrl + "/devices/lightness"
    case SetTemperature(_, _) => BaseUrl + "/devices/temperature"
    case SetHueSaturation(_, _, _) => BaseUrl + "/devices/hue_saturation"
  }

  /** The request a client call sends. */
  function ToRequest(c: Command): (r: Request)
    ensures r.Put? && r.url == CommandUrl(c)
    ensures CarriesProtocolConstants(r.payload, c.uniqueId)
    ensures c.SetPower? ==>
      && r.payload.body.PowerBody?
      && (r.payload.body.power == "on" <==> c.on)
      && (r.payload.body.power == "on" || r.payload.body.power == "off")
      && r.payload.body.extraLightness.None?
    ensures c.SetLightness? ==> r.payload.body == LightnessBody(c.lightness)
    ensures c.SetTemperature? ==> r.payload.body == TemperatureBody(c.temperature)
    ensures c.SetHueSaturation? ==>
      && r.payload.body.HueSaturationBody?
      && 0.0 <= r.payload.body.hue <= 360.0
      && 0.0 <= r.payload.body.saturation <= 1.0
      && (0.0 <= c.hue <= 360.0 ==> r.payload.body.hue == c.hue)
      && (0.0 <= c.saturation <= 1.0 ==> r.payload.body.saturation == c.saturation)
    ensures c.SetHueSaturation? ==>
      r.payload.body == HueSaturationBody(ClampHue(c.hue), ClampSaturation(c.saturation))
  {
    var body := match c
      case SetPower(_, on) => PowerBody(PowerWord(on), None)
      case SetLightness(_, lightness) => LightnessBody(lightness)
      case SetTemperature(_, temperature) => TemperatureBody(temperature)
      case SetHueSaturation(_, hue, saturation) =>
        HueSaturationBody(ClampHue(hue), ClampSaturation(saturation));
    Put(CommandUrl(c), MakePayload(body, c.uniqueId))
  }
}

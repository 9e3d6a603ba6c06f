/** The earlier integration variant: a device entity whose features follow
    the device's catalogue type, its power command, and the switch platform,
    which takes every device that is not a known LED type. */
module Legacy {
  import opened Wrappers
  import opened Wire

  /** The catalogue types of dimmable LED devices. */
  const LightTypes: seq<string> := [
    "com.haefele.led.white.strip",
    "com.haefele.led.rgb",
    "com.haefele.led.white",
    "com.haefele.led.multiwhite.2700K"
  ]
  const RgbType: string := "com.haefele.led.rgb"
  const MultiwhiteType: string := "com.haefele.led.multiwhite.2700K"

  /** Home Assistant's light feature flags (mask values 1, 16 and 2). */
  datatype Feature = SupportBrightness | SupportColor | SupportColorTemp

  /** The feature set built in the entity constructor, flag by flag. */
  function SupportedFeatures(deviceType: string): (r: set<Feature>)
    ensures SupportBrightness in r <==> deviceType in LightTypes
    ensures SupportColor in r <==> deviceType == RgbType
    ensures SupportColorTemp in r <==> deviceType == MultiwhiteType
    ensures SupportColor in r || SupportColorTemp in r ==> SupportBrightness in r
    ensures deviceType !in LightTypes ==> r == {}
  {
    var dimmable := if deviceType in LightTypes then {SupportBrightness} else {};
    var colored := if deviceType == RgbType then dimmable + {SupportColor} else dimmable;
    if deviceType == MultiwhiteType then colored + {SupportColorTemp} else colored
  }

  /** A device entity: its device and the state it shows. */
  datatype Entity = Entity(device: Device, state: Option<bool>, brightness: Option<int>, supportedFeatures: set<Feature>)

  function NewEntity(device: Device): (e: Entity)
    ensures e.device == device && e.state.None? && e.brightness.None?
    ensures e.supportedFeatures == SupportedFeatures(device.deviceType)
  {
    Entity(device, None, None, SupportedFeatures(device.deviceType))
  }

  const PowerUrl: string := BaseUrl + "/devices/power"

  /** The power payload; `lightness` is added only when a brightness is given. */
  function PowerPayload(uniqueId: string, power: string, brightness: Option<int>): (p: Payload)
    ensures CarriesProtocolConstants(p, uniqueId)
    ensures p.body.PowerBody? && p.body.power == power
    ensures p.body.extraLightness.Some? <==> brightness.Some?
    ensures brightness.Some? ==> p.body.extraLightness.value * 255.0 == brightness.value as real
  {
    var lightness := match brightness
      case Some(b) => Some(b as real / 255.0)
      case None => None;
    MakePayload(PowerBody(power, lightness), uniqueId)
  }

  /** The outcome of a command: the entity afterwards and the request sent. */
  datatype Outcome = Outcome(next: Entity, request: Request)

  /** `_set_power` of the device entity: the request is sent whatever happens;
      the entity changes only when the cloud answers HTTP 200. On any other
      answer it logs the failure and keeps its state, as the switch does. */
  function SetPower(e: Entity, power: string, brightness: Option<int>, status: int): (o: Outcome)
    ensures o.request == Put(PowerUrl, PowerPayload(e.device.uniqueId, power, brightness))
    ensures status != 200 ==> o.next == e
    ensures status == 200 ==> o.next.state == Some(power == "on")
    ensures status == 200 && brightness.Some? ==> o.next.brightness == brightness
    ensures brightness.None? ==> o.next.brightness == e.brightness
    ensures o.next.device == e.device && o.next.supportedFeatures == e.supportedFeatures
  {
    var request := Put(PowerUrl, PowerPayload(e.device.uniqueId, power, brightness));
    if status != 200 then Outcome(e, request)
    else
      var on := e.(state := Some(power == "on"));
      Outcome(if brightness.Some? then on.(brightness := brightness) else on, request)
  }

  /** An exception a command raises, with the request it had already sent. */
  datatype Raise = Raise(error: string, sent: Request)

  /** `_set_power` of the device entity as written: the module never defines
      the logger it uses on a failed answer, so any answer other than HTTP 200
      raises `NameError` after the request is sent, before any state change. */
  function SetPowerAsWritten(e: Entity, power: string, brightness: Option<int>, status: int): (r: Result<Outcome, Raise>)
    ensures r.Err? <==> status != 200
    ensures r.Err? ==> r.error == Raise("NameError", Put(PowerUrl, PowerPayload(e.device.uniqueId, power, brightness)))
    ensures r.Ok? ==> r.value == SetPower(e, power, brightness, status)
  {
    var request := Put(PowerUrl, PowerPayload(e.device.uniqueId, power, brightness));
    if status != 200 then Err(Raise("NameError", request))
    else Ok(SetPower(e, power, brightness, status))
  }

  /** A refused power command raises out of turn-on and turn-off as written;
      corrected, the entity is left as it was and nothing raises. On HTTP 200
      both agree. */
  lemma FailedPowerCallRaises(e: Entity, power: string, brightness: Option<int>, status: int)
    requires status != 200
    ensures SetPowerAsWritten(e, power, brightness, status).Err?
    ensures SetPowerAsWritten(e, power, brightness, status).error.error == "NameError"
    ensures SetPower(e, power, brightness, status).next == e
    ensures SetPowerAsWritten(e, power, brightness, 200) == Ok(SetPower(e, power, brightness, 200))
  {
  }

  /** Turning the device entity on, with an optional brightness, and off,
      with the corrected failure handling of `SetPower`. */
  function TurnOn(e: Entity, brightness: Option<int>, status: int): (o: Outcome)
    ensures o.request.Put? && o.request.payload.body.PowerBody? && o.request.payload.body.power == "on"
    ensures o.request == Put(PowerUrl, PowerPayload(e.device.uniqueId, "on", brightness))
    ensures status == 200 ==> o.next.state == Some(true)
    ensures status == 200 && brightness.Some? ==> o.next.brightness == brightness
    ensures brightness.None? ==> o.next.brightness == e.brightness
    ensures status != 200 ==> o.next == e
    ensures o.next.device == e.device && o.next.supportedFeatures == e.supportedFeatures
  {
    SetPower(e, "on", brightness, status)
  }

  function TurnOff(e: Entity, status: int): (o: Outcome)
    ensures o.request.Put? && o.request.payload.body.PowerBody? && o.request.payload.body.power == "off"
    ensures o.request.payload.body.extraLightness.None?
    ensures o.request == Put(PowerUrl, PowerPayload(e.device.uniqueId, "off", None))
    ensures status == 200 ==> o.next.state == Some(false)
    ensures o.next.brightness == e.brightness
    ensures status != 200 ==> o.next == e
    ensures o.next.device == e.device && o.next.supportedFeatures == e.supportedFeatures
  {
    SetPower(e, "off", None, status)
  }

  /** The devices the switch platform creates entities for, in order: those
      whose type is not a dimmable LED type. */
  function SwitchDevices(devices: seq<Device>): (r: seq<Device>)
    ensures forall d :: d in r <==> d in devices && d.deviceType !in LightTypes
    ensures |r| <= |devices|
  {
    if devices == [] then []
    else
      (if devices[0].deviceType !in LightTypes then [devices[0]] else [])
      + SwitchDevices(devices[1..])
  }

  /** The switch filter keeps the input order. */
  lemma {:induction false} SwitchDevicesConcat(a: seq<Device>, b: seq<Device>)
    ensures SwitchDevices(a + b) == SwitchDevices(a) + SwitchDevices(b)
  {
    if a == [] {
      assert a + b == b;
    } else {
      assert (a + b)[0] == a[0];
      assert (a + b)[1..] == a[1..] + b;
      SwitchDevicesConcat(a[1..], b);
    }
  }

  /** A device gets a switch exactly when its entity would not be dimmable. */
  lemma SwitchIffNotDimmable(devices: seq<Device>, d: Device)
    requires d in devices
    ensures d in SwitchDevices(devices) <==> SupportBrightness !in NewEntity(d).supportedFeatures
  {
  }

  /** A switch entity: the state it shows. */
  datatype Switch = Switch(device: Device, state: Option<bool>)

  /** The switch's payload: power word, target and fixed options, never a lightness. */
  function SwitchPayload(uniqueId: string, power: string): (p: Payload)
    ensures CarriesProtocolConstants(p, uniqueId)
    ensures p.body == PowerBody(power, None)
  {
    MakePayload(PowerBody(power, None), uniqueId)
  }

  /** `_set_power` of the switch: the state follows the power word only on
      HTTP 200. */
  function SwitchSetPower(s: Switch, power: string, status: int): (r: (Switch, Request))
    ensures r.1 == Put(PowerUrl, SwitchPayload(s.device.uniqueId, power))
    ensures status == 200 ==> r.0 == s.(state := Some(power == "on"))
    ensures status != 200 ==> r.0 == s
  {
    var request := Put(PowerUrl, SwitchPayload(s.device.uniqueId, power));
    if status == 200 then (s.(state := Some(power == "on")), request) else (s, request)
  }

  /** Switch on sends "on", switch off sends "off"; on success the switch shows
      the state it was asked for. */
  function SwitchTurn(s: Switch, on: bool, status: int): (r: (Switch, Request))
    ensures r.1.Put? && r.1.payload.body == PowerBody(if on then "on" else "off", None)
    ensures r.1 == Put(PowerUrl, SwitchPayload(s.device.uniqueId, PowerWord(on)))
    ensures status == 200 ==> r.0 == s.(state := Some(on))
    ensures status != 200 ==> r.0 == s
  {
    SwitchSetPower(s, PowerWord(on), status)
  }

  /** A switch command answered with HTTP 200 is idempotent: repeating it
      sends the same request and leaves the switch as the first did; the last
      of two answered commands decides the state. */
  lemma SwitchTurnIdempotent(s: Switch, on: bool, on': bool)
    ensures SwitchTurn(SwitchTurn(s, on, 200).0, on, 200) == SwitchTurn(s, on, 200)
    ensures SwitchTurn(SwitchTurn(s, on, 200).0, on', 200).0 == SwitchTurn(s, on', 200).0
  {
  }
}

/** The light entity of the current integration: decoding a polled status
    into entity attributes, and the state changes and client calls of
    turning the light on and off. */
module Light {
  import opened Wrappers
  import opened Wire
  import Api

  /** Bounds of the colour temperature sent to a device, in Kelvin. */
  const MinKelvin: int := 2700
  const MaxKelvin: int := 5000

  datatype ColorMode = OnOff | Brightness | ColorTemp | Hs

  /** Hue in degrees and saturation in percent, as Home Assistant shows them. */
  datatype HsColor = HsColor(hue: real, saturation: real)

  /** Home Assistant's colour-temperature conversions between mired and
      Kelvin. They belong to the host's colour library and are taken as given:
      nothing is assumed about them except where a lemma says so. */
  datatype ColorUtil = ColorUtil(miredToKelvin: int -> int, kelvinToMired: int -> int)

  /** The attributes of one light entity. */
  datatype LightState = LightState(
    uniqueId: string,
    name: string,
    isOn: Option<bool>,
    brightness: Option<int>,
    colorTemp: Option<int>,
    hsColor: Option<HsColor>,
    lastKnownBrightness: Option<int>,
    pendingUpdate: bool,
    supportedColorModes: set<ColorMode>,
    colorMode: ColorMode,
    minMireds: int,
    maxMireds: int)

  /** Python truthiness of an optional number: present and not zero. */
  predicate Truthy(v: Option<int>) {
    v.Some? && v.value != 0
  }

  /** The entity as created for a configured device. */
  function NewLight(device: DeviceRecord, util: ColorUtil): (s: LightState)
    ensures s.uniqueId == device.uniqueId && s.name == device.name
    ensures s.isOn.None? && s.brightness.None? && s.colorTemp.None? && s.hsColor.None?
    ensures s.lastKnownBrightness.None? && !s.pendingUpdate
    ensures s.colorMode == Brightness && s.supportedColorModes == {Brightness}
    ensures s.minMireds == util.kelvinToMired(MaxKelvin) && s.maxMireds == util.kelvinToMired(MinKelvin)
  {
    LightState(device.uniqueId, device.name, None, None, None, None, None, false,
               {Brightness}, Brightness, util.kelvinToMired(MaxKelvin), util.kelvinToMired(MinKelvin))
  }

  /** Under the ASSUMPTION that the host's Kelvin-to-mired conversion is
      decreasing, the entity's mired range is not empty. */
  lemma MiredRangeOrdered(device: DeviceRecord, util: ColorUtil)
    requires forall a, b :: a <= b ==> util.kelvinToMired(b) <= util.kelvinToMired(a)
    ensures NewLight(device, util).minMireds <= NewLight(device, util).maxMireds
  {
  }

  /** One entity per configured device, in order, whatever its stored type. */
  function CreateLights(devices: seq<DeviceRecord>, util: ColorUtil): (lights: seq<LightState>)
    ensures |lights| == |devices|
    ensures forall i :: 0 <= i < |devices| ==> lights[i] == NewLight(devices[i], util)
  {
    seq(|devices|, i requires 0 <= i < |devices| => NewLight(devices[i], util))
  }

  /** Device lightness (0..65535) to Home Assistant brightness (0..255):
      `round(value / 65535 * 255)`, which is `value / 257` rounded; 257 is odd,
      so there is never a tie and the rounding is `(value + 128) / 257`. */
  function ApiToHaBrightness(value: int): (b: int)
    ensures 257 * b - 128 <= value <= 257 * b + 128
    ensures 0 <= value <= 65535 ==> 0 <= b <= 255
    ensures value == 0 ==> b == 0
    ensures value == 65535 ==> b == 255
  {
    (value + 128) / 257
  }

  /** The integer formula is Python's `round` of the real quotient: it is
      within one half of it, and every other integer is at least one half away. */
  lemma ApiToHaBrightnessRounds(value: int, k: int)
    ensures var exact := value as real / 65535.0 * 255.0;
      && -0.5 < exact - ApiToHaBrightness(value) as real < 0.5
      && (k != ApiToHaBrightness(value) ==> exact - k as real >= 0.5 || k as real - exact >= 0.5)
  {
    var b := ApiToHaBrightness(value);
    var exact := value as real / 65535.0 * 255.0;
    assert exact == value as real / 257.0;
    assert -128.0 <= value as real - 257.0 * b as real <= 128.0;
    if k < b {
      assert 257.0 * k as real <= 257.0 * b as real - 257.0;
    } else if k > b {
      assert 257.0 * k as real >= 257.0 * b as real + 257.0;
    }
  }

  /** A larger lightness never reads as a smaller brightness. */
  lemma ApiToHaBrightnessMonotone(a: int, b: int)
    requires a <= b
    ensures ApiToHaBrightness(a) <= ApiToHaBrightness(b)
  {
  }

  /** Home Assistant brightness (0..255) to the fraction (0..1) the lightness
      command sends. */
  function HaToApiBrightness(b: int): (lightness: real)
    ensures lightness * 255.0 == b as real
    ensures 0 <= b <= 255 ==> 0.0 <= lightness <= 1.0
  {
    b as real / 255.0
  }

  /** Kelvin clamped into the device's range: `max(2700, min(5000, kelvin))`. */
  function ClampKelvin(kelvin: int): (k: int)
    ensures MinKelvin <= k <= MaxKelvin
    ensures MinKelvin <= kelvin <= MaxKelvin ==> k == kelvin
    ensures kelvin < MinKelvin ==> k == MinKelvin
    ensures kelvin > MaxKelvin ==> k == MaxKelvin
  {
    var high := if kelvin < MaxKelvin then kelvin else MaxKelvin;
    if MinKelvin < high then high else MinKelvin
  }

  /** Clamping a clamped Kelvin changes nothing, and the clamp keeps the order
      of its inputs. */
  lemma ClampKelvinIdempotentAndMonotone(k: int, k': int)
    ensures ClampKelvin(ClampKelvin(k)) == ClampKelvin(k)
    ensures k <= k' ==> ClampKelvin(k) <= ClampKelvin(k')
  {
  }

  /** Hue and saturation as read from a status (both on the 0..65535 scale). */
  function HsFromApi(hue: int, saturation: int): (hs: HsColor)
    ensures hs.hue * 65535.0 == hue as real * 360.0
    ensures hs.saturation * 65535.0 == saturation as real * 100.0
    ensures 0 <= hue <= 65535 ==> 0.0 <= hs.hue <= 360.0
    ensures 0 <= saturation <= 65535 ==> 0.0 <= hs.saturation <= 100.0
  {
    HsColor(hue as real / 65535.0 * 360.0, saturation as real / 65535.0 * 100.0)
  }

  /** Hue in degrees to the value handed to the client: the 0..65535 scale. */
  function HueToApi(hue: real): (v: real)
    ensures v * 360.0 == hue * 65535.0
    ensures 0.0 <= hue <= 360.0 ==> 0.0 <= v <= 65535.0
  {
    hue / 360.0 * 65535.0
  }

  /** Saturation in percent to the value handed to the client: a 0..1 fraction. */
  function SaturationToApi(saturation: real): (v: real)
    ensures v * 100.0 == saturation
    ensures 0.0 <= saturation <= 100.0 ==> 0.0 <= v <= 1.0
  {
    saturation / 100.0
  }

  /** The read and write scales: hue reads and writes on 0..65535 alike, but
      saturation reads from 0..65535 and writes as a 0..1 fraction, and
      brightness reads from 0..65535 and writes as a 0..1 fraction. So a value
      read and handed back to the client, before the client's clamp, is not
      the value read, except for hue; on the wire the hue is clamped as well
      (see `WireHueSaturates`). */
  lemma ReadWriteScales(v: int)
    ensures HueToApi(HsFromApi(v, 0).hue) == v as real
    ensures SaturationToApi(HsFromApi(0, v).saturation) == v as real / 65535.0
    ensures 0 <= v <= 65535 ==> 0.0 <= HaToApiBrightness(ApiToHaBrightness(v)) <= 1.0
  {
  }

  /** The hue the device receives from a colour command: scaled to 0..65535 by
      the entity, then clamped to 0..360 by the client, so every hue from about
      two degrees up arrives as 360. */
  lemma WireHueSaturates(uniqueId: string, hs: HsColor)
    requires 0.0 <= hs.hue <= 360.0 && 0.0 <= hs.saturation <= 100.0
    ensures var r := Api.ToRequest(Api.SetHueSaturation(uniqueId, HueToApi(hs.hue), SaturationToApi(hs.saturation)));
      && r.payload.body.saturation * 100.0 == hs.saturation
      && (hs.hue * 65535.0 <= 360.0 * 360.0 ==> r.payload.body.hue * 360.0 == hs.hue * 65535.0)
      && (hs.hue * 65535.0 >= 360.0 * 360.0 ==> r.payload.body.hue == 360.0)
  {
  }

  /** `_update_attributes`: decodes a status into the entity's attributes.
      Fields absent from the status leave their attribute as it was; the
      colour mode is recomputed from the status alone. */
  function UpdateAttributes(s: LightState, f: StateFields, util: ColorUtil): (r: LightState)
    ensures r.isOn == Some(f.power == Some(true))
    ensures f.lightness.Some? ==> r.brightness == Some(ApiToHaBrightness(f.lightness.value))
    ensures f.lightness.None? ==> r.brightness == s.brightness
    ensures r.lastKnownBrightness != s.lastKnownBrightness ==> f.lightness.Some? && f.power == Some(true)
    ensures f.lightness.Some? && f.power == Some(true) ==> r.lastKnownBrightness == r.brightness
    ensures f.temperature.Some? ==> r.colorTemp == Some(util.kelvinToMired(f.temperature.value))
    ensures f.temperature.None? ==> r.colorTemp == s.colorTemp
    ensures r.colorMode == ColorTemp <==> f.temperature.Some?
    ensures r.colorMode == Hs <==> f.temperature.None? && f.hue.Some? && f.saturation.Some?
    ensures r.colorMode == Brightness <==>
      f.temperature.None? && !(f.hue.Some? && f.saturation.Some?) && f.lightness.Some?
    ensures r.colorMode == OnOff <==>
      f.temperature.None? && !(f.hue.Some? && f.saturation.Some?) && f.lightness.None?
    ensures r.colorMode == Hs ==> r.hsColor == Some(HsFromApi(f.hue.value, f.saturation.value))
    ensures r.colorMode != Hs ==> r.hsColor == s.hsColor
    ensures r.colorMode in r.supportedColorModes
    ensures r.supportedColorModes == if r.colorMode == OnOff then {OnOff} else {r.colorMode, Brightness}
    ensures r.uniqueId == s.uniqueId && r.name == s.name && r.pendingUpdate == s.pendingUpdate
    ensures r.minMireds == s.minMireds && r.maxMireds == s.maxMireds
  {
    var power := f.power.GetOr(false);
    var lit :=
      if f.lightness.None? then s.(isOn := Some(power))
      else
        var b := Some(ApiToHaBrightness(f.lightness.value));
        if power then s.(isOn := Some(power), brightness := b, lastKnownBrightness := b)
        else s.(isOn := Some(power), brightness := b);
    if f.temperature.Some? then
      lit.(colorTemp := Some(util.kelvinToMired(f.temperature.value)),
           supportedColorModes := {ColorTemp, Brightness}, colorMode := ColorTemp)
    else if f.hue.Some? && f.saturation.Some? then
      lit.(hsColor := Some(HsFromApi(f.hue.value, f.saturation.value)),
           supportedColorModes := {Hs, Brightness}, colorMode := Hs)
    else if f.lightness.Some? then
      lit.(supportedColorModes := {Brightness}, colorMode := Brightness)
    else
      lit.(supportedColorModes := {OnOff}, colorMode := OnOff)
  }

  /** The colour mode and supported set depend on the status only, never on
      the mode the entity had before; decoding the same status twice changes
      nothing the second time. */
  lemma ColorModeIgnoresHistory(s1: LightState, s2: LightState, f: StateFields, util: ColorUtil)
    ensures UpdateAttributes(s1, f, util).colorMode == UpdateAttributes(s2, f, util).colorMode
    ensures UpdateAttributes(s1, f, util).supportedColorModes == UpdateAttributes(s2, f, util).supportedColorModes
    ensures UpdateAttributes(UpdateAttributes(s1, f, util), f, util) == UpdateAttributes(s1, f, util)
  {
  }

  /** `s` and `t` differ at most in the pending flag. */
  predicate SameAttributes(s: LightState, t: LightState) {
    s.(pendingUpdate := t.pendingUpdate) == t
  }

  /** The outcome of a command: the new attributes and the client calls made,
      in order. */
  datatype Transition = Transition(next: LightState, calls: seq<Api.Command>)

  /** The arguments of a turn-on request; each may be absent. */
  datatype TurnOnArgs = TurnOnArgs(brightness: Option<int>, colorTemp: Option<int>, hsColor: Option<HsColor>)

  /** The calls that switch the light: exactly one of these starts every
      turn-on. */
  predicate SwitchesPower(c: Api.Command) {
    c.SetPower? || c.SetLightness?
  }

  /** `async_turn_on`. The state, the pending flag and the brightness change
      before the first call; the colour temperature and the hue/saturation are
      stored just before their own calls. No attribute depends on how the
      calls are answered. */
  function TurnOn(s: LightState, args: TurnOnArgs, util: ColorUtil): (t: Transition)
    ensures t.next.isOn == Some(true) && t.next.pendingUpdate
    ensures |t.calls| == 1 + (if args.colorTemp.Some? then 1 else 0) + (if args.hsColor.Some? then 1 else 0)
    ensures SwitchesPower(t.calls[0])
    ensures forall i :: 1 <= i < |t.calls| ==> !SwitchesPower(t.calls[i])
    ensures forall i :: 0 <= i < |t.calls| ==> t.calls[i].uniqueId == s.uniqueId
    ensures args.brightness.Some? ==>
      && t.next.brightness == args.brightness
      && t.next.lastKnownBrightness == args.brightness
      && t.calls[0] == Api.SetLightness(s.uniqueId, args.brightness.value as real / 255.0)
    ensures args.brightness.None? && !Truthy(s.brightness) && Truthy(s.lastKnownBrightness) ==>
      && t.next.brightness == s.lastKnownBrightness
      && t.next.lastKnownBrightness == s.lastKnownBrightness
      && t.calls[0] == Api.SetLightness(s.uniqueId, s.lastKnownBrightness.value as real / 255.0)
    ensures args.brightness.None? && (Truthy(s.brightness) || !Truthy(s.lastKnownBrightness)) ==>
      && t.next.brightness == s.brightness
      && t.next.lastKnownBrightness == s.lastKnownBrightness
      && t.calls[0] == Api.SetPower(s.uniqueId, true)
    ensures args.colorTemp.Some? ==>
      && t.next.colorTemp == args.colorTemp
      && t.calls[1].SetTemperature?
      && MinKelvin <= t.calls[1].temperature <= MaxKelvin
      && (MinKelvin <= util.miredToKelvin(args.colorTemp.value) <= MaxKelvin ==>
            t.calls[1].temperature == util.miredToKelvin(args.colorTemp.value))
    ensures args.colorTemp.Some? ==>
      t.calls[1] == Api.SetTemperature(s.uniqueId, ClampKelvin(util.miredToKelvin(args.colorTemp.value)))
    ensures args.colorTemp.None? ==>
      t.next.colorTemp == s.colorTemp && forall i :: 0 <= i < |t.calls| ==> !t.calls[i].SetTemperature?
    ensures args.hsColor.Some? ==>
      && t.next.hsColor == args.hsColor
      && t.calls[|t.calls| - 1] == Api.SetHueSaturation(s.uniqueId,
           args.hsColor.value.hue / 360.0 * 65535.0, args.hsColor.value.saturation / 100.0)
    ensures args.hsColor.None? ==>
      t.next.hsColor == s.hsColor && forall i :: 0 <= i < |t.calls| ==> !t.calls[i].SetHueSaturation?
    ensures t.next.colorMode == s.colorMode && t.next.supportedColorModes == s.supportedColorModes
    ensures t.next.uniqueId == s.uniqueId && t.next.name == s.name
    ensures t.next.minMireds == s.minMireds && t.next.maxMireds == s.maxMireds
  {
    var uid := s.uniqueId;
    var on := s.(isOn := Some(true), pendingUpdate := true);
    var (lit, first) :=
      if args.brightness.Some? then
        (on.(brightness := args.brightness, lastKnownBrightness := args.brightness),
         Api.SetLightness(uid, HaToApiBrightness(args.brightness.value)))
      else if !Truthy(s.brightness) && Truthy(s.lastKnownBrightness) then
        (on.(brightness := s.lastKnownBrightness),
         Api.SetLightness(uid, HaToApiBrightness(s.lastKnownBrightness.value)))
      else
        (on, Api.SetPower(uid, true));
    var (tempered, tempCalls) :=
      match args.colorTemp
      case Some(mired) =>
        (lit.(colorTemp := Some(mired)), [Api.SetTemperature(uid, ClampKelvin(util.miredToKelvin(mired)))])
      case None => (lit, []);
    var (colored, hsCalls) :=
      match args.hsColor
      case Some(hs) =>
        (tempered.(hsColor := Some(hs)),
         [Api.SetHueSaturation(uid, HueToApi(hs.hue), SaturationToApi(hs.saturation))])
      case None => (tempered, []);
    Transition(colored, [first] + tempCalls + hsCalls)
  }

  /** `async_turn_off`: one power-off call; brightness and the remembered
      brightness are kept for the next turn-on. */
  function TurnOff(s: LightState): (t: Transition)
    ensures t.next.isOn == Some(false) && t.next.pendingUpdate
    ensures t.calls == [Api.SetPower(s.uniqueId, false)]
    ensures t.next.brightness == s.brightness && t.next.lastKnownBrightness == s.lastKnownBrightness
    ensures t.next.colorTemp == s.colorTemp && t.next.hsColor == s.hsColor
    ensures t.next.colorMode == s.colorMode && t.next.supportedColorModes == s.supportedColorModes
    ensures t.next.uniqueId == s.uniqueId && t.next.name == s.name
    ensures t.next.minMireds == s.minMireds && t.next.maxMireds == s.maxMireds
  {
    Transition(s.(isOn := Some(false), pendingUpdate := true), [Api.SetPower(s.uniqueId, false)])
  }

  /** The end of a command, after its settle delay: polls are taken into
      account again. */
  function Settle(s: LightState): (r: LightState)
    ensures !r.pendingUpdate && SameAttributes(s, r)
  {
    s.(pendingUpdate := false)
  }

  /** The status object the entity reads from a poll result, as written: an
      absent device reads as `{}`, but a device whose status request failed is
      stored as nothing, and reading its `state` raises. */
  function LookupStateAsWritten(data: map<string, Option<DeviceStatus>>, uniqueId: string): (r: Result<StateFields, string>)
    ensures r.Err? <==> uniqueId in data && data[uniqueId].None?
    ensures uniqueId !in data ==> r == Ok(NoFields)
    ensures uniqueId in data && data[uniqueId].Some? ==> r == Ok(data[uniqueId].value.state.GetOr(NoFields))
  {
    if uniqueId !in data then Ok(NoFields)
    else match data[uniqueId]
      case None => Err("AttributeError")
      case Some(status) => Ok(status.state.GetOr(NoFields))
  }

  /** The status object the entity reads from a poll result: a device with no
      status, absent or failed, reads as `{}`. Where the code as written does
      not raise, both agree. */
  function LookupState(data: map<string, Option<DeviceStatus>>, uniqueId: string): (f: StateFields)
    ensures LookupStateAsWritten(data, uniqueId).Ok? ==> f == LookupStateAsWritten(data, uniqueId).value
    ensures uniqueId in data && data[uniqueId].None? ==> f == NoFields
    ensures uniqueId !in data ==> f == NoFields
    ensures uniqueId in data && data[uniqueId].Some? ==> f == data[uniqueId].value.state.GetOr(NoFields)
  {
    if uniqueId in data && data[uniqueId].Some? then data[uniqueId].value.state.GetOr(NoFields) else NoFields
  }

  /** `_handle_coordinator_update` as written: ignored while a command is
      pending, and raising for a device whose last status request failed. */
  function HandleCoordinatorUpdateAsWritten(s: LightState, data: map<string, Option<DeviceStatus>>, util: ColorUtil): (r: Result<LightState, string>)
    ensures s.pendingUpdate ==> r == Ok(s)
    ensures r.Err? <==> !s.pendingUpdate && s.uniqueId in data && data[s.uniqueId].None?
  {
    if s.pendingUpdate then Ok(s)
    else match LookupStateAsWritten(data, s.uniqueId)
      case Err(e) => Err(e)
      case Ok(f) => Ok(UpdateAttributes(s, f, util))
  }

  /** `_handle_coordinator_update`: a poll changes nothing while a command is
      pending; otherwise it decodes the device's status, a failed one reading
      as an empty status. Where the code as written does not raise, both agree. */
  function HandleCoordinatorUpdate(s: LightState, data: map<string, Option<DeviceStatus>>, util: ColorUtil): (r: LightState)
    ensures s.pendingUpdate ==> r == s
    ensures !s.pendingUpdate ==> r == UpdateAttributes(s, LookupState(data, s.uniqueId), util)
    ensures HandleCoordinatorUpdateAsWritten(s, data, util).Ok? ==> r == HandleCoordinatorUpdateAsWritten(s, data, util).value
  {
    if s.pendingUpdate then s else UpdateAttributes(s, LookupState(data, s.uniqueId), util)
  }

  /** A failed status request makes the entity's update raise as written;
      read as an empty status, it shows the light as off with on/off mode and
      keeps its brightness. */
  lemma FailedPollRaises(s: LightState, util: ColorUtil)
    requires !s.pendingUpdate
    ensures HandleCoordinatorUpdateAsWritten(s, map[s.uniqueId := None], util).Err?
    ensures var r := HandleCoordinatorUpdate(s, map[s.uniqueId := None], util);
      && r.isOn == Some(false)
      && r.colorMode == OnOff && r.supportedColorModes == {OnOff}
      && r.brightness == s.brightness && r.lastKnownBrightness == s.lastKnownBrightness
  {
    assert LookupState(map[s.uniqueId := None], s.uniqueId) == NoFields;
  }

  /** A command shields the attributes it set from polls until it settles. */
  lemma CommandShieldsFromPolls(s: LightState, args: TurnOnArgs, data: map<string, Option<DeviceStatus>>, util: ColorUtil)
    ensures HandleCoordinatorUpdate(TurnOn(s, args, util).next, data, util) == TurnOn(s, args, util).next
    ensures HandleCoordinatorUpdate(TurnOff(s).next, data, util) == TurnOff(s).next
  {
  }

  const NoArgs: TurnOnArgs := TurnOnArgs(None, None, None)

  /** Turning on at brightness `b`, off, and on again without arguments comes
      back at `b`: directly, or, when a poll taken while off reported the
      light at zero lightness, by resending `b`. */
  lemma LastKnownBrightnessRestored(s: LightState, b: int, lightness: int, util: ColorUtil)
    requires b != 0 && 0 <= lightness <= 128
    ensures var off := Settle(TurnOff(Settle(TurnOn(s, TurnOnArgs(Some(b), None, None), util).next)).next);
      && TurnOn(off, NoArgs, util).next.brightness == Some(b)
      && TurnOn(off, NoArgs, util).calls == [Api.SetPower(s.uniqueId, true)]
    ensures var off := Settle(TurnOff(Settle(TurnOn(s, TurnOnArgs(Some(b), None, None), util).next)).next);
      var report := StateFields(Some(false), Some(lightness), None, None, None);
      var polled := HandleCoordinatorUpdate(off, map[s.uniqueId := Some(DeviceStatus(None, Some(report)))], util);
      && TurnOn(polled, NoArgs, util).next.brightness == Some(b)
      && TurnOn(polled, NoArgs, util).calls == [Api.SetLightness(s.uniqueId, b as real / 255.0)]
  {
    var on := Settle(TurnOn(s, TurnOnArgs(Some(b), None, None), util).next);
    assert on.brightness == Some(b) && on.lastKnownBrightness == Some(b);
    var off := Settle(TurnOff(on).next);
    assert off.brightness == Some(b) && off.lastKnownBrightness == Some(b);
    var report := StateFields(Some(false), Some(lightness), None, None, None);
    var data := map[s.uniqueId := Some(DeviceStatus(None, Some(report)))];
    assert LookupState(data, off.uniqueId) == report;
    var polled := HandleCoordinatorUpdate(off, data, util);
    assert polled.brightness == Some(0) && polled.lastKnownBrightness == Some(b);
  }
}

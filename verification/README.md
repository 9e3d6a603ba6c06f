# Häfele Connect Mesh integration — a Dafny model

This project models the pure logic of a Home Assistant integration for
Häfele Connect Mesh lights. The integration polls device status from the
Connect Mesh cloud REST API and turns light commands into REST calls. Two
variants exist in the repository, and both are modelled:

- the current integration (`custom_components/hafele_connect_mesh`), covering:
  - the REST client `ConnectMeshAPI`: status URL, command payloads, and
    clamping of hue and saturation (module `Api`);
  - entry setup: migrating an old token, reading the entry, and mapping
    every configured device to its polled status (module `Integration`);
  - the setup dialogue: network filter, device classification, the
    created entry, and the re-authentication path (module `ConfigFlow`);
  - the light entity (module `Light`). It decodes a polled status into
    power, brightness, colour temperature and hue/saturation, and picks
    one colour mode. It also covers the turn-on and turn-off transitions
    and the guard that ignores polls while a command is pending;
- the earlier integration (`hafele_connect_mesh`): the feature set derived
  from a device's catalogue type, its power command, and the switch
  platform (module `Legacy`).

Shared records live in `Wire`, and `Option`/`Result` live in `Wrappers`.
Everything is an immutable record plus pure functions. Each command
returns the new entity attributes and the list of client calls or
requests it makes. Whatever the network would answer is an input:
an HTTP status code, a parsed status body, or a per-device probe function.

Units are modelled as the code writes them, mismatches included. No
round trip between the read and write scales is claimed:
- Brightness is read on a 0..65535 scale but written as a 0..1 fraction.
  Reading is `round(v / 65535 * 255)`, modelled exactly as
  `(v + 128) / 257` on integers.
- Hue is scaled to 0..65535 by the light and then clamped to at most 360
  by the client. Any hue above about two degrees therefore reaches the
  device as 360 (`Light.WireHueSaturates`).
- Saturation is read as `/65535*100` but written as `/100`.
- The other ratios are Dafny `real` values, without float rounding.

Home Assistant's conversions between mired and Kelvin are parameters
(`Light.ColorUtil`). Nothing is assumed about them except in
`Light.MiredRangeOrdered`, which assumes that mired decreases as Kelvin
increases and says so in its `requires`.

Some facts about the code that the model keeps:
- Hue and saturation are clamped after the light's scaling
  (light.py:134-135, then __init__.py:161-162), not before it.
- A status without `lightness` keeps the previous brightness
  (light.py:164-167); it does not reset brightness to none.
- The light entity sets its state, pending flag and brightness before its
  first client call, and stores colour temperature and hue/saturation just
  before their own calls (light.py:111-136). None of them depends on how
  the calls are answered.
- Decoding uses the host's Kelvin-to-mired function (light.py:170), not a
  fixed `1000000 / kelvin`.
- The light entities read the light platform's own poll (light.py:41-53,
  every 10 s), which builds the same device-to-status map as the entry's
  poll (__init__.py:30-41, every 30 s); `Integration.Poll` models both.

## Model

| member | source | states |
|---|---|---|
| Wire.MakePayload | custom_components/hafele_connect_mesh/__init__.py:101-107 | every command payload carries the target id, `acknowledged` true, `retries` 0 and `timeout_ms` 10000 |
| Wire.PowerWord | custom_components/hafele_connect_mesh/__init__.py:102 | the power word is "on" exactly when the argument is true, and is otherwise "off" |
| Api.StatusUrl | custom_components/hafele_connect_mesh/__init__.py:79-87 | the status URL is the base URL plus "/devices/", the id, then "/status"; the id can be read back from the URL |
| Api.StatusUrlInjective | custom_components/hafele_connect_mesh/__init__.py:87 | two devices share a status URL only if they share an id |
| Api.GetDeviceStatus | custom_components/hafele_connect_mesh/__init__.py:81-92 | a status is returned exactly on HTTP 200, and it is the response body; any other code yields nothing |
| Api.ClampHue | custom_components/hafele_connect_mesh/__init__.py:161 | the payload hue lies in [0,360]; in-range input is unchanged; below 0 gives 0 and above 360 gives 360 |
| Api.ClampSaturation | custom_components/hafele_connect_mesh/__init__.py:162 | the payload saturation lies in [0,1]; in-range input is unchanged; out-of-range input goes to the nearer bound |
| Api.ClampsIdempotentAndMonotone | custom_components/hafele_connect_mesh/__init__.py:161-162 | clamping twice equals clamping once, and both clamps keep the order of their inputs |
| Api.ToRequest | custom_components/hafele_connect_mesh/__init__.py:94-172 | each client call is a PUT to its own path with the fixed protocol fields; the power word is "on" iff the call asks for on; hue and saturation arrive as `min(360, max(0, hue))` and `min(1, max(0, saturation))` |
| Integration.MigrateToken | custom_components/hafele_connect_mesh/__init__.py:21-24 | an entry without `api_token` gains the `old_config` token when there is one; an entry that has a token is untouched; every other key keeps its value |
| Integration.MigrateTokenIdempotent | custom_components/hafele_connect_mesh/__init__.py:21-24 | migrating an already migrated entry changes nothing |
| Integration.Poll | custom_components/hafele_connect_mesh/__init__.py:30-33 | the poll (of the entry, and equally of the light platform) maps exactly the configured devices' ids; an entry holds the body on HTTP 200 and nothing otherwise |
| Integration.IteratedDevices | custom_components/hafele_connect_mesh/__init__.py:31-33 | a device list is iterated as its records, an empty string or mapping as no records; a non-empty string or mapping cannot be iterated as devices |
| Integration.SetupEntry | custom_components/hafele_connect_mesh/__init__.py:18-33 | setup succeeds iff the entry has a token (own or migrated) and a `devices` value the poll can iterate (a list, or an empty string or mapping); it then polls exactly the iterated devices, and its first poll holds each device's answer |
| ConfigFlow.DetermineDeviceType | custom_components/hafele_connect_mesh/config_flow.py:179-193 | no status gives "switch"; "Multiwhite", "RGB" and "Light" give "temperature", "rgb" and "brightness", each iff; the result is one of the four |
| ConfigFlow.FilterByNetwork | custom_components/hafele_connect_mesh/config_flow.py:103 | a device is kept iff it was listed and belongs to the chosen network |
| ConfigFlow.FilterByNetworkConcat | custom_components/hafele_connect_mesh/config_flow.py:103 | the filter of a concatenation is the concatenation of the filters, so the listing order is kept |
| ConfigFlow.FilterByNetworkSingle | custom_components/hafele_connect_mesh/config_flow.py:103 | a single device is kept exactly when its network is the chosen one |
| ConfigFlow.ProcessDevices | custom_components/hafele_connect_mesh/config_flow.py:105-113 | one record per kept device, in order; id and name are copied and the type is the classification of that device's probed status |
| ConfigFlow.StepUser | custom_components/hafele_connect_mesh/config_flow.py:34-54 | an existing entry diverts to (the corrected) re-authentication; a submitted token moves on to the network choice; otherwise the token form is shown |
| ConfigFlow.StepSelectNetwork | custom_components/hafele_connect_mesh/config_flow.py:80-97 | the dialogue aborts with "no_networks" exactly when the listing failed or is empty; otherwise it shows the network form |
| ConfigFlow.NewEntryData | custom_components/hafele_connect_mesh/config_flow.py:116-123 | the created entry holds exactly the token, the chosen network id and the processed device list |
| ConfigFlow.StepProcessDevices | custom_components/hafele_connect_mesh/config_flow.py:99-123 | an entry is created exactly when the device listing succeeded; it holds exactly the token, the network id and the processed records of the filtered devices |
| ConfigFlow.CreatedEntrySetsUp | custom_components/hafele_connect_mesh/config_flow.py:116-123 | an entry created by the dialogue sets up with the submitted token and exactly the processed devices of the chosen network, each polled |
| ConfigFlow.ReauthDataAsWritten | custom_components/hafele_connect_mesh/config_flow.py:61 | as written, re-authentication stores the submitted form alone: the only key is `api_token` |
| ConfigFlow.ReauthAsWrittenBreaksSetup | custom_components/hafele_connect_mesh/config_flow.py:61 | as written, re-authenticating an entry drops its device list, so the reloaded entry fails to set up for lack of `devices` |
| ConfigFlow.ReauthData | custom_components/hafele_connect_mesh/config_flow.py:61 | corrected: the new token is written over the existing entry and every other key keeps its value |
| ConfigFlow.ReauthKeepsSetup | custom_components/hafele_connect_mesh/config_flow.py:61 | corrected re-authentication of an entry that sets up still sets up, with the new token and the same devices |
| ConfigFlow.StepReauthAsWritten | custom_components/hafele_connect_mesh/config_flow.py:56-71 | as written: a submitted token with an existing entry replaces its data with `{api_token}` alone and aborts with "reauth_successful"; otherwise the token form is shown |
| ConfigFlow.StepReauth | custom_components/hafele_connect_mesh/config_flow.py:56-71 | corrected: a submitted token with an existing entry updates it and aborts with "reauth_successful"; the new data is the existing entry with the token written over it and nothing else added; otherwise the token form is shown |
| Light.NewLight | custom_components/hafele_connect_mesh/light.py:64-80 | a new light has no state, brightness mode only, no pending command, and its mired range comes from 5000 K and 2700 K |
| Light.MiredRangeOrdered | custom_components/hafele_connect_mesh/light.py:73-74 | assuming mired decreases in Kelvin, the minimum mired is at most the maximum |
| Light.CreateLights | custom_components/hafele_connect_mesh/light.py:55-59 | there is one light per configured device, in order |
| Light.ApiToHaBrightness | custom_components/hafele_connect_mesh/light.py:149-152 | the result is the integer nearest to value/257; [0,65535] maps into [0,255], with 0 to 0 and 65535 to 255 |
| Light.ApiToHaBrightnessRounds | custom_components/hafele_connect_mesh/light.py:152 | the integer formula is within one half of value/65535*255, and every other integer is at least one half away |
| Light.ApiToHaBrightnessMonotone | custom_components/hafele_connect_mesh/light.py:152 | a larger lightness never reads as a smaller brightness |
| Light.HaToApiBrightness | custom_components/hafele_connect_mesh/light.py:154-157 | the written lightness times 255 is the brightness; [0,255] maps into [0,1] |
| Light.ClampKelvin | custom_components/hafele_connect_mesh/light.py:125-129 | the Kelvin sent lies in [2700,5000]; in-range values are unchanged and others go to the nearer bound |
| Light.ClampKelvinIdempotentAndMonotone | custom_components/hafele_connect_mesh/light.py:127 | clamping a clamped Kelvin changes nothing, and the clamp keeps the order of its inputs |
| Light.HsFromApi | custom_components/hafele_connect_mesh/light.py:173-176 | decoded hue is hue/65535 of 360 degrees and saturation is saturation/65535 of 100 percent; in-range input decodes in range |
| Light.HueToApi | custom_components/hafele_connect_mesh/light.py:134 | the hue handed to the client is hue/360 of 65535; [0,360] maps into [0,65535] |
| Light.SaturationToApi | custom_components/hafele_connect_mesh/light.py:135 | the saturation handed to the client is percent/100; [0,100] maps into [0,1] |
| Light.ReadWriteScales | custom_components/hafele_connect_mesh/light.py:131-136 | hue reads and writes on the same scale; saturation and brightness read from 0..65535 but write as a 0..1 fraction |
| Light.WireHueSaturates | custom_components/hafele_connect_mesh/light.py:131-136 | the wire hue is min(360, hue/360*65535), so every hue of at least 360*360/65535 degrees arrives as 360; saturation arrives as percent/100 |
| Light.UpdateAttributes | custom_components/hafele_connect_mesh/light.py:159-184 | state is the power field (false when absent); absent fields keep their attribute; remembered brightness changes only on lightness with power on; the mode follows temperature, then hue+saturation, then lightness, then on/off, and is in the supported set |
| Light.ColorModeIgnoresHistory | custom_components/hafele_connect_mesh/light.py:169-184 | mode and supported set do not depend on the previous attributes; decoding the same status twice changes nothing more |
| Light.TurnOn | custom_components/hafele_connect_mesh/light.py:109-139 | state on and pending; exactly one power or lightness call comes first; a brightness argument sets brightness, remembered brightness and lightness b/255; with none, the remembered brightness is resent only when the brightness is unset or zero and the remembered one is non-zero; otherwise power on; the Kelvin sent is `max(2700, min(5000, kelvin))` of the converted mired argument, while the unclamped mired argument is stored; hue/saturation sent on the 0..65535 and 0..1 scales |
| Light.TurnOff | custom_components/hafele_connect_mesh/light.py:141-147 | state off and pending; one power-off call; brightness and remembered brightness unchanged |
| Light.Settle | custom_components/hafele_connect_mesh/light.py:186-189 | after the settle delay the pending flag is clear and nothing else has changed |
| Light.LookupStateAsWritten | custom_components/hafele_connect_mesh/light.py:161 | as written, reading a device's status raises exactly when its last status request failed; an absent device reads as an empty status; an answered status reads as its `state`, or as empty when that is missing |
| Light.LookupState | custom_components/hafele_connect_mesh/light.py:161 | corrected: a failed or absent status reads as an empty status, an answered one as its `state`; wherever the code as written does not raise, both agree |
| Light.HandleCoordinatorUpdateAsWritten | custom_components/hafele_connect_mesh/light.py:82-87 | as written, a poll is ignored while a command is pending and raises exactly when no command is pending and the device's status request failed |
| Light.HandleCoordinatorUpdate | custom_components/hafele_connect_mesh/light.py:82-87 | a poll changes nothing while a command is pending; otherwise it decodes the device's status; it agrees with the code as written wherever that does not raise |
| Light.FailedPollRaises | custom_components/hafele_connect_mesh/light.py:161 | for a failed status request the code as written raises; corrected, the light shows off in on/off mode and keeps its brightness |
| Light.CommandShieldsFromPolls | custom_components/hafele_connect_mesh/light.py:82-87 | right after turn-on or turn-off, a poll leaves the attributes exactly as the command set them |
| Light.LastKnownBrightnessRestored | custom_components/hafele_connect_mesh/light.py:114-123 | after on at brightness b (not zero), then off, a bare turn-on comes back at b; if a poll showed zero lightness while off, b is resent as lightness b/255 |
| Legacy.SupportedFeatures | hafele_connect_mesh/__init__.py:39-47 | brightness iff one of the four LED types; colour iff the RGB type; colour temperature iff the multiwhite type; colour or colour temperature imply brightness; unknown types get none |
| Legacy.NewEntity | hafele_connect_mesh/__init__.py:33-47 | a new entity has no state or brightness and the feature set of its device's type |
| Legacy.PowerPayload | hafele_connect_mesh/__init__.py:89-98 | the power payload carries the power word, the target id and the fixed fields; `lightness` is there iff a brightness is given, and it is brightness/255 |
| Legacy.SetPowerAsWritten | hafele_connect_mesh/__init__.py:82-108 | as written: the request is a PUT to the power path; any answer other than HTTP 200 raises `NameError` after sending; on HTTP 200 it agrees with `Legacy.SetPower` |
| Legacy.FailedPowerCallRaises | hafele_connect_mesh/__init__.py:103 | a refused power command raises `NameError` as written, while the corrected command leaves the entity unchanged; on HTTP 200 both agree |
| Legacy.SetPower | hafele_connect_mesh/__init__.py:82-108 | corrected: the request is a PUT to the power path; on HTTP 200 the state becomes (power == "on") and a given brightness is stored; any other code leaves the entity unchanged without raising |
| Legacy.TurnOn | hafele_connect_mesh/__init__.py:74-76 | turning on sends exactly one PUT of "on" with the requested brightness to the power URL; on success the entity shows on and takes that brightness (keeping its old one when none was given); corrected: on failure it is unchanged; device and features never change |
| Legacy.TurnOff | hafele_connect_mesh/__init__.py:78-80 | turning off sends exactly one PUT of "off" without a lightness to the power URL; on success the entity shows off; its brightness, device and features never change; corrected: on failure it is unchanged |
| Legacy.SwitchDevices | hafele_connect_mesh/switch.py:15-18 | a switch is created for exactly the devices whose type is not one of the four LED types |
| Legacy.SwitchDevicesConcat | hafele_connect_mesh/switch.py:16-18 | the switch filter keeps the input order |
| Legacy.SwitchIffNotDimmable | hafele_connect_mesh/switch.py:17 | a device gets a switch iff its derived feature set lacks brightness |
| Legacy.SwitchPayload | hafele_connect_mesh/switch.py:45-51 | the switch payload carries the power word, the target id and the fixed fields, and never a lightness |
| Legacy.SwitchSetPower | hafele_connect_mesh/switch.py:38-59 | the switch state becomes (power == "on") only on HTTP 200 and is otherwise unchanged |
| Legacy.SwitchTurn | hafele_connect_mesh/switch.py:30-36 | switching sends exactly one PUT of the power word to the power URL; on success the switch becomes the same switch with the requested state |
| Legacy.SwitchTurnIdempotent | hafele_connect_mesh/switch.py:30-36 | repeating an answered switch command changes nothing more, and of two answered commands the last decides the state |

## Findings

| source | as written | input that shows it | evidently intended | confidence | as-written member | corrected member |
|---|---|---|---|---|---|---|
| custom_components/hafele_connect_mesh/config_flow.py:61 | re-authentication replaces the entry data with the submitted form, which holds only `api_token`, so `devices` and `network_id` are lost and the reloaded entry fails at its first refresh | an existing entry with a `devices` list, then any new token submitted | write the new token over the existing entry data | high; not executed | ConfigFlow.ReauthAsWrittenBreaksSetup | ConfigFlow.ReauthKeepsSetup |
| custom_components/hafele_connect_mesh/light.py:161 | a device whose status request failed is stored in the poll result as `None`; `get(uid, {})` returns that `None`, and `.get("state", {})` on it raises | poll result `{uid: None}` (a non-200 status answer) while no command is pending | read a failed status like an absent one, as the `{}` default does | high; not executed | Light.FailedPollRaises | Light.HandleCoordinatorUpdate |
| hafele_connect_mesh/__init__.py:103 | the device module logs a refused power command through `_LOGGER`, which it never defines, so turn-on and turn-off raise `NameError` | any power command answered with a code other than 200 | log the failure and keep the state, as switch.py:55-56 does | high; not executed | Legacy.FailedPowerCallRaises | Legacy.SetPower |

The dialogue's `ConfigFlow.StepReauth`, the legacy `Legacy.TurnOn` and
`Legacy.TurnOff`, and every other part of the model use the corrected
definitions.

## Left out

- HTTP transport: sessions, headers, JSON parsing and logging. A call's
  answer is an input status code plus a parsed body. Transport exceptions
  (`aiohttp.ClientError`) are not modelled. The light's client raises them
  uncaught. The dialogue's fetches turn them into a failed result, which
  is modelled as `None`.
- The poll scheduler and concurrency: `DataUpdateCoordinator` intervals,
  `async_write_ha_state`, the one-second settle sleep and the refresh
  request. `Light.Settle` models only the clearing of the pending flag.
  The race between a poll and a command is out of scope. One consequence
  of the unmodelled transport exceptions, observed from the code and not
  executed: if a client call raises inside turn-on or turn-off, the
  settle step never runs, the pending flag set at light.py:112/144 stays
  set (it is cleared only at light.py:189), and every later poll is
  ignored.
- The `get_device_status` service, `async_unload_entry`, and `hass.data`
  registry bookkeeping: this is platform glue. So are the legacy
  `async_setup`/`async_setup_entry`/`async_unload_entry` forwarding and
  the switch platform's reading of `api_key` from the registry.
- hafele_connect_mesh/config_flow.py: a form dialogue that runs blocking
  HTTP. Its only logic is the network filter, which repeats the one in
  `ConfigFlow.FilterByNetwork`.
- Dialogue memory across steps: the cached `networks` and `devices` and
  the form schemas. Each step takes the cloud's answers as inputs. The
  chosen network is assumed to be one the form offered.
- Home Assistant's mired/Kelvin conversions are uninterpreted parameters.
- Light.UpdateAttributes: `power` is modelled as an optional boolean.
  The truthiness of other JSON values in that field is not modelled, and
  numeric status fields are modelled as integers.
- Light.UpdateAttributes: a poll result that is missing as a whole is not
  modelled. That happens when the light platform's first refresh failed.
- Integration.MigrateToken: `old_config` is taken to be a mapping. Any
  other value is read as holding no token. In Python, a string containing
  "api_token", or a list holding it, passes the test at
  custom_components/hafele_connect_mesh/__init__.py:21 and then raises
  `TypeError` at line 23. Any other string or list leaves the entry
  unchanged. `None` or a number raises `TypeError` at line 21 itself.
- Integration.SetupEntry: the stored `devices` value is modelled as a
  device list, a string or a mapping. A non-list value is reduced to the
  records the comprehension at
  custom_components/hafele_connect_mesh/__init__.py:33 iterates. An empty
  string or mapping iterates nothing, so setup succeeds with no devices.
  A non-empty one yields items that cannot be indexed by "uniqueId", and
  that is reported as malformed.
- Legacy.SupportedFeatures: the feature bitmask (brightness 1, colour
  temperature 2, colour 16) is modelled as a set of flags.
- Floating-point rounding: ratios are exact reals. Brightness reading is
  exact integer rounding.

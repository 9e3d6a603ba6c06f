/** The setup dialogue of the current integration: token, network choice,
    device discovery and classification, and the re-authentication path. */
module ConfigFlow {
  import opened Wrappers
  import opened Wire
  import opened Integration

  const Title: string := "Häfele Connect Mesh"

  /** The type stored for a device, from the status probed at discovery. */
  function DetermineDeviceType(status: Option<DeviceStatus>): (t: string)
    ensures t in {"switch", "temperature", "rgb", "brightness"}
    ensures status.None? ==> t == "switch"
    ensures t == "temperature" <==> status.Some? && status.value.abstraction == Some("Multiwhite")
    ensures t == "rgb" <==> status.Some? && status.value.abstraction == Some("RGB")
    ensures t == "brightness" <==> status.Some? && status.value.abstraction == Some("Light")
  {
    match status
    case None => "switch"
    case Some(s) =>
      if s.abstraction == Some("Multiwhite") then "temperature"
      else if s.abstraction == Some("RGB") then "rgb"
      else if s.abstraction == Some("Light") then "brightness"
      else "switch"
  }

  /** The listed devices that belong to the chosen network. */
  function FilterByNetwork(devices: seq<Device>, networkId: string): (r: seq<Device>)
    ensures forall d :: d in r <==> d in devices && d.networkId == networkId
    ensures |r| <= |devices|
  {
    if devices == [] then []
    else
      (if devices[0].networkId == networkId then [devices[0]] else [])
      + FilterByNetwork(devices[1..], networkId)
  }

  /** Filtering keeps the original order: the filter of a concatenation is the
      concatenation of the filters. */
  lemma {:induction false} FilterByNetworkConcat(a: seq<Device>, b: seq<Device>, networkId: string)
    ensures FilterByNetwork(a + b, networkId) == FilterByNetwork(a, networkId) + FilterByNetwork(b, networkId)
  {
    if a == [] {
      assert a + b == b;
    } else {
      assert (a + b)[0] == a[0];
      assert (a + b)[1..] == a[1..] + b;
      FilterByNetworkConcat(a[1..], b, networkId);
    }
  }

  /** A device of the chosen network is kept; any other device is dropped. */
  lemma FilterByNetworkSingle(d: Device, networkId: string)
    ensures FilterByNetwork([d], networkId) == if d.networkId == networkId then [d] else []
  {
    assert [d][1..] == [];
  }

  /** One stored record per kept device, in order: id and name copied, type
      classified from the device's probed status. */
  function ProcessDevices(devices: seq<Device>, probe: string -> Option<DeviceStatus>): (r: seq<DeviceRecord>)
    ensures |r| == |devices|
    ensures forall i :: 0 <= i < |devices| ==>
      && r[i].uniqueId == devices[i].uniqueId
      && r[i].name == devices[i].name
      && r[i].deviceType == DetermineDeviceType(probe(devices[i].uniqueId))
  {
    if devices == [] then []
    else
      [DeviceRecord(devices[0].uniqueId, devices[0].name, DetermineDeviceType(probe(devices[0].uniqueId)))]
      + ProcessDevices(devices[1..], probe)
  }

  /** The outcome of one step of the dialogue. */
  datatype FlowResult =
    | ShowForm(stepId: string)
    | Abort(reason: string)
    | CreateEntry(title: string, data: EntryData)
    | UpdateEntryAndAbort(data: EntryData, reason: string)
    | Raised(error: string)

  /** The first step: an existing entry diverts to (the corrected) re-authentication; a
      submitted token moves on to the network choice. */
  function StepUser(existing: Option<EntryData>, token: Option<string>, networks: Option<seq<Network>>): (r: FlowResult)
    ensures existing.Some? ==> r == StepReauth(existing, token)
    ensures existing.None? && token.None? ==> r == ShowForm("user")
    ensures existing.None? && token.Some? ==> r == StepSelectNetwork(networks)
  {
    if existing.Some? then StepReauth(existing, token)
    else if token.Some? then StepSelectNetwork(networks)
    else ShowForm("user")
  }

  /** The network choice form; it aborts when the cloud lists no network or the
      listing failed. */
  function StepSelectNetwork(networks: Option<seq<Network>>): (r: FlowResult)
    ensures r == Abort("no_networks") <==> networks.None? || networks.value == []
    ensures r != Abort("no_networks") ==> r == ShowForm("select_network")
  {
    if networks.None? || networks.value == [] then Abort("no_networks") else ShowForm("select_network")
  }

  /** The entry data the dialogue creates. */
  function NewEntryData(token: string, networkId: string, devices: seq<DeviceRecord>): (data: EntryData)
    ensures data.Keys == {"api_token", "network_id", "devices"}
    ensures data["api_token"] == Text(token)
    ensures data["network_id"] == Text(networkId)
    ensures data["devices"] == DeviceList(devices)
  {
    map["api_token" := Text(token), "network_id" := Text(networkId), "devices" := DeviceList(devices)]
  }

  /** Discovery for the chosen network. A failed device listing leaves
      nothing to filter and the step raises. */
  function StepProcessDevices(token: string, networkId: string, listed: Option<seq<Device>>, probe: string -> Option<DeviceStatus>): (r: FlowResult)
    ensures r.CreateEntry? <==> listed.Some?
    ensures listed.None? ==> r.Raised?
    ensures r.CreateEntry? ==>
      && r.title == Title
      && r.data.Keys == {"api_token", "network_id", "devices"}
      && r.data["api_token"] == Text(token)
      && r.data["network_id"] == Text(networkId)
      && r.data["devices"].DeviceList?
      && r.data["devices"].devices == ProcessDevices(FilterByNetwork(listed.value, networkId), probe)
  {
    match listed
    case None => Raised("TypeError")
    case Some(all) =>
      CreateEntry(Title, NewEntryData(token, networkId, ProcessDevices(FilterByNetwork(all, networkId), probe)))
  }

  /** A new entry holds exactly the chosen network's devices, in listing
      order, each classified from its probe, and the entry sets up. */
  lemma {:induction false} CreatedEntrySetsUp(token: string, networkId: string, listed: seq<Device>,
                                             probe: string -> Option<DeviceStatus>, fetch: string -> Response<DeviceStatus>)
    ensures var r := StepProcessDevices(token, networkId, Some(listed), probe);
      && r.CreateEntry?
      && SetupEntry(r.data, fetch).Ok?
      && SetupEntry(r.data, fetch).value.apiToken == Text(token)
      && SetupEntry(r.data, fetch).value.devices == ProcessDevices(FilterByNetwork(listed, networkId), probe)
      && SetupEntry(r.data, fetch).value.firstPoll == Poll(ProcessDevices(FilterByNetwork(listed, networkId), probe), fetch)
  {
    var r := StepProcessDevices(token, networkId, Some(listed), probe);
    assert "api_token" in r.data;
  }

  /** The entry data re-authentication writes, as written: the submitted form
      alone, which replaces the whole entry. */
  function ReauthDataAsWritten(existing: EntryData, token: string): (data: EntryData)
    ensures data.Keys == {"api_token"}
    ensures data["api_token"] == Text(token)
  {
    map["api_token" := Text(token)]
  }

  /** Re-authenticating an entry that has devices, as written, drops them, and
      the reloaded entry then fails to set up. */
  lemma ReauthAsWrittenBreaksSetup(existing: EntryData, token: string, fetch: string -> Response<DeviceStatus>)
    requires "devices" in existing
    ensures "devices" !in ReauthDataAsWritten(existing, token)
    ensures SetupEntry(ReauthDataAsWritten(existing, token), fetch) == Err(MissingKey("devices"))
  {
  }

  /** The entry data re-authentication should write: the new token over the
      existing entry. */
  function ReauthData(existing: EntryData, token: string): (data: EntryData)
    ensures data.Keys == existing.Keys + {"api_token"}
    ensures data["api_token"] == Text(token)
    ensures forall k :: k in existing && k != "api_token" ==> data[k] == existing[k]
  {
    existing["api_token" := Text(token)]
  }

  /** Re-authenticating keeps the devices and network of an entry that set up,
      and the entry still sets up, now with the new token. */
  lemma ReauthKeepsSetup(existing: EntryData, token: string, fetch: string -> Response<DeviceStatus>)
    requires SetupEntry(existing, fetch).Ok?
    ensures SetupEntry(ReauthData(existing, token), fetch).Ok?
    ensures SetupEntry(ReauthData(existing, token), fetch).value.apiToken == Text(token)
    ensures SetupEntry(ReauthData(existing, token), fetch).value.devices == SetupEntry(existing, fetch).value.devices
  {
  }

  /** Re-authentication as written: a submitted token replaces the existing
      entry's data with the form alone. */
  function StepReauthAsWritten(existing: Option<EntryData>, token: Option<string>): (r: FlowResult)
    ensures r.UpdateEntryAndAbort? <==> existing.Some? && token.Some?
    ensures r.UpdateEntryAndAbort? ==>
      && r.reason == "reauth_successful"
      && r.data.Keys == {"api_token"}
      && r.data["api_token"] == Text(token.value)
    ensures !r.UpdateEntryAndAbort? ==> r == ShowForm("reauth")
  {
    if token.Some? && existing.Some? then
      UpdateEntryAndAbort(ReauthDataAsWritten(existing.value, token.value), "reauth_successful")
    else ShowForm("reauth")
  }

  /** Re-authentication, corrected: a submitted token updates the existing
      entry, which is then reloaded; otherwise the token form is shown. Both
      versions take the same branch; they differ only in the data written. */
  function StepReauth(existing: Option<EntryData>, token: Option<string>): (r: FlowResult)
    ensures r.UpdateEntryAndAbort? <==> existing.Some? && token.Some?
    ensures r.UpdateEntryAndAbort? ==>
      && r.reason == "reauth_successful"
      && "api_token" in r.data && r.data["api_token"] == Text(token.value)
      && forall k :: k in existing.value && k != "api_token" ==> k in r.data && r.data[k] == existing.value[k]
    ensures r.UpdateEntryAndAbort? ==> r.data == ReauthData(existing.value, token.value)
    ensures !r.UpdateEntryAndAbort? ==> r == ShowForm("reauth") && r == StepReauthAsWritten(existing, token)
    ensures r.UpdateEntryAndAbort? ==> StepReauthAsWritten(existing, token).UpdateEntryAndAbort?
  {
    if token.Some? && existing.Some? then
      UpdateEntryAndAbort(ReauthData(existing.value, token.value), "reauth_successful")
    else ShowForm("reauth")
  }
}

/** Setting up a configuration entry of the current integration: migrating the
    API token of an entry written by the previous version, reading the entry,
    and the poll that maps every configured device to its latest status. */
module Integration {
  import opened Wrappers
  import opened Wire
  import Api

  /** A value stored in a configuration entry. */
  datatype ConfigValue =
    | Text(text: string)
    | Section(entries: map<string, ConfigValue>)
    | DeviceList(devices: seq<DeviceRecord>)

  type EntryData = map<string, ConfigValue>

  /** The token an entry of the previous version keeps under `old_config`, if any. */
  function OldToken(data: EntryData): Option<ConfigValue> {
    if "old_config" in data && data["old_config"].Section? && "api_token" in data["old_config"].entries
    then Some(data["old_config"].entries["api_token"])
    else None
  }

  /** Copies the old token to `api_token` when the entry has none; every other
      key keeps its value. */
  function MigrateToken(data: EntryData): (r: EntryData)
    ensures "api_token" in data ==> r == data
    ensures OldToken(data).None? ==> r == data
    ensures "api_token" !in data && OldToken(data).Some? ==> "api_token" in r && r["api_token"] == OldToken(data).value
    ensures r.Keys == data.Keys + (if OldToken(data).Some? then {"api_token"} else {})
    ensures forall k :: k in data && k != "api_token" ==> k in r && r[k] == data[k]
  {
    if "api_token" !in data && OldToken(data).Some? then data["api_token" := OldToken(data).value] else data
  }

  /** Migration is needed at most once: a migrated entry migrates to itself. */
  lemma MigrateTokenIdempotent(data: EntryData)
    ensures MigrateToken(MigrateToken(data)) == MigrateToken(data)
  {
  }

  /** The keys of a poll result. */
  function UniqueIds(devices: seq<DeviceRecord>): set<string> {
    set d | d in devices :: d.uniqueId
  }

  /** One poll: every configured device's id mapped to its status, or to
      nothing when its status request did not answer HTTP 200. */
  function Poll(devices: seq<DeviceRecord>, fetch: string -> Response<DeviceStatus>): (r: map<string, Option<DeviceStatus>>)
    ensures r.Keys == UniqueIds(devices)
    ensures forall id :: id in r ==> (r[id].Some? <==> fetch(id).status == 200)
    ensures forall id :: id in r && r[id].Some? ==> r[id].value == fetch(id).body
    decreases |devices|
  {
    if devices == [] then map[]
    else
      var prefix := devices[..|devices| - 1];
      var last := devices[|devices| - 1];
      assert devices == prefix + [last];
      assert UniqueIds(devices) == UniqueIds(prefix) + {last.uniqueId};
      Poll(prefix, fetch)[last.uniqueId := Api.GetDeviceStatus(fetch(last.uniqueId))]
  }

  datatype SetupError = MissingKey(key: string) | MalformedDevices

  /** The device records the poll iterates over in a stored `devices` value:
      a list gives its records, an empty string or mapping iterates nothing,
      and any other value yields items that cannot be indexed by "uniqueId",
      so the poll raises. */
  function IteratedDevices(v: ConfigValue): (r: Option<seq<DeviceRecord>>)
    ensures v.DeviceList? ==> r == Some(v.devices)
    ensures r.Some? && !v.DeviceList? ==> r == Some([])
    ensures r.None? <==> (v.Text? && v.text != "") || (v.Section? && v.entries != map[])
  {
    match v
    case DeviceList(devices) => Some(devices)
    case Text(text) => if text == "" then Some([]) else None
    case Section(entries) => if entries == map[] then Some([]) else None
  }

  /** What setting up an entry produces: the token handed to the client, the
      configured devices and the first poll. */
  datatype Context = Context(apiToken: ConfigValue, devices: seq<DeviceRecord>, firstPoll: map<string, Option<DeviceStatus>>)

  /** `async_setup_entry` up to the first refresh. It raises when the
      (migrated) entry has no token, has no `devices`, or holds a `devices`
      value the poll cannot iterate. */
  function SetupEntry(data: EntryData, fetch: string -> Response<DeviceStatus>): (r: Result<Context, SetupError>)
    ensures r.Ok? <==>
      && ("api_token" in data || OldToken(data).Some?)
      && "devices" in data && IteratedDevices(data["devices"]).Some?
    ensures "api_token" !in data && OldToken(data).None? ==> r == Err(MissingKey("api_token"))
    ensures r.Ok? ==>
      && r.value.apiToken == (if "api_token" in data then data["api_token"] else OldToken(data).value)
      && r.value.devices == IteratedDevices(data["devices"]).value
      && r.value.firstPoll.Keys == UniqueIds(r.value.devices)
    ensures r.Ok? && data["devices"].DeviceList? ==> r.value.devices == data["devices"].devices
    ensures r.Ok? ==> r.value.firstPoll == Poll(r.value.devices, fetch)
  {
    var migrated := MigrateToken(data);
    if "api_token" !in migrated then Err(MissingKey("api_token"))
    else if "devices" !in migrated then Err(MissingKey("devices"))
    else match IteratedDevices(migrated["devices"])
      case None => Err(MalformedDevices)
      case Some(devices) => Ok(Context(migrated["api_token"], devices, Poll(devices, fetch)))
  }
}

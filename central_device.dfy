/**
 * The IoT Central device record of the preview API: fields read from the
 * service's JSON with Python's `or` fallbacks, the four-way status
 * classification, and the five-key registration info.
 */
module CentralDevice {
  import opened Wrappers
  import opened Json

  /** The statuses a device can be in, and the strings they serialise to. */
  datatype DeviceStatus = Blocked | Unassociated | Registered | Provisioned {
    function Value(): (v: string)
      ensures |v| > 0
    {
      match this
      case Blocked => "blocked"
      case Unassociated => "unassociated"
      case Registered => "registered"
      case Provisioned => "provisioned"
    }
  }

  /** The status named by a serialised value, if any. */
  function StatusOf(value: string): (s: Option<DeviceStatus>)
    ensures s.Some? ==> s.value.Value() == value
  {
    if value == "blocked" then Some(Blocked)
    else if value == "unassociated" then Some(Unassociated)
    else if value == "registered" then Some(Registered)
    else if value == "provisioned" then Some(Provisioned)
    else None
  }

  /** Distinct statuses serialise to distinct strings, and each string reads back to its status. */
  lemma StatusValueRoundTrip(s: DeviceStatus)
    ensures StatusOf(s.Value()) == Some(s)
  {
  }

  /** Python's `a or b`: `a` when it is truthy, otherwise `b`. */
  function Or(a: Json, b: Json): (r: Json)
    ensures Truthy(r) <==> Truthy(a) || Truthy(b)
    ensures r == a || r == b
    ensures Truthy(a) ==> r == a
  {
    if Truthy(a) then a else b
  }

  /** A parsed device. Every field holds the JSON value read from the service's dict (`null` when the key is absent). */
  datatype Device = Device(
    approved: Json,
    displayName: Json,
    etag: Json,
    id: Json,
    instanceOf: Json,
    provisioned: Json,
    simulated: Json,
    deviceStatus: DeviceStatus)

  /**
   * `_parse_device_status`: blocked unless approved; then unassociated
   * unless it has a template; then registered unless provisioned; else
   * provisioned.
   */
  function ParseDeviceStatus(approved: Json, instanceOf: Json, provisioned: Json): (s: DeviceStatus)
    ensures s == Blocked <==> !Truthy(approved)
    ensures s == Unassociated <==> Truthy(approved) && !Truthy(instanceOf)
    ensures s == Registered <==> Truthy(approved) && Truthy(instanceOf) && !Truthy(provisioned)
    ensures s == Provisioned <==> Truthy(approved) && Truthy(instanceOf) && Truthy(provisioned)
  {
    if !Truthy(approved) then Blocked
    else if !Truthy(instanceOf) then Unassociated
    else if !Truthy(provisioned) then Registered
    else Provisioned
  }

  /** `Device.__init__`: `enabled` wins over `approved`, `template` over `instanceOf`, when truthy. */
  function ParseDevice(device: Object): (d: Device)
    ensures d.approved == Or(GetOrNull(device, "enabled"), GetOrNull(device, "approved"))
    ensures d.instanceOf == Or(GetOrNull(device, "template"), GetOrNull(device, "instanceOf"))
    ensures d.id == GetOrNull(device, "id") && d.displayName == GetOrNull(device, "displayName")
    ensures d.etag == GetOrNull(device, "etag") && d.provisioned == GetOrNull(device, "provisioned")
    ensures d.simulated == GetOrNull(device, "simulated")
    ensures d.deviceStatus == ParseDeviceStatus(d.approved, d.instanceOf, d.provisioned)
  {
    var approved := Or(GetOrNull(device, "enabled"), GetOrNull(device, "approved"));
    var instanceOf := Or(GetOrNull(device, "template"), GetOrNull(device, "instanceOf"));
    var provisioned := GetOrNull(device, "provisioned");
    Device(
      approved,
      GetOrNull(device, "displayName"),
      GetOrNull(device, "etag"),
      GetOrNull(device, "id"),
      instanceOf,
      provisioned,
      GetOrNull(device, "simulated"),
      ParseDeviceStatus(approved, instanceOf, provisioned))
  }

  /**
   * The status in terms of the service's dict: a device is blocked exactly
   * when neither `enabled` nor `approved` is truthy, whatever else it holds,
   * and unassociated exactly when it is not blocked and neither `template`
   * nor `instanceOf` is truthy.
   */
  lemma StatusFromDict(device: Object)
    ensures ParseDevice(device).deviceStatus == Blocked <==>
      !Truthy(GetOrNull(device, "enabled")) && !Truthy(GetOrNull(device, "approved"))
    ensures ParseDevice(device).deviceStatus == Unassociated <==>
      (Truthy(GetOrNull(device, "enabled")) || Truthy(GetOrNull(device, "approved"))) &&
      !Truthy(GetOrNull(device, "template")) && !Truthy(GetOrNull(device, "instanceOf"))
    ensures ParseDevice(device).deviceStatus == Provisioned ==> Truthy(GetOrNull(device, "provisioned"))
  {
  }

  /** A disabled device whose `approved` is truthy is not blocked: `enabled` only wins when truthy. */
  lemma FalsyEnabledFallsBackToApproved(device: Object)
    requires "enabled" in device && device["enabled"] == JBool(false)
    requires "approved" in device && device["approved"] == JBool(true)
    ensures ParseDevice(device).deviceStatus != Blocked
    ensures ParseDevice(device).approved == JBool(true)
  {
  }

  /** `get_registration_info`: exactly five keys, copied from the parsed device. */
  function RegistrationInfo(d: Device): (info: Object)
    ensures info.Keys == {"device_status", "display_name", "id", "simulated", "instance_of"}
  {
    map[
      "device_status" := JStr(d.deviceStatus.Value()),
      "display_name" := d.displayName,
      "id" := d.id,
      "simulated" := d.simulated,
      "instance_of" := d.instanceOf]
  }

  /** The registration info gives back the parsed fields, and its status string reads back to the device's status. */
  lemma RegistrationInfoRecoversDevice(d: Device)
    ensures var info := RegistrationInfo(d);
      && info["device_status"].JStr?
      && StatusOf(info["device_status"].s) == Some(d.deviceStatus)
      && info["display_name"] == d.displayName && info["id"] == d.id
      && info["simulated"] == d.simulated && info["instance_of"] == d.instanceOf
  {
    StatusValueRoundTrip(d.deviceStatus);
  }

  /** A device with an `enabled` flag and a template but not provisioned registers as "registered". */
  lemma ApprovedWithTemplateRegisters(device: Object)
    requires "enabled" in device && device["enabled"] == JBool(true)
    requires "template" in device && device["template"] == JStr("dtmi:template;1")
    requires "provisioned" in device && device["provisioned"] == JBool(false)
    ensures RegistrationInfo(ParseDevice(device))["device_status"] == JStr("registered")
  {
  }
}

/**
 * The vocabulary shared by IoT Hub state export, import and migration: the
 * hub as the listing and show calls present it, the service calls the
 * import makes (as events), and the runs of events an operation produces.
 *
 * A run is the sequence of service calls made, followed by the exception
 * that stopped the operation, if any. Logged errors (an unknown
 * authentication type) are events too, since they do not stop the run.
 */
module StateRecords {
  import opened Wrappers
  import opened Json

  /** The authentication types of a device or module record. */
  const Sas := "sas"
  const SelfSigned := "selfSigned"
  const CertificateAuthority := "certificateAuthority"

  /** The credentials a device or module is created with. */
  datatype Credentials =
    | SharedKeys(primaryKey: Json, secondaryKey: Json)
    | Thumbprints(primaryThumbprint: Json, secondaryThumbprint: Json)
    | CaSigned

  /** One call on the target hub, or one logged error. */
  datatype Event =
    | DeleteConfig(configId: Json)
    | DeleteDevice(deviceId: Json)
    | CreateConfig(configId: Json, content: Json, targetCondition: Json, priority: Json, labels: Json, metrics: Json)
    | CreateDevice(deviceId: Json, edge: Json, credentials: Credentials, status: Json, statusReason: Json)
    | UnknownDeviceAuth(deviceId: Json)
    | ReplaceTwin(deviceId: Json, twin: Json)
    | CreateModule(deviceId: Json, moduleId: Json, credentials: Credentials)
    | UnknownModuleAuth(deviceId: Json, moduleId: Json)
    | ReplaceModuleTwin(deviceId: Json, moduleId: Json, twin: Json)

  /**
   * What an operation produced, in order (the calls it made, or the lines it
   * wrote), and the exception that stopped it (None when it completed).
   */
  datatype Run<E> = Run(events: seq<E>, error: Option<PyError>)

  function Done<E>(): Run<E> {
    Run([], None)
  }

  function Raise<E>(e: PyError): Run<E> {
    Run([], Some(e))
  }

  /** One call, then the rest of the run. */
  function Emit<E>(e: E, rest: Run<E>): (r: Run<E>)
    ensures r.events == [e] + rest.events && r.error == rest.error
  {
    Run([e] + rest.events, rest.error)
  }

  /** Sequencing: `b` runs only when `a` completed. */
  function Then<E>(a: Run<E>, b: Run<E>): (r: Run<E>)
    ensures a.error.Some? ==> r == a
    ensures a.error.None? ==> r.events == a.events + b.events && r.error == b.error
  {
    if a.error.Some? then a else Run(a.events + b.events, b.error)
  }

  lemma ThenDone<E>(b: Run<E>)
    ensures Then(Done(), b) == b
  {
    assert [] + b.events == b.events;
  }

  lemma ThenAssociative<E>(a: Run<E>, b: Run<E>, c: Run<E>)
    ensures Then(Then(a, b), c) == Then(a, Then(b, c))
  {
    if a.error.None? && b.error.None? {
      assert (a.events + b.events) + c.events == a.events + (b.events + c.events);
    }
  }

  /** The form loop invariants take: what was produced so far, then what remains to be done. */
  lemma ThenEmit<E>(events: seq<E>, e: E, rest: Run<E>)
    ensures Then(Run(events, None), Emit(e, rest)) == Then(Run(events + [e], None), rest)
  {
    assert events + ([e] + rest.events) == (events + [e]) + rest.events;
  }

  lemma ThenAll<E>(events: seq<E>, more: seq<E>, rest: Run<E>)
    ensures Then(Run(events, None), Then(Run(more, None), rest)) == Then(Run(events + more, None), rest)
  {
    assert events + (more + rest.events) == (events + more) + rest.events;
  }

  lemma ThenEmitThen<E>(events: seq<E>, e: E, more: Run<E>, rest: Run<E>)
    ensures Then(Run(events, None), Then(Emit(e, more), rest)) == Then(Run(events + [e], None), Then(more, rest))
  {
    assert events + ([e] + more.events) == (events + [e]) + more.events;
    assert events + ([e] + more.events + rest.events) == (events + [e]) + (more.events + rest.events);
  }

  /** A loop step that went through: its output joins what was made, and the loop goes on with the rest. */
  lemma StepDone<E>(made: seq<E>, step: Run<E>, rest: Run<E>, whole: Run<E>)
    requires step.error.None? && Then(Run(made, None), Then(step, rest)) == whole
    ensures Then(Run(made + step.events, None), rest) == whole
  {
    assert made + (step.events + rest.events) == (made + step.events) + rest.events;
  }

  /** A loop step that raised: the whole run is what was made, then the step's output and exception. */
  lemma StepRaised<E>(made: seq<E>, step: Run<E>, whole: Run<E>)
    requires step.error.Some? && Then(Run(made, None), step) == whole
    ensures whole == Run(made + step.events, step.error)
  {
  }

  lemma ThenRaise<E>(events: seq<E>, e: PyError)
    ensures Then(Run(events, None), Raise(e)) == Run(events, Some(e))
  {
    assert events + [] == events;
  }

  lemma ThenFinished<E>(events: seq<E>)
    ensures Then(Run(events, None), Done()) == Run(events, None)
  {
    assert events + [] == events;
  }

  // ---------------------------------------------------------------------------
  // The source hub

  /** A module as listed (`vars(module)`), its twin, and what the module show call returns. */
  datatype ModuleEntry = ModuleEntry(obj: Object, twin: Object, shown: Json)

  /** A device identity as listed, what the device show call returns, its twin, and its modules as listed. */
  datatype DeviceEntry = DeviceEntry(identity: Object, shown: Json, twin: Json, modules: seq<ModuleEntry>)

  /** What the origin hub holds: its configurations and its devices, in listing order. */
  datatype SourceHub = SourceHub(configs: seq<Json>, devices: seq<DeviceEntry>)

  /** The modules every edge device has, which are never exported or migrated. */
  predicate IsSystemModule(moduleId: Json) {
    moduleId == JStr("$edgeAgent") || moduleId == JStr("$edgeHub")
  }

  /** `identity["capabilities"]["iotEdge"]` is truthy. */
  predicate IsEdge(identity: Object) {
    var edge := Index2(JObj(identity), "capabilities", "iotEdge");
    edge.Success? && Truthy(edge.value)
  }

  /** The count written as `numModules`: the listed modules, less the two system modules on an edge device. */
  function NumModules(d: DeviceEntry): int {
    if IsEdge(d.identity) then |d.modules| - 2 else |d.modules|
  }

  /** The number of listed modules that are not system modules (a module without `module_id` counts as one). */
  function NonSystemCount(modules: seq<ModuleEntry>): (n: nat)
    ensures n <= |modules|
  {
    if modules == [] then 0
    else
      (if "module_id" in modules[0].obj && IsSystemModule(modules[0].obj["module_id"]) then 0 else 1)
      + NonSystemCount(modules[1..])
  }

  /**
   * The `numModules` written for a device counts exactly its non-system
   * modules (a negative count meaning none). This holds when an edge device
   * lists both system modules and a non-edge device lists none.
   */
  predicate ModulesCounted(d: DeviceEntry) {
    NonSystemCount(d.modules) == if NumModules(d) < 0 then 0 else NumModules(d)
  }

  // ---------------------------------------------------------------------------
  // Record preparation shared by export and migration

  /** A device record gets its symmetric key from the show call when its authentication type is `sas`. */
  function MergeDeviceKey(id: Object, shown: Json): (r: Result<Object, PyError>)
    ensures r.Success? <==> ("authenticationType" in id &&
      (id["authenticationType"] == JStr(Sas) ==> Index2(shown, "authentication", "symmetricKey").Success?))
    ensures r.Success? && id["authenticationType"] == JStr(Sas) ==>
      r.value == id["symmetricKey" := Index2(shown, "authentication", "symmetricKey").value]
    ensures r.Success? && id["authenticationType"] != JStr(Sas) ==> r.value == id
  {
    var authType :- Lookup(id, "authenticationType");
    if authType == JStr(Sas) then
      var key :- Index2(shown, "authentication", "symmetricKey");
      Success(id["symmetricKey" := key])
    else Success(id)
  }

  /**
   * A module record gets its authentication type from its twin, its
   * symmetric key from the show call when that type is `sas`, and its
   * thumbprints from the show call when it is `selfSigned`.
   */
  function MergeModuleCredentials(record: Object, twin: Object, shown: Json): (r: Result<Object, PyError>)
    ensures r.Success? ==> "authenticationType" in twin && r.value.Keys >= record.Keys
  {
    var authType :- Lookup(twin, "authenticationType");
    var typed := record["authenticationType" := authType];
    var keyed :- if authType == JStr(Sas) then
        var key :- Index2(shown, "authentication", "symmetricKey");
        Success(typed["symmetricKey" := key])
      else Success(typed);
    if keyed["authenticationType"] == JStr(SelfSigned) then
      var thumbprint :- Index2(shown, "authentication", "x509Thumbprint");
      Success(keyed["x509Thumbprint" := thumbprint])
    else Success(keyed)
  }

  /** The merged record: the twin's type, and the show call's key or thumbprints when the type asks for them. */
  lemma MergeModuleCredentialsFields(record: Object, twin: Object, shown: Json)
    requires MergeModuleCredentials(record, twin, shown).Success?
    ensures var r := MergeModuleCredentials(record, twin, shown).value;
      var authType := twin["authenticationType"];
      && "authenticationType" in r && r["authenticationType"] == authType
      && (authType == JStr(Sas) ==>
            && Index2(shown, "authentication", "symmetricKey").Success?
            && r == record["authenticationType" := authType]["symmetricKey" := Index2(shown, "authentication", "symmetricKey").value])
      && (authType == JStr(SelfSigned) ==>
            && Index2(shown, "authentication", "x509Thumbprint").Success?
            && r == record["authenticationType" := authType]["x509Thumbprint" := Index2(shown, "authentication", "x509Thumbprint").value])
      && (authType != JStr(Sas) && authType != JStr(SelfSigned) ==> r == record["authenticationType" := authType])
  {
  }

  /** The merge touches only the credential fields: every other field of the record is kept as it is. */
  lemma MergeKeepsOtherFields(record: Object, twin: Object, shown: Json)
    requires MergeModuleCredentials(record, twin, shown).Success?
    ensures var merged := MergeModuleCredentials(record, twin, shown).value;
      forall k | k in record && k !in {"authenticationType", "symmetricKey", "x509Thumbprint"} :: k in merged && merged[k] == record[k]
  {
  }

  // ---------------------------------------------------------------------------
  // The create calls of the import

  /** `"key" in record.keys()` on a record already known to be a dict. */
  predicate HasKey(record: Json, key: string) {
    record.JObj? && key in record.fields
  }

  /**
   * `upload_device_identity`: reads the record's id, type, edge flag,
   * status and thumbprints (always, whatever the type), then creates the
   * device with keys, thumbprints or neither according to the type, or logs
   * an unknown type. The status reason is read from `statusReason`, but
   * only when the record has a key named `status_reason`.
   */
  function DeviceCreate(identity: Json): (r: Result<Event, PyError>)
    ensures r.Success? ==> identity.JObj? && {"deviceId", "authenticationType", "capabilities", "status", "x509Thumbprint"} <= identity.fields.Keys
  {
    var deviceId :- Index(identity, "deviceId");
    var authType :- Index(identity, "authenticationType");
    var edge :- Index2(identity, "capabilities", "iotEdge");
    var status :- Index(identity, "status");
    var primaryThumbprint :- Index2(identity, "x509Thumbprint", "primaryThumbprint");
    var secondaryThumbprint :- Index2(identity, "x509Thumbprint", "secondaryThumbprint");
    var statusReason :- if HasKey(identity, "status_reason") then Index(identity, "statusReason") else Success(JNull);
    if authType == JStr(Sas) then
      var primaryKey :- Index2(identity, "symmetricKey", "primaryKey");
      var secondaryKey :- Index2(identity, "symmetricKey", "secondaryKey");
      Success(CreateDevice(deviceId, edge, SharedKeys(primaryKey, secondaryKey), status, statusReason))
    else if authType == JStr(SelfSigned) then
      Success(CreateDevice(deviceId, edge, Thumbprints(primaryThumbprint, secondaryThumbprint), status, statusReason))
    else if authType == JStr(CertificateAuthority) then
      Success(CreateDevice(deviceId, edge, CaSigned, status, statusReason))
    else Success(UnknownDeviceAuth(deviceId))
  }

  /**
   * `upload_module_identity`: the same three-way dispatch; thumbprints are
   * read only for `selfSigned` modules.
   */
  function ModuleCreate(identity: Json): (r: Result<Event, PyError>)
    ensures r.Success? ==> identity.JObj? && {"device_id", "module_id", "authenticationType"} <= identity.fields.Keys
  {
    var deviceId :- Index(identity, "device_id");
    var moduleId :- Index(identity, "module_id");
    var authType :- Index(identity, "authenticationType");
    if authType == JStr(Sas) then
      var primaryKey :- Index2(identity, "symmetricKey", "primaryKey");
      var secondaryKey :- Index2(identity, "symmetricKey", "secondaryKey");
      Success(CreateModule(deviceId, moduleId, SharedKeys(primaryKey, secondaryKey)))
    else if authType == JStr(SelfSigned) then
      var primaryThumbprint :- Index2(identity, "x509Thumbprint", "primaryThumbprint");
      var secondaryThumbprint :- Index2(identity, "x509Thumbprint", "secondaryThumbprint");
      Success(CreateModule(deviceId, moduleId, Thumbprints(primaryThumbprint, secondaryThumbprint)))
    else if authType == JStr(CertificateAuthority) then
      Success(CreateModule(deviceId, moduleId, CaSigned))
    else Success(UnknownModuleAuth(deviceId, moduleId))
  }

  /**
   * The device create dispatches on the authentication type: keys for
   * `sas`, thumbprints for `selfSigned`, neither for `certificateAuthority`,
   * and only a log line for any other type. The keys, thumbprints, edge flag
   * and status are the record's own, each in its place. The status reason is `None`
   * unless the record has a `status_reason` key, and then it is read from
   * `statusReason`.
   */
  lemma DeviceCreateDispatch(identity: Json)
    requires DeviceCreate(identity).Success?
    ensures var r := DeviceCreate(identity).value;
      var authType := identity.fields["authenticationType"];
      && (r.CreateDevice? || r.UnknownDeviceAuth?)
      && (r.CreateDevice? && r.credentials.SharedKeys? <==> authType == JStr(Sas))
      && (r.CreateDevice? && r.credentials.Thumbprints? <==> authType == JStr(SelfSigned))
      && (r.CreateDevice? && r.credentials.CaSigned? <==> authType == JStr(CertificateAuthority))
      && (r.CreateDevice? && !HasKey(identity, "status_reason") ==> r.statusReason == JNull)
      && (r.CreateDevice? && HasKey(identity, "status_reason") ==> Index(identity, "statusReason") == Success(r.statusReason))
      && (r.CreateDevice? && r.credentials.SharedKeys? ==>
            && Index2(identity, "symmetricKey", "primaryKey") == Success(r.credentials.primaryKey)
            && Index2(identity, "symmetricKey", "secondaryKey") == Success(r.credentials.secondaryKey))
      && (r.CreateDevice? && r.credentials.Thumbprints? ==>
            && Index2(identity, "x509Thumbprint", "primaryThumbprint") == Success(r.credentials.primaryThumbprint)
            && Index2(identity, "x509Thumbprint", "secondaryThumbprint") == Success(r.credentials.secondaryThumbprint))
      && (r.CreateDevice? ==>
            && Index2(identity, "capabilities", "iotEdge") == Success(r.edge)
            && r.status == identity.fields["status"])
      && r.deviceId == identity.fields["deviceId"]
  {
  }

  /** The module create dispatches on the authentication type in the same way, with the record's own keys or thumbprints. */
  lemma ModuleCreateDispatch(identity: Json)
    requires ModuleCreate(identity).Success?
    ensures var r := ModuleCreate(identity).value;
      var authType := identity.fields["authenticationType"];
      && (r.CreateModule? || r.UnknownModuleAuth?)
      && (r.CreateModule? && r.credentials.SharedKeys? <==> authType == JStr(Sas))
      && (r.CreateModule? && r.credentials.Thumbprints? <==> authType == JStr(SelfSigned))
      && (r.CreateModule? && r.credentials.CaSigned? <==> authType == JStr(CertificateAuthority))
      && (r.CreateModule? && r.credentials.SharedKeys? ==>
            && Index2(identity, "symmetricKey", "primaryKey") == Success(r.credentials.primaryKey)
            && Index2(identity, "symmetricKey", "secondaryKey") == Success(r.credentials.secondaryKey))
      && (r.CreateModule? && r.credentials.Thumbprints? ==>
            && Index2(identity, "x509Thumbprint", "primaryThumbprint") == Success(r.credentials.primaryThumbprint)
            && Index2(identity, "x509Thumbprint", "secondaryThumbprint") == Success(r.credentials.secondaryThumbprint))
      && r.deviceId == identity.fields["device_id"] && r.moduleId == identity.fields["module_id"]
  {
  }

  /** Two records agree on `keys`: both dicts or neither, with the same presence and values for each key. */
  predicate AgreeOn(a: Json, b: Json, keys: set<string>) {
    && a.JObj? == b.JObj?
    && (a.JObj? ==> forall k | k in keys :: (k in a.fields <==> k in b.fields) && (k in a.fields ==> a.fields[k] == b.fields[k]))
  }

  const DeviceKeys: set<string> :=
    {"deviceId", "authenticationType", "capabilities", "status", "x509Thumbprint", "status_reason", "statusReason", "symmetricKey"}

  const ModuleKeys: set<string> := {"device_id", "module_id", "authenticationType", "symmetricKey", "x509Thumbprint"}

  lemma IndexAgree(a: Json, b: Json, keys: set<string>, k: string)
    requires AgreeOn(a, b, keys) && k in keys
    ensures Index(a, k) == Index(b, k)
  {
  }

  /** The device create reads nothing but its own keys: records that agree on them create the same device. */
  lemma DeviceCreateReadsOnlyItsKeys(a: Json, b: Json)
    requires AgreeOn(a, b, DeviceKeys)
    ensures DeviceCreate(a) == DeviceCreate(b)
  {
    forall k | k in DeviceKeys ensures Index(a, k) == Index(b, k) {
      IndexAgree(a, b, DeviceKeys, k);
    }
  }

  /** The module create reads nothing but its own keys. */
  lemma ModuleCreateReadsOnlyItsKeys(a: Json, b: Json)
    requires AgreeOn(a, b, ModuleKeys)
    ensures ModuleCreate(a) == ModuleCreate(b)
  {
    forall k | k in ModuleKeys ensures Index(a, k) == Index(b, k) {
      IndexAgree(a, b, ModuleKeys, k);
    }
  }

  /** An unknown authentication type creates nothing and is only logged. */
  lemma UnknownDeviceAuthOnlyLogged(identity: Json)
    requires DeviceCreate(identity).Success?
    requires identity.fields["authenticationType"] !in {JStr(Sas), JStr(SelfSigned), JStr(CertificateAuthority)}
    ensures DeviceCreate(identity) == Success(UnknownDeviceAuth(identity.fields["deviceId"]))
  {
  }

  /** `iot_hub_configuration_create`'s arguments, read from a configuration record in this order. */
  function ConfigCreate(c: Json): (r: Result<Event, PyError>)
    ensures r.Success? <==> c.JObj? && {"id", "content", "targetCondition", "priority", "labels", "metrics"} <= c.fields.Keys
    ensures r.Success? ==> r.value == CreateConfig(c.fields["id"], c.fields["content"], c.fields["targetCondition"],
                                                   c.fields["priority"], c.fields["labels"], c.fields["metrics"])
  {
    var configId :- Index(c, "id");
    var content :- Index(c, "content");
    var targetCondition :- Index(c, "targetCondition");
    var priority :- Index(c, "priority");
    var labels :- Index(c, "labels");
    var metrics :- Index(c, "metrics");
    Success(CreateConfig(configId, content, targetCondition, priority, labels, metrics))
  }

  /** Creating the configurations of a list, in order; the first malformed one stops the run. */
  function CreateConfigs(configs: seq<Json>): Run<Event> {
    if configs == [] then Done()
    else
      match ConfigCreate(configs[0])
      case Failure(e) => Raise(e)
      case Success(event) => Emit(event, CreateConfigs(configs[1..]))
  }

  lemma {:induction false} CreateConfigsInOrder(configs: seq<Json>)
    requires forall i | 0 <= i < |configs| :: ConfigCreate(configs[i]).Success?
    ensures CreateConfigs(configs).error.None?
    ensures |CreateConfigs(configs).events| == |configs|
    ensures forall i | 0 <= i < |configs| :: CreateConfigs(configs).events[i] == ConfigCreate(configs[i]).value
    decreases |configs|
  {
    if configs != [] {
      var later := configs[1..];
      assert forall i | 0 <= i < |later| :: later[i] == configs[i + 1];
      CreateConfigsInOrder(later);
      assert ConfigCreate(configs[0]).Success?;
      var events := CreateConfigs(configs).events;
      assert events == [ConfigCreate(configs[0]).value] + CreateConfigs(later).events;
      forall i | 0 <= i < |configs| ensures events[i] == ConfigCreate(configs[i]).value {
        if i > 0 {
          assert events[i] == CreateConfigs(later).events[i - 1];
        }
      }
    }
  }

  // ---------------------------------------------------------------------------
  // delete_all_configs and delete_all_devices

  /** Deleting every listed configuration by its `id`, in listing order. */
  function DeleteConfigs(configs: seq<Json>): Run<Event> {
    if configs == [] then Done()
    else
      match Index(configs[0], "id")
      case Failure(e) => Raise(e)
      case Success(configId) => Emit(DeleteConfig(configId), DeleteConfigs(configs[1..]))
  }

  /** Deleting every listed device by its `deviceId`, in listing order. */
  function DeleteDevices(devices: seq<Json>): Run<Event> {
    if devices == [] then Done()
    else
      match Index(devices[0], "deviceId")
      case Failure(e) => Raise(e)
      case Success(deviceId) => Emit(DeleteDevice(deviceId), DeleteDevices(devices[1..]))
  }

  /** `delete_all_configs`. */
  method DeleteAllConfigs(configs: seq<Json>) returns (run: Run<Event>)
    ensures run == DeleteConfigs(configs)
  {
    var events: seq<Event> := [];
    for i := 0 to |configs|
      invariant Then(Run(events, None), DeleteConfigs(configs[i..])) == DeleteConfigs(configs)
    {
      assert configs[i..][1..] == configs[i + 1..];
      var configId := Index(configs[i], "id");
      if configId.Failure? {
        ThenRaise(events, configId.error);
        return Run(events, Some(configId.error));
      }
      ThenEmit(events, DeleteConfig(configId.value), DeleteConfigs(configs[i + 1..]));
      events := events + [DeleteConfig(configId.value)];
    }
    ThenFinished(events);
    return Run(events, None);
  }

  /** `delete_all_devices`. */
  method DeleteAllDevices(devices: seq<Json>) returns (run: Run<Event>)
    ensures run == DeleteDevices(devices)
  {
    var events: seq<Event> := [];
    for i := 0 to |devices|
      invariant Then(Run(events, None), DeleteDevices(devices[i..])) == DeleteDevices(devices)
    {
      assert devices[i..][1..] == devices[i + 1..];
      var deviceId := Index(devices[i], "deviceId");
      if deviceId.Failure? {
        ThenRaise(events, deviceId.error);
        return Run(events, Some(deviceId.error));
      }
      ThenEmit(events, DeleteDevice(deviceId.value), DeleteDevices(devices[i + 1..]));
      events := events + [DeleteDevice(deviceId.value)];
    }
    ThenFinished(events);
    return Run(events, None);
  }

  /** When every listed configuration has an `id`, each one is deleted exactly once, in listing order, and nothing raises. */
  lemma {:induction false} DeleteConfigsDeletesEach(configs: seq<Json>)
    requires forall c | c in configs :: Index(c, "id").Success?
    ensures DeleteConfigs(configs).error.None?
    ensures |DeleteConfigs(configs).events| == |configs|
    ensures forall i | 0 <= i < |configs| :: DeleteConfigs(configs).events[i] == DeleteConfig(Index(configs[i], "id").value)
    decreases |configs|
  {
    if configs != [] {
      assert configs[0] in configs;
      assert forall c | c in configs[1..] :: c in configs;
      DeleteConfigsDeletesEach(configs[1..]);
      var rest := DeleteConfigs(configs[1..]);
      forall i | 0 <= i < |configs| ensures DeleteConfigs(configs).events[i] == DeleteConfig(Index(configs[i], "id").value) {
        if i > 0 {
          assert DeleteConfigs(configs).events[i] == rest.events[i - 1];
        }
      }
    }
  }

  /** Every listed device with a `deviceId` is deleted, once, in listing order. */
  lemma {:induction false} DeleteDevicesDeletesEach(devices: seq<Json>)
    requires forall d | d in devices :: Index(d, "deviceId").Success?
    ensures DeleteDevices(devices).error.None?
    ensures |DeleteDevices(devices).events| == |devices|
    ensures forall i | 0 <= i < |devices| :: DeleteDevices(devices).events[i] == DeleteDevice(Index(devices[i], "deviceId").value)
    decreases |devices|
  {
    if devices != [] {
      assert devices[0] in devices;
      assert forall d | d in devices[1..] :: d in devices;
      DeleteDevicesDeletesEach(devices[1..]);
      var rest := DeleteDevices(devices[1..]);
      forall i | 0 <= i < |devices| ensures DeleteDevices(devices).events[i] == DeleteDevice(Index(devices[i], "deviceId").value) {
        if i > 0 {
          assert DeleteDevices(devices).events[i] == rest.events[i - 1];
        }
      }
    }
  }

  /** With `overwrite`, the configurations, then the devices, of the target hub are deleted. */
  function Overwrite(overwrite: bool, existingConfigs: seq<Json>, existingDevices: seq<Json>): Run<Event> {
    if overwrite then Then(DeleteConfigs(existingConfigs), DeleteDevices(existingDevices)) else Done()
  }

  /** A delete call on the target hub. */
  predicate IsDeletion(e: Event) {
    e.DeleteConfig? || e.DeleteDevice?
  }

  /** No event of the list is a delete call (stated element by element in `NoDeletionAt`). */
  predicate NoDeletion(events: seq<Event>)
    decreases |events|
  {
    events == [] || (!IsDeletion(events[0]) && NoDeletion(events[1..]))
  }

  lemma {:induction false} NoDeletionAt(events: seq<Event>)
    ensures NoDeletion(events) <==> forall i | 0 <= i < |events| :: !IsDeletion(events[i])
    decreases |events|
  {
    if events != [] {
      NoDeletionAt(events[1..]);
      assert forall i | 1 <= i < |events| :: events[i] == events[1..][i - 1];
    }
  }

  lemma {:induction false} NoDeletionConcat(a: seq<Event>, b: seq<Event>)
    ensures NoDeletion(a + b) <==> NoDeletion(a) && NoDeletion(b)
    decreases |a|
  {
    if a != [] {
      assert (a + b)[1..] == a[1..] + b;
      NoDeletionConcat(a[1..], b);
    } else {
      assert a + b == b;
    }
  }

  lemma EmitNoDeletion(e: Event, rest: Run<Event>)
    requires !IsDeletion(e) && NoDeletion(rest.events)
    ensures NoDeletion(Emit(e, rest).events)
  {
    assert Emit(e, rest).events[1..] == rest.events;
  }

  lemma ThenNoDeletion(a: Run<Event>, b: Run<Event>)
    requires NoDeletion(a.events) && NoDeletion(b.events)
    ensures NoDeletion(Then(a, b).events)
  {
    if a.error.None? {
      NoDeletionConcat(a.events, b.events);
    }
  }

  /** Creating configurations deletes nothing. */
  lemma {:induction false} CreateConfigsNoDeletion(configs: seq<Json>)
    ensures NoDeletion(CreateConfigs(configs).events)
    decreases |configs|
  {
    if configs != [] && ConfigCreate(configs[0]).Success? {
      CreateConfigsNoDeletion(configs[1..]);
      EmitNoDeletion(ConfigCreate(configs[0]).value, CreateConfigs(configs[1..]));
    }
  }

  /** `delete_all_configs` makes only delete calls. */
  lemma {:induction false} DeleteConfigsOnlyDeletes(configs: seq<Json>)
    ensures forall i | 0 <= i < |DeleteConfigs(configs).events| :: DeleteConfigs(configs).events[i].DeleteConfig?
    decreases |configs|
  {
    if configs != [] && Index(configs[0], "id").Success? {
      DeleteConfigsOnlyDeletes(configs[1..]);
      var rest := DeleteConfigs(configs[1..]);
      assert forall i | 1 <= i < |DeleteConfigs(configs).events| :: DeleteConfigs(configs).events[i] == rest.events[i - 1];
    }
  }

  /** `delete_all_devices` makes only delete calls. */
  lemma {:induction false} DeleteDevicesOnlyDeletes(devices: seq<Json>)
    ensures forall i | 0 <= i < |DeleteDevices(devices).events| :: DeleteDevices(devices).events[i].DeleteDevice?
    decreases |devices|
  {
    if devices != [] && Index(devices[0], "deviceId").Success? {
      DeleteDevicesOnlyDeletes(devices[1..]);
      var rest := DeleteDevices(devices[1..]);
      assert forall i | 1 <= i < |DeleteDevices(devices).events| :: DeleteDevices(devices).events[i] == rest.events[i - 1];
    }
  }

  /**
   * The `overwrite` block deletes and does nothing else: without `overwrite`
   * it makes no call; with it, every configuration delete comes before every
   * device delete, and a failed configuration delete means no device is
   * deleted.
   */
  lemma OverwriteOnlyDeletes(overwrite: bool, existingConfigs: seq<Json>, existingDevices: seq<Json>)
    ensures var cleared := Overwrite(overwrite, existingConfigs, existingDevices);
      && (!overwrite ==> cleared == Done())
      && (forall i | 0 <= i < |cleared.events| :: IsDeletion(cleared.events[i]))
      && (forall i, j | 0 <= i < j < |cleared.events| && cleared.events[j].DeleteConfig? :: cleared.events[i].DeleteConfig?)
      && (overwrite && DeleteConfigs(existingConfigs).error.Some? ==> cleared == DeleteConfigs(existingConfigs))
  {
    if overwrite {
      DeleteConfigsOnlyDeletes(existingConfigs);
      DeleteDevicesOnlyDeletes(existingDevices);
      var configs := DeleteConfigs(existingConfigs);
      if configs.error.None? {
        var events := configs.events + DeleteDevices(existingDevices).events;
        assert forall i | |configs.events| <= i < |events| :: events[i] == DeleteDevices(existingDevices).events[i - |configs.events|];
      }
    }
  }

  /**
   * The target is cleared before anything else: the run starts with the
   * deletions, a failed deletion ends it, and no delete call comes after
   * them.
   */
  lemma DeletesFirst(cleared: Run<Event>, rest: Run<Event>)
    requires NoDeletion(rest.events)
    ensures var run := Then(cleared, rest);
      && |cleared.events| <= |run.events| && run.events[..|cleared.events|] == cleared.events
      && (cleared.error.Some? ==> run == cleared)
      && (forall i | |cleared.events| <= i < |run.events| :: !IsDeletion(run.events[i]))
  {
    NoDeletionAt(rest.events);
    if cleared.error.None? {
      var events := cleared.events + rest.events;
      assert events[..|cleared.events|] == cleared.events;
      assert forall i | |cleared.events| <= i < |events| :: events[i] == rest.events[i - |cleared.events|];
    }
  }

  /** The `if overwrite:` block that opens both `upload_state` and `migrate_devices`. */
  method ClearTarget(overwrite: bool, existingConfigs: seq<Json>, existingDevices: seq<Json>) returns (run: Run<Event>)
    ensures run == Overwrite(overwrite, existingConfigs, existingDevices)
  {
    run := Done();
    if overwrite {
      var configsDeleted := DeleteAllConfigs(existingConfigs);
      if configsDeleted.error.Some? {
        return configsDeleted;
      }
      var devicesDeleted := DeleteAllDevices(existingDevices);
      run := Run(configsDeleted.events + devicesDeleted.events, devicesDeleted.error);
    }
  }

  /** The configuration loop shared by `upload_state` and `migrate_devices`. */
  method CreateAllConfigs(configs: seq<Json>) returns (run: Run<Event>)
    ensures run == CreateConfigs(configs)
  {
    var events: seq<Event> := [];
    for i := 0 to |configs|
      invariant Then(Run(events, None), CreateConfigs(configs[i..])) == CreateConfigs(configs)
    {
      assert configs[i..][1..] == configs[i + 1..];
      var created := ConfigCreate(configs[i]);
      if created.Failure? {
        ThenRaise(events, created.error);
        return Run(events, Some(created.error));
      }
      ThenEmit(events, created.value, CreateConfigs(configs[i + 1..]));
      events := events + [created.value];
    }
    ThenFinished(events);
    return Run(events, None);
  }
}

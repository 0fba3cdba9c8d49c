/**
 * `migrate_devices`: copying the configurations, devices and modules of an
 * origin hub straight into the target hub, as a run of calls on the target.
 * The origin hub's listing and show calls are represented by the
 * `SourceHub` they return.
 */
module StateMigrate {
  import opened Wrappers
  import opened Json
  import opened StateRecords

  /**
   * One listed module: skipped when it is a system module; otherwise its
   * record gets the credentials of its twin and show call, the module is
   * created from it, and its twin replaced.
   */
  function MigrateModule(deviceId: Json, m: ModuleEntry): Run<Event> {
    match Lookup(m.obj, "module_id")
    case Failure(e) => Raise(e)
    case Success(moduleId) =>
      if IsSystemModule(moduleId) then Done()
      else
        match MergeModuleCredentials(m.obj, m.twin, m.shown)
        case Failure(e) => Raise(e)
        case Success(record) =>
          match ModuleCreate(JObj(record))
          case Failure(e) => Raise(e)
          case Success(created) => Emit(created, Emit(ReplaceModuleTwin(deviceId, moduleId, JObj(m.twin)), Done()))
  }

  function MigrateModules(deviceId: Json, ms: seq<ModuleEntry>): Run<Event> {
    if ms == [] then Done()
    else Then(MigrateModule(deviceId, ms[0]), MigrateModules(deviceId, ms[1..]))
  }

  /**
   * One listed device: the authentication type is read first, then the id;
   * the record gets its key from the show call when it is `sas`; the device
   * is created, its twin replaced, and its modules migrated.
   */
  function MigrateDevice(d: DeviceEntry): Run<Event> {
    if "authenticationType" !in d.identity then Raise(KeyError("authenticationType"))
    else if "deviceId" !in d.identity then Raise(KeyError("deviceId"))
    else
      match MergeDeviceKey(d.identity, d.shown)
      case Failure(e) => Raise(e)
      case Success(record) =>
        match DeviceCreate(JObj(record))
        case Failure(e) => Raise(e)
        case Success(created) =>
          var deviceId := d.identity["deviceId"];
          Emit(created, Emit(ReplaceTwin(deviceId, d.twin), MigrateModules(deviceId, d.modules)))
  }

  function MigrateDeviceList(ds: seq<DeviceEntry>): Run<Event> {
    if ds == [] then Done()
    else Then(MigrateDevice(ds[0]), MigrateDeviceList(ds[1..]))
  }

  /** `migrate_devices`: optional deletion on the target, then the configurations, then the devices. */
  function Migrate(overwrite: bool, existingConfigs: seq<Json>, existingDevices: seq<Json>, h: SourceHub): Run<Event> {
    Then(Overwrite(overwrite, existingConfigs, existingDevices), Then(CreateConfigs(h.configs), MigrateDeviceList(h.devices)))
  }

  /** `migrate_devices`, loop by loop. */
  method MigrateDevices(overwrite: bool, existingConfigs: seq<Json>, existingDevices: seq<Json>, h: SourceHub)
    returns (run: Run<Event>)
    ensures run == Migrate(overwrite, existingConfigs, existingDevices, h)
  {
    var cleared := ClearTarget(overwrite, existingConfigs, existingDevices);
    if cleared.error.Some? {
      return cleared;
    }
    var configs := CreateAllConfigs(h.configs);
    if configs.error.Some? {
      return Run(cleared.events + configs.events, configs.error);
    }
    var devices := MigrateAllDevices(h.devices);
    return Run(cleared.events + (configs.events + devices.events), devices.error);
  }

  /** The device loop of `migrate_devices`. */
  method MigrateAllDevices(ds: seq<DeviceEntry>) returns (run: Run<Event>)
    ensures run == MigrateDeviceList(ds)
  {
    var events: seq<Event> := [];
    for i := 0 to |ds|
      invariant Then(Run(events, None), MigrateDeviceList(ds[i..])) == MigrateDeviceList(ds)
    {
      assert ds[i..][1..] == ds[i + 1..];
      var device := MigrateOneDevice(ds[i]);
      if device.error.Some? {
        return Run(events + device.events, device.error);
      }
      ThenAll(events, device.events, MigrateDeviceList(ds[i + 1..]));
      events := events + device.events;
    }
    ThenFinished(events);
    return Run(events, None);
  }

  /** The body of the device loop: the calls made for one listed device and its modules. */
  method MigrateOneDevice(d: DeviceEntry) returns (run: Run<Event>)
    ensures run == MigrateDevice(d)
  {
    if "authenticationType" !in d.identity {
      return Raise(KeyError("authenticationType"));
    }
    if "deviceId" !in d.identity {
      return Raise(KeyError("deviceId"));
    }
    var record := MergeDeviceKey(d.identity, d.shown);
    if record.Failure? {
      return Raise(record.error);
    }
    var created := DeviceCreate(JObj(record.value));
    if created.Failure? {
      return Raise(created.error);
    }
    var deviceId := d.identity["deviceId"];
    var modules := MigrateAllModules(deviceId, d.modules);
    MigrateDeviceMade(d, record.value, created.value);
    return Emit(created.value, Emit(ReplaceTwin(deviceId, d.twin), modules));
  }

  lemma MigrateDeviceMade(d: DeviceEntry, record: Object, created: Event)
    requires "authenticationType" in d.identity && "deviceId" in d.identity
    requires MergeDeviceKey(d.identity, d.shown) == Success(record)
    requires DeviceCreate(JObj(record)) == Success(created)
    ensures MigrateDevice(d) == Emit(created, Emit(ReplaceTwin(d.identity["deviceId"], d.twin), MigrateModules(d.identity["deviceId"], d.modules)))
  {
  }

  /** The module loop of one device. */
  method MigrateAllModules(deviceId: Json, ms: seq<ModuleEntry>) returns (run: Run<Event>)
    ensures run == MigrateModules(deviceId, ms)
  {
    var events: seq<Event> := [];
    for j := 0 to |ms|
      invariant Then(Run(events, None), MigrateModules(deviceId, ms[j..])) == MigrateModules(deviceId, ms)
    {
      assert ms[j..][1..] == ms[j + 1..];
      var moduleRun := MigrateOneModule(deviceId, ms[j]);
      if moduleRun.error.Some? {
        return Run(events + moduleRun.events, moduleRun.error);
      }
      ThenAll(events, moduleRun.events, MigrateModules(deviceId, ms[j + 1..]));
      events := events + moduleRun.events;
    }
    ThenFinished(events);
    return Run(events, None);
  }

  /** The body of the module loop: the calls made for one listed module. */
  method MigrateOneModule(deviceId: Json, m: ModuleEntry) returns (run: Run<Event>)
    ensures run == MigrateModule(deviceId, m)
  {
    if "module_id" !in m.obj {
      return Raise(KeyError("module_id"));
    }
    var moduleId := m.obj["module_id"];
    if IsSystemModule(moduleId) {
      return Done();
    }
    var record := MergeModuleCredentials(m.obj, m.twin, m.shown);
    if record.Failure? {
      return Raise(record.error);
    }
    var created := ModuleCreate(JObj(record.value));
    if created.Failure? {
      return Raise(created.error);
    }
    return Run([created.value, ReplaceModuleTwin(deviceId, moduleId, JObj(m.twin))], None);
  }

  // ---------------------------------------------------------------------------
  // What the migration promises.

  /** A call that creates a system module or replaces its twin. */
  predicate TouchesSystemModule(e: Event) {
    (e.CreateModule? || e.UnknownModuleAuth? || e.ReplaceModuleTwin?) && IsSystemModule(e.moduleId)
  }

  predicate NoSystemModule(events: seq<Event>) {
    forall i | 0 <= i < |events| :: !TouchesSystemModule(events[i])
  }

  lemma EmitKeeps(e: Event, rest: Run<Event>)
    requires !IsDeletion(e) && !TouchesSystemModule(e)
    requires NoDeletion(rest.events) && NoSystemModule(rest.events)
    ensures NoDeletion(Emit(e, rest).events) && NoSystemModule(Emit(e, rest).events)
  {
    EmitNoDeletion(e, rest);
    assert forall i | 1 <= i < |Emit(e, rest).events| :: Emit(e, rest).events[i] == rest.events[i - 1];
  }

  lemma ThenKeeps(a: Run<Event>, b: Run<Event>)
    requires NoDeletion(a.events) && NoSystemModule(a.events)
    requires NoDeletion(b.events) && NoSystemModule(b.events)
    ensures NoDeletion(Then(a, b).events) && NoSystemModule(Then(a, b).events)
  {
    ThenNoDeletion(a, b);
    if a.error.None? {
      assert forall i | |a.events| <= i < |a.events + b.events| :: (a.events + b.events)[i] == b.events[i - |a.events|];
    }
  }

  /** One listed module: a system module makes no call; any other module's calls carry its own, non-system, id. */
  lemma MigrateModuleKeepsOut(deviceId: Json, m: ModuleEntry)
    ensures NoDeletion(MigrateModule(deviceId, m).events) && NoSystemModule(MigrateModule(deviceId, m).events)
  {
    if "module_id" in m.obj && !IsSystemModule(m.obj["module_id"]) {
      var merged := MergeModuleCredentials(m.obj, m.twin, m.shown);
      if merged.Success? && ModuleCreate(JObj(merged.value)).Success? {
        MergeKeepsOtherFields(m.obj, m.twin, m.shown);
        ModuleCreateDispatch(JObj(merged.value));
        var created := ModuleCreate(JObj(merged.value)).value;
        var replaced := ReplaceModuleTwin(deviceId, m.obj["module_id"], JObj(m.twin));
        EmitKeeps(replaced, Done());
        EmitKeeps(created, Emit(replaced, Done()));
      }
    }
  }

  lemma {:induction false} MigrateModulesKeepOut(deviceId: Json, ms: seq<ModuleEntry>)
    ensures NoDeletion(MigrateModules(deviceId, ms).events) && NoSystemModule(MigrateModules(deviceId, ms).events)
    decreases |ms|
  {
    if ms != [] {
      MigrateModuleKeepsOut(deviceId, ms[0]);
      MigrateModulesKeepOut(deviceId, ms[1..]);
      ThenKeeps(MigrateModule(deviceId, ms[0]), MigrateModules(deviceId, ms[1..]));
    }
  }

  lemma {:induction false} MigrateDeviceListKeepsOut(ds: seq<DeviceEntry>)
    ensures NoDeletion(MigrateDeviceList(ds).events) && NoSystemModule(MigrateDeviceList(ds).events)
    decreases |ds|
  {
    if ds != [] {
      var d := ds[0];
      if "authenticationType" in d.identity && "deviceId" in d.identity {
        var merged := MergeDeviceKey(d.identity, d.shown);
        if merged.Success? && DeviceCreate(JObj(merged.value)).Success? {
          DeviceCreateDispatch(JObj(merged.value));
          var deviceId := d.identity["deviceId"];
          MigrateModulesKeepOut(deviceId, d.modules);
          EmitKeeps(ReplaceTwin(deviceId, d.twin), MigrateModules(deviceId, d.modules));
          EmitKeeps(DeviceCreate(JObj(merged.value)).value, Emit(ReplaceTwin(deviceId, d.twin), MigrateModules(deviceId, d.modules)));
        }
      }
      MigrateDeviceListKeepsOut(ds[1..]);
      ThenKeeps(MigrateDevice(d), MigrateDeviceList(ds[1..]));
    }
  }

  /**
   * The migration never creates one of the two edge system modules nor
   * touches its twin, whatever the origin hub lists. With `overwrite`, the
   * target is cleared first: the run starts with the deletions, a failed
   * deletion ends it before anything is created, and no delete call comes
   * later.
   */
  lemma MigrationClearsFirstAndSkipsSystemModules(overwrite: bool, existingConfigs: seq<Json>, existingDevices: seq<Json>, h: SourceHub)
    ensures var run := Migrate(overwrite, existingConfigs, existingDevices, h);
      var cleared := Overwrite(overwrite, existingConfigs, existingDevices);
      && NoSystemModule(run.events)
      && |cleared.events| <= |run.events| && run.events[..|cleared.events|] == cleared.events
      && (cleared.error.Some? ==> run == cleared)
      && (forall i | |cleared.events| <= i < |run.events| :: !IsDeletion(run.events[i]))
  {
    var cleared := Overwrite(overwrite, existingConfigs, existingDevices);
    var rest := Then(CreateConfigs(h.configs), MigrateDeviceList(h.devices));
    CreateConfigsNoDeletion(h.configs);
    CreateConfigsNoSystemModule(h.configs);
    MigrateDeviceListKeepsOut(h.devices);
    ThenKeeps(CreateConfigs(h.configs), MigrateDeviceList(h.devices));
    DeletesFirst(cleared, rest);
    OverwriteOnlyDeletes(overwrite, existingConfigs, existingDevices);
    var run := Then(cleared, rest);
    forall i | 0 <= i < |run.events| ensures !TouchesSystemModule(run.events[i]) {
      if i < |cleared.events| {
        assert run.events[i] == cleared.events[i];
      }
    }
  }

  /** Creating configurations touches no module. */
  lemma {:induction false} CreateConfigsNoSystemModule(configs: seq<Json>)
    ensures NoSystemModule(CreateConfigs(configs).events)
    decreases |configs|
  {
    if configs != [] && ConfigCreate(configs[0]).Success? {
      CreateConfigsNoSystemModule(configs[1..]);
      var rest := CreateConfigs(configs[1..]);
      assert forall i | 1 <= i < |CreateConfigs(configs).events| :: CreateConfigs(configs).events[i] == rest.events[i - 1];
    }
  }
}

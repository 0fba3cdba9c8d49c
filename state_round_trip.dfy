/**
 * Export then import is migration: replaying the file `save_state` writes
 * makes exactly the calls on the target hub that `migrate_devices` makes
 * reading the same origin hub, whenever the export completes and every
 * device's `numModules` counts its non-system modules.
 */
module StateRoundTrip {
  import opened Wrappers
  import opened Json
  import opened StateRecords
  import opened StateExport
  import opened StateImport
  import opened StateMigrate

  lemma EmitThen<E>(e: E, a: Run<E>, b: Run<E>)
    ensures Then(Emit(e, a), b) == Emit(e, Then(a, b))
  {
    if a.error.None? {
      assert [e] + a.events + b.events == [e] + (a.events + b.events);
    }
  }

  /** Module records that agree on the keys the module create reads still agree once credentials are merged into them. */
  lemma MergeKeepsAgreement(a: Object, b: Object, twin: Object, shown: Json)
    requires AgreeOn(JObj(a), JObj(b), ModuleKeys)
    ensures MergeModuleCredentials(a, twin, shown).Success? <==> MergeModuleCredentials(b, twin, shown).Success?
    ensures MergeModuleCredentials(a, twin, shown).Success? ==>
      AgreeOn(JObj(MergeModuleCredentials(a, twin, shown).value), JObj(MergeModuleCredentials(b, twin, shown).value), ModuleKeys)
  {
    if MergeModuleCredentials(a, twin, shown).Success? {
      MergeModuleCredentialsFields(a, twin, shown);
      MergeModuleCredentialsFields(b, twin, shown);
    }
  }

  /** A written module record creates the module that migration creates from the listed record. */
  lemma ModuleRecordCreatesAlike(m: ModuleEntry)
    requires ExportModule(m).Success? && ExportModule(m).value != []
    ensures MergeModuleCredentials(m.obj, m.twin, m.shown).Success?
    ensures ModuleCreate(ExportModule(m).value[0]) == ModuleCreate(JObj(MergeModuleCredentials(m.obj, m.twin, m.shown).value))
    ensures Index(ExportModule(m).value[0], "module_id") == Success(m.obj["module_id"])
  {
    var s1 := Pop(m.obj, "connection_state_updated_time").value;
    var s2 := Pop(s1, "last_activity_time").value;
    var s3 := Pop(s2, "authentication").value;
    assert AgreeOn(JObj(s3), JObj(m.obj), ModuleKeys);
    MergeKeepsAgreement(s3, m.obj, m.twin, m.shown);
    ModuleCreateReadsOnlyItsKeys(ExportModule(m).value[0], JObj(MergeModuleCredentials(m.obj, m.twin, m.shown).value));
  }

  /** Reading a two-line pair off the front of a slice of the file. */
  lemma SlicePair(hubInfo: seq<Json>, a: nat, b: nat, pair: seq<Json>, rest: seq<Json>)
    requires a <= b <= |hubInfo| && |pair| == 2 && hubInfo[a..b] == pair + rest
    ensures a + 2 <= b && hubInfo[a] == pair[0] && hubInfo[a + 1] == pair[1] && hubInfo[a + 2..b] == rest
  {
    assert hubInfo[a..b][0] == hubInfo[a] && hubInfo[a..b][1] == hubInfo[a + 1];
    assert hubInfo[a..b][2..] == hubInfo[a + 2..b];
  }

  /** The migration of one listed non-system module whose create raises. */
  lemma MigrateModulesRaises(deviceId: Json, ms: seq<ModuleEntry>, record: Object, e: PyError)
    requires ms != [] && "module_id" in ms[0].obj && !IsSystemModule(ms[0].obj["module_id"])
    requires MergeModuleCredentials(ms[0].obj, ms[0].twin, ms[0].shown) == Success(record)
    requires ModuleCreate(JObj(record)) == Failure(e)
    ensures MigrateModules(deviceId, ms) == Raise(e)
  {
  }

  /** The migration of one listed non-system module whose create goes through. */
  lemma MigrateModulesMakes(deviceId: Json, ms: seq<ModuleEntry>, record: Object, created: Event)
    requires ms != [] && "module_id" in ms[0].obj && !IsSystemModule(ms[0].obj["module_id"])
    requires MergeModuleCredentials(ms[0].obj, ms[0].twin, ms[0].shown) == Success(record)
    requires ModuleCreate(JObj(record)) == Success(created)
    ensures MigrateModules(deviceId, ms) ==
      Emit(created, Emit(ReplaceModuleTwin(deviceId, ms[0].obj["module_id"], JObj(ms[0].twin)), MigrateModules(deviceId, ms[1..])))
  {
    var replaced := ReplaceModuleTwin(deviceId, ms[0].obj["module_id"], JObj(ms[0].twin));
    var rest := MigrateModules(deviceId, ms[1..]);
    EmitThen(created, Emit(replaced, Done()), rest);
    EmitThen(replaced, Done(), rest);
    ThenDone(rest);
  }

  /** A listed system module is skipped by migration. */
  lemma MigrateSkipsSystemModule(deviceId: Json, ms: seq<ModuleEntry>)
    requires ms != [] && "module_id" in ms[0].obj && IsSystemModule(ms[0].obj["module_id"])
    ensures MigrateModules(deviceId, ms) == MigrateModules(deviceId, ms[1..])
  {
    ThenDone(MigrateModules(deviceId, ms[1..]));
  }

  /**
   * The modules of a block: the written module pairs, starting at pair `j`
   * of the block at line `p`, replay as migration of the listed modules.
   */
  lemma {:induction false} ModulesRoundTrip(hubInfo: seq<Json>, p: nat, deviceId: Json, count: nat, j: nat, ms: seq<ModuleEntry>)
    requires ExportModules(ms).error.None?
    requires j + NonSystemCount(ms) == count && p + 2 + 2 * count <= |hubInfo|
    requires hubInfo[p + 2 + 2 * j..p + 2 + 2 * count] == ExportModules(ms).events
    ensures UploadModules(hubInfo, p, deviceId, count, j) == MigrateModules(deviceId, ms)
    decreases |ms|
  {
    if ms != [] {
      var next := ModulesFront(hubInfo, p, count, j, ms);
      ModulesRoundTrip(hubInfo, p, deviceId, count, next, ms[1..]);
      FrontAgrees(hubInfo, p, deviceId, count, j, ms, next);
    }
  }

  /**
   * Where the pairs of the modules after the first start: at the same pair
   * when the first is a system module, one pair further on otherwise, with
   * what the skipped pair holds.
   */
  lemma ModulesFront(hubInfo: seq<Json>, p: nat, count: nat, j: nat, ms: seq<ModuleEntry>) returns (next: nat)
    requires ms != [] && ExportModules(ms).error.None?
    requires j + NonSystemCount(ms) == count && p + 2 + 2 * count <= |hubInfo|
    requires hubInfo[p + 2 + 2 * j..p + 2 + 2 * count] == ExportModules(ms).events
    ensures ExportModules(ms[1..]).error.None? && next + NonSystemCount(ms[1..]) == count
    ensures hubInfo[p + 2 + 2 * next..p + 2 + 2 * count] == ExportModules(ms[1..]).events
    ensures "module_id" in ms[0].obj && (next == j || next == j + 1)
    ensures next == j ==> IsSystemModule(ms[0].obj["module_id"])
    ensures next == j + 1 ==> PairWritten(hubInfo, p + 2 + 2 * j, ms[0])
  {
    ModulesStep(ms);
    var k := FrontLines(hubInfo, p + 2 + 2 * j, p + 2 + 2 * count, ms[0], ExportModules(ms[1..]).events);
    next := if k == p + 2 + 2 * j then j else j + 1;
  }

  /** The lines one listed module wrote, at the front of a slice of the file: none for a system module, else a pair. */
  lemma FrontLines(hubInfo: seq<Json>, start: nat, end: nat, m: ModuleEntry, rest: seq<Json>) returns (k: nat)
    requires ExportModule(m).Success?
    requires start <= end <= |hubInfo| && hubInfo[start..end] == ExportModule(m).value + rest
    ensures k == start + |ExportModule(m).value| && k <= end && hubInfo[k..end] == rest
    ensures "module_id" in m.obj && (k == start || k == start + 2)
    ensures k == start ==> IsSystemModule(m.obj["module_id"])
    ensures k == start + 2 ==> PairWritten(hubInfo, start, m)
  {
    ExportModuleSkipsSystem(m);
    if ExportModule(m).value == [] {
      k := start;
      assert ExportModule(m).value + rest == rest;
    } else {
      k := start + 2;
      PairFacts(hubInfo, start, end, m, rest);
    }
  }

  /** The module pair at line `k` replays as the listed non-system module `m` migrates. */
  predicate PairWritten(hubInfo: seq<Json>, k: nat, m: ModuleEntry) {
    && k + 2 <= |hubInfo|
    && "module_id" in m.obj && !IsSystemModule(m.obj["module_id"])
    && MergeModuleCredentials(m.obj, m.twin, m.shown).Success?
    && hubInfo[k + 1] == JObj(m.twin)
    && Index(hubInfo[k], "module_id") == Success(m.obj["module_id"])
    && ModuleCreate(hubInfo[k]) == ModuleCreate(JObj(MergeModuleCredentials(m.obj, m.twin, m.shown).value))
  }

  /** The first listed module replays as it migrates, given that the modules after it do. */
  lemma FrontAgrees(hubInfo: seq<Json>, p: nat, deviceId: Json, count: nat, j: nat, ms: seq<ModuleEntry>, next: nat)
    requires ms != [] && "module_id" in ms[0].obj && (next == j || next == j + 1)
    requires next <= count && p + 2 + 2 * count <= |hubInfo|
    requires next == j ==> IsSystemModule(ms[0].obj["module_id"])
    requires next == j + 1 ==> PairWritten(hubInfo, p + 2 + 2 * j, ms[0])
    requires UploadModules(hubInfo, p, deviceId, count, next) == MigrateModules(deviceId, ms[1..])
    ensures UploadModules(hubInfo, p, deviceId, count, j) == MigrateModules(deviceId, ms)
  {
    if next == j {
      MigrateSkipsSystemModule(deviceId, ms);
    } else {
      PairAgrees(hubInfo, p, deviceId, count, j, ms);
    }
  }

  lemma PairAgrees(hubInfo: seq<Json>, p: nat, deviceId: Json, count: nat, j: nat, ms: seq<ModuleEntry>)
    requires ms != [] && j < count && p + 2 + 2 * count <= |hubInfo|
    requires PairWritten(hubInfo, p + 2 + 2 * j, ms[0])
    requires UploadModules(hubInfo, p, deviceId, count, j + 1) == MigrateModules(deviceId, ms[1..])
    ensures UploadModules(hubInfo, p, deviceId, count, j) == MigrateModules(deviceId, ms)
  {
    var record := MergeModuleCredentials(ms[0].obj, ms[0].twin, ms[0].shown).value;
    match ModuleCreate(hubInfo[p + 2 + 2 * j])
    case Failure(e) =>
      UploadModulesRaises(hubInfo, p, deviceId, count, j, e);
      MigrateModulesRaises(deviceId, ms, record, e);
    case Success(created) =>
      UploadModulesMakes(hubInfo, p, deviceId, count, j, created, ms[0].obj["module_id"], JObj(ms[0].twin));
      MigrateModulesMakes(deviceId, ms, record, created);
  }

  /** What the file holds where a module pair was written, and what its record creates. */
  lemma PairFacts(hubInfo: seq<Json>, k: nat, end: nat, m: ModuleEntry, rest: seq<Json>)
    requires ExportModule(m).Success? && |ExportModule(m).value| == 2
    requires k <= end <= |hubInfo| && hubInfo[k..end] == ExportModule(m).value + rest
    ensures k + 2 <= end && hubInfo[k + 2..end] == rest
    ensures PairWritten(hubInfo, k, m)
  {
    SlicePair(hubInfo, k, end, ExportModule(m).value, rest);
    ModuleRecordCreatesAlike(m);
  }

  /** A written device record creates the device that migration creates from the listed record. */
  lemma DeviceRecordCreatesAlike(d: DeviceEntry)
    requires DeviceRecord(d).Success?
    ensures "authenticationType" in d.identity && "deviceId" in d.identity
    ensures MergeDeviceKey(d.identity, d.shown).Success?
    ensures DeviceCreate(JObj(DeviceRecord(d).value)) == DeviceCreate(JObj(MergeDeviceKey(d.identity, d.shown).value))
    ensures Index(JObj(DeviceRecord(d).value), "deviceId") == Success(d.identity["deviceId"])
  {
    var merged := MergeDeviceKey(d.identity, d.shown).value;
    assert "deviceId" in merged && merged["deviceId"] == d.identity["deviceId"];
    assert AgreeOn(JObj(DeviceRecord(d).value), JObj(merged), DeviceKeys);
    DeviceCreateReadsOnlyItsKeys(JObj(DeviceRecord(d).value), JObj(merged));
  }

  /** Where a device block was written from line `p`: its record, its twin, its module lines, and the next block. */
  lemma {:induction false} DeviceBlockLines(hubInfo: seq<Json>, p: nat, ds: seq<DeviceEntry>)
    requires ds != [] && ExportDevices(ds).error.None?
    requires p <= |hubInfo| && hubInfo[p..] == ExportDevices(ds).events
    ensures var d := ds[0];
      var after := p + 2 + 2 * NonSystemCount(d.modules);
      && DeviceRecord(d).Success? && ExportModules(d.modules).error.None? && ExportDevices(ds[1..]).error.None?
      && after <= |hubInfo|
      && hubInfo[p] == JObj(DeviceRecord(d).value) && hubInfo[p + 1] == d.twin
      && hubInfo[p + 2..after] == ExportModules(d.modules).events
      && hubInfo[after..] == ExportDevices(ds[1..]).events
  {
    var d := ds[0];
    var record := DeviceRecord(d).value;
    var moduleLines := ExportModules(d.modules).events;
    ExportModulesLayout(d.modules);
    var lines := [JObj(record), d.twin] + moduleLines;
    assert ExportDevices(ds).events == lines + ExportDevices(ds[1..]).events;
    assert hubInfo[p] == lines[0] && hubInfo[p + 1] == lines[1];
    assert hubInfo[p + 2..p + |lines|] == lines[2..];
    assert hubInfo[p + |lines|..] == ExportDevices(ds[1..]).events;
  }

  /** What the replay reads off a written device record: its module count, its id, and the device it creates. */
  lemma DeviceRecordFacts(d: DeviceEntry)
    requires DeviceRecord(d).Success? && ModulesCounted(d)
    ensures var line := JObj(DeviceRecord(d).value);
      && Index(line, "numModules").Success?
      && ModuleCount(Index(line, "numModules").value) == Success(NonSystemCount(d.modules))
      && Index(line, "deviceId") == Success(d.identity["deviceId"])
      && "authenticationType" in d.identity && MergeDeviceKey(d.identity, d.shown).Success?
      && DeviceCreate(line) == DeviceCreate(JObj(MergeDeviceKey(d.identity, d.shown).value))
  {
    DeviceRecordCreatesAlike(d);
  }

  /** The replay of a device block whose count and id read back: its create raises, or it is made, its twin replaced, and its modules follow. */
  lemma UploadFromStep(hubInfo: seq<Json>, p: nat, deviceId: Json, count: nat)
    requires p + 2 <= |hubInfo|
    requires Index(hubInfo[p], "numModules").Success? && ModuleCount(Index(hubInfo[p], "numModules").value) == Success(count)
    requires Index(hubInfo[p], "deviceId") == Success(deviceId)
    ensures DeviceCreate(hubInfo[p]).Failure? ==> UploadFrom(hubInfo, p) == Raise(DeviceCreate(hubInfo[p]).error)
    ensures DeviceCreate(hubInfo[p]).Success? ==>
      UploadFrom(hubInfo, p) ==
      Emit(DeviceCreate(hubInfo[p]).value, Emit(ReplaceTwin(deviceId, hubInfo[p + 1]), AfterModules(hubInfo, p, deviceId, count, 0)))
  {
  }

  /** A block's modules, then, when they all go through, the blocks after it. */
  lemma AfterModulesSplit(hubInfo: seq<Json>, p: nat, deviceId: Json, count: nat)
    requires p + 2 + 2 * count <= |hubInfo|
    ensures AfterModules(hubInfo, p, deviceId, count, 0) ==
      Then(UploadModules(hubInfo, p, deviceId, count, 0), UploadFrom(hubInfo, p + 2 + 2 * count))
  {
  }

  /** The migration of one listed device whose key merges: its create raises, or it is made, its twin replaced, and its modules follow. */
  lemma MigrateDeviceStep(d: DeviceEntry)
    requires "authenticationType" in d.identity && "deviceId" in d.identity && MergeDeviceKey(d.identity, d.shown).Success?
    ensures var created := DeviceCreate(JObj(MergeDeviceKey(d.identity, d.shown).value));
      && (created.Failure? ==> MigrateDevice(d) == Raise(created.error))
      && (created.Success? ==>
            MigrateDevice(d) ==
            Emit(created.value, Emit(ReplaceTwin(d.identity["deviceId"], d.twin), MigrateModules(d.identity["deviceId"], d.modules))))
  {
  }

  /** Both sides of one device block once its modules are known to agree. */
  lemma DeviceBlockAgrees(created: Event, twinReplaced: Event, modules: Run<Event>, after: Run<Event>)
    ensures Emit(created, Emit(twinReplaced, Then(modules, after))) == Then(Emit(created, Emit(twinReplaced, modules)), after)
  {
    EmitThen(created, Emit(twinReplaced, modules), after);
    EmitThen(twinReplaced, modules, after);
  }

  /** One device block, written from a device whose `numModules` counts its modules, replays as that device's migration. */
  lemma DeviceBlockRoundTrip(hubInfo: seq<Json>, p: nat, d: DeviceEntry, after: nat)
    requires DeviceRecord(d).Success? && ExportModules(d.modules).error.None? && ModulesCounted(d)
    requires after == p + 2 + 2 * NonSystemCount(d.modules) && after <= |hubInfo|
    requires hubInfo[p] == JObj(DeviceRecord(d).value) && hubInfo[p + 1] == d.twin
    requires hubInfo[p + 2..after] == ExportModules(d.modules).events
    ensures UploadFrom(hubInfo, p) == Then(MigrateDevice(d), UploadFrom(hubInfo, after))
  {
    DeviceRecordFacts(d);
    var count := NonSystemCount(d.modules);
    var deviceId := d.identity["deviceId"];
    UploadFromStep(hubInfo, p, deviceId, count);
    MigrateDeviceStep(d);
    if DeviceCreate(hubInfo[p]).Success? {
      AfterModulesSplit(hubInfo, p, deviceId, count);
      ModulesRoundTrip(hubInfo, p, deviceId, count, 0, d.modules);
      DeviceBlockAgrees(DeviceCreate(hubInfo[p]).value, ReplaceTwin(deviceId, d.twin), MigrateModules(deviceId, d.modules), UploadFrom(hubInfo, after));
    }
  }

  /** Every device's `numModules` counts its non-system modules. */
  predicate AllCounted(ds: seq<DeviceEntry>) {
    forall k | 0 <= k < |ds| :: ModulesCounted(ds[k])
  }

  /** The device blocks from line `p` on replay as migration of the devices they were written from. */
  lemma {:induction false} DevicesRoundTrip(hubInfo: seq<Json>, p: nat, ds: seq<DeviceEntry>)
    requires ExportDevices(ds).error.None? && AllCounted(ds)
    requires p <= |hubInfo| && hubInfo[p..] == ExportDevices(ds).events
    ensures UploadFrom(hubInfo, p) == MigrateDeviceList(ds)
    decreases |ds|
  {
    if ds == [] {
      assert |hubInfo[p..]| == 0;
    } else {
      DeviceBlockLines(hubInfo, p, ds);
      var after := p + 2 + 2 * NonSystemCount(ds[0].modules);
      assert ModulesCounted(ds[0]);
      DeviceBlockRoundTrip(hubInfo, p, ds[0], after);
      assert AllCounted(ds[1..]) by {
        forall k | 0 <= k < |ds[1..]| ensures ModulesCounted(ds[1..][k]) {
          assert ds[1..][k] == ds[k + 1];
        }
      }
      DevicesRoundTrip(hubInfo, after, ds[1..]);
    }
  }

  /**
   * The round trip: when the export completes and every device's
   * `numModules` counts its non-system modules, importing the file makes
   * the same calls, in the same order, with the same outcome, as migrating
   * from the origin hub.
   */
  lemma ExportThenImportIsMigration(overwrite: bool, existingConfigs: seq<Json>, existingDevices: seq<Json>, h: SourceHub)
    requires Export(h).error.None?
    requires forall d | d in h.devices :: ModulesCounted(d)
    ensures Upload(overwrite, existingConfigs, existingDevices, Export(h).events) == Migrate(overwrite, existingConfigs, existingDevices, h)
  {
    var hubInfo := Export(h).events;
    assert hubInfo == [JArr(h.configs)] + ExportDevices(h.devices).events;
    assert hubInfo[1..] == ExportDevices(h.devices).events;
    forall k | 0 <= k < |h.devices| ensures ModulesCounted(h.devices[k]) {
      assert h.devices[k] in h.devices;
    }
    DevicesRoundTrip(hubInfo, 1, h.devices);
  }
}

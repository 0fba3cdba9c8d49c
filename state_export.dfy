/**
 * `save_state`: the lines the export writes. The first line is the list of
 * configurations; then, for each device, its identity record (annotated with
 * `numModules`, and with its symmetric key when it authenticates with `sas`)
 * and its twin; then, for each module other than the two edge system
 * modules, the module record and the module twin.
 *
 * The listing and show calls on the origin hub are represented by the
 * `SourceHub` they return. An exception leaves the lines written before it
 * in the file, so the export is a run of lines.
 */
module StateExport {
  import opened Wrappers
  import opened Json
  import opened StateRecords

  /** The keys `save_state` pops from a module record before writing it. */
  const PoppedModuleKeys: set<string> := {"connection_state_updated_time", "last_activity_time", "authentication"}

  /**
   * The two lines written for one listed module, or none for a system
   * module: the record without its timestamps and `authentication`, with the
   * credentials merged from the twin and the show call, then the twin.
   */
  function ExportModule(m: ModuleEntry): (r: Result<seq<Json>, PyError>)
    ensures r.Success? ==> |r.value| == 0 || |r.value| == 2
  {
    var moduleId :- Lookup(m.obj, "module_id");
    if IsSystemModule(moduleId) then Success([])
    else
      var withoutTime :- Pop(m.obj, "connection_state_updated_time");
      var withoutActivity :- Pop(withoutTime, "last_activity_time");
      var stripped :- Pop(withoutActivity, "authentication");
      var record :- MergeModuleCredentials(stripped, m.twin, m.shown);
      Success([JObj(record), JObj(m.twin)])
  }

  /**
   * A listed module without `module_id` stops the export; a system module
   * writes nothing; any other module writes its record, which keeps its id,
   * has none of the popped keys and has the twin's authentication type, and
   * then its twin. A module with the popped keys whose credentials merge is
   * always written.
   */
  lemma ExportModuleLines(m: ModuleEntry)
    ensures var r := ExportModule(m);
      && ("module_id" !in m.obj ==> r == Failure(KeyError("module_id")))
      && ("module_id" in m.obj && IsSystemModule(m.obj["module_id"]) ==> r == Success([]))
      && ("module_id" in m.obj && !IsSystemModule(m.obj["module_id"]) && r.Success? ==> |r.value| == 2)
      && (r.Success? && r.value != [] ==>
            && |r.value| == 2
            && r.value[1] == JObj(m.twin)
            && r.value[0].JObj?
            && r.value[0].fields.Keys !! PoppedModuleKeys
            && "module_id" in r.value[0].fields && r.value[0].fields["module_id"] == m.obj["module_id"]
            && !IsSystemModule(m.obj["module_id"])
            && "authenticationType" in r.value[0].fields && "authenticationType" in m.twin
            && r.value[0].fields["authenticationType"] == m.twin["authenticationType"])
      && (("module_id" in m.obj && !IsSystemModule(m.obj["module_id"]) && PoppedModuleKeys <= m.obj.Keys &&
            MergeModuleCredentials(m.obj, m.twin, m.shown).Success?) ==> r.Success? && |r.value| == 2)
  {
  }

  /** A module that exports has an id, and writes nothing exactly when it is a system module. */
  lemma ExportModuleSkipsSystem(m: ModuleEntry)
    requires ExportModule(m).Success?
    ensures "module_id" in m.obj
    ensures ExportModule(m).value == [] <==> IsSystemModule(m.obj["module_id"])
  {
  }

  /** The lines written for a device's modules, in listing order. */
  function ExportModules(ms: seq<ModuleEntry>): Run<Json> {
    if ms == [] then Done()
    else
      match ExportModule(ms[0])
      case Failure(e) => Raise(e)
      case Success(lines) => Then(Run(lines, None), ExportModules(ms[1..]))
  }

  /**
   * The device record written: `numModules` added, and the symmetric key
   * from the show call when the type is `sas`. The id is read first (to list
   * the modules), then the edge flag, then the authentication type.
   */
  function DeviceRecord(d: DeviceEntry): (r: Result<Object, PyError>)
    ensures r.Success? <==>
      && "deviceId" in d.identity
      && Index2(JObj(d.identity), "capabilities", "iotEdge").Success?
      && MergeDeviceKey(d.identity, d.shown).Success?
    ensures r.Success? ==> "numModules" in r.value && r.value["numModules"] == JNum(NumModules(d))
    ensures r.Success? ==> r.value.Keys == MergeDeviceKey(d.identity, d.shown).value.Keys + {"numModules"}
    ensures "deviceId" !in d.identity ==> r == Failure(KeyError("deviceId"))
  {
    var _ :- Lookup(d.identity, "deviceId");
    var edge :- Index2(JObj(d.identity), "capabilities", "iotEdge");
    var counted := d.identity["numModules" := JNum(if Truthy(edge) then |d.modules| - 2 else |d.modules|)];
    MergeDeviceKey(counted, d.shown)
  }

  /** The written device record is the listed one, with its key merged, plus `numModules` and nothing else. */
  lemma DeviceRecordAddsOnlyCount(d: DeviceEntry)
    requires DeviceRecord(d).Success?
    ensures var merged := MergeDeviceKey(d.identity, d.shown).value;
      forall k | k in DeviceRecord(d).value && k != "numModules" :: k in merged && DeviceRecord(d).value[k] == merged[k]
  {
  }

  /** The lines written for one device: its record, its twin, then its modules. */
  function ExportDevice(d: DeviceEntry): Run<Json> {
    match DeviceRecord(d)
    case Failure(e) => Raise(e)
    case Success(record) => Then(Run([JObj(record), d.twin], None), ExportModules(d.modules))
  }

  function ExportDevices(ds: seq<DeviceEntry>): Run<Json> {
    if ds == [] then Done()
    else Then(ExportDevice(ds[0]), ExportDevices(ds[1..]))
  }

  /** The file `save_state` writes: the configurations first, then every device. */
  function Export(h: SourceHub): Run<Json> {
    Then(Run([JArr(h.configs)], None), ExportDevices(h.devices))
  }

  /** `save_state`. */
  method SaveState(h: SourceHub) returns (written: Run<Json>)
    ensures written == Export(h)
  {
    var lines: seq<Json> := [JArr(h.configs)];
    for i := 0 to |h.devices|
      invariant Then(Run(lines, None), ExportDevices(h.devices[i..])) == Export(h)
    {
      var d := h.devices[i];
      assert h.devices[i..][1..] == h.devices[i + 1..];
      var record := DeviceRecord(d);
      if record.Failure? {
        ThenRaise(lines, record.error);
        return Run(lines, Some(record.error));
      }
      DeviceStep(lines, record.value, d, ExportDevices(h.devices[i + 1..]));
      lines := lines + [JObj(record.value), d.twin];
      for j := 0 to |d.modules|
        invariant Then(Run(lines, None), Then(ExportModules(d.modules[j..]), ExportDevices(h.devices[i + 1..]))) == Export(h)
      {
        assert d.modules[j..][1..] == d.modules[j + 1..];
        var moduleLines := ExportModule(d.modules[j]);
        if moduleLines.Failure? {
          ThenRaise(lines, moduleLines.error);
          return Run(lines, Some(moduleLines.error));
        }
        ModuleStep(lines, moduleLines.value, ExportModules(d.modules[j + 1..]), ExportDevices(h.devices[i + 1..]));
        lines := lines + moduleLines.value;
      }
      assert d.modules[|d.modules|..] == [];
      ThenDone(ExportDevices(h.devices[i + 1..]));
    }
    ThenFinished(lines);
    return Run(lines, None);
  }

  lemma DeviceStep(lines: seq<Json>, record: Object, d: DeviceEntry, rest: Run<Json>)
    requires DeviceRecord(d) == Success(record)
    ensures Then(Run(lines, None), Then(ExportDevice(d), rest)) ==
      Then(Run(lines + [JObj(record), d.twin], None), Then(ExportModules(d.modules), rest))
  {
    ThenAssociative(Run([JObj(record), d.twin], None), ExportModules(d.modules), rest);
    ThenAll(lines, [JObj(record), d.twin], Then(ExportModules(d.modules), rest));
  }

  lemma ModuleStep(lines: seq<Json>, moduleLines: seq<Json>, more: Run<Json>, rest: Run<Json>)
    ensures Then(Run(lines, None), Then(Then(Run(moduleLines, None), more), rest)) ==
      Then(Run(lines + moduleLines, None), Then(more, rest))
  {
    ThenAssociative(Run(moduleLines, None), more, rest);
    ThenAll(lines, moduleLines, Then(more, rest));
  }

  // ---------------------------------------------------------------------------
  // The layout of the file

  /**
   * Lines `k` and `k + 1` are a module record and its twin: the record names
   * a module other than the system modules and carries the authentication
   * type of the twin.
   */
  predicate ModulePair(lines: seq<Json>, k: nat) {
    && k + 1 < |lines|
    && lines[k].JObj? && lines[k + 1].JObj?
    && "module_id" in lines[k].fields && !IsSystemModule(lines[k].fields["module_id"])
    && "authenticationType" in lines[k].fields && "authenticationType" in lines[k + 1].fields
    && lines[k].fields["authenticationType"] == lines[k + 1].fields["authenticationType"]
  }

  /**
   * A device's module lines are two per non-system module, each a record
   * immediately followed by its twin: no system module is ever written.
   */
  lemma {:induction false} ExportModulesLayout(ms: seq<ModuleEntry>)
    requires ExportModules(ms).error.None?
    ensures |ExportModules(ms).events| == 2 * NonSystemCount(ms)
    ensures forall k | 0 <= k < |ExportModules(ms).events| && k % 2 == 0 :: ModulePair(ExportModules(ms).events, k)
    decreases |ms|
  {
    if ms != [] {
      ExportModulesLayout(ms[1..]);
      ModulesStep(ms);
      if ExportModule(ms[0]).value != [] {
        FirstPair(ms[0]);
      }
      PairsConcat(ExportModule(ms[0]).value, ExportModules(ms[1..]).events);
    }
  }

  /** One module's lines followed by the others', and its share of the count. */
  lemma ModulesStep(ms: seq<ModuleEntry>)
    requires ms != [] && ExportModules(ms).error.None?
    ensures ExportModule(ms[0]).Success? && ExportModules(ms[1..]).error.None?
    ensures ExportModules(ms).events == ExportModule(ms[0]).value + ExportModules(ms[1..]).events
    ensures |ExportModule(ms[0]).value| == 2 * (NonSystemCount(ms) - NonSystemCount(ms[1..]))
  {
  }

  lemma FirstPair(m: ModuleEntry)
    requires ExportModule(m).Success? && ExportModule(m).value != []
    ensures ModulePair(ExportModule(m).value, 0)
  {
  }

  lemma PairsConcat(first: seq<Json>, rest: seq<Json>)
    requires |first| == 0 || (|first| == 2 && ModulePair(first, 0))
    requires forall k | 0 <= k < |rest| && k % 2 == 0 :: ModulePair(rest, k)
    ensures forall k | 0 <= k < |first + rest| && k % 2 == 0 :: ModulePair(first + rest, k)
  {
    forall k | 0 <= k < |first + rest| && k % 2 == 0 ensures ModulePair(first + rest, k) {
      if k < |first| {
        assert (first + rest)[0] == first[0] && (first + rest)[1] == first[1];
      } else {
        var k' := k - |first|;
        assert ModulePair(rest, k');
        assert (first + rest)[k] == rest[k'] && (first + rest)[k + 1] == rest[k' + 1];
      }
    }
  }

  /** How many lines a device list exports to: two per device and two per non-system module. */
  function ExportedLineCount(ds: seq<DeviceEntry>): nat {
    if ds == [] then 0 else 2 + 2 * NonSystemCount(ds[0].modules) + ExportedLineCount(ds[1..])
  }

  /**
   * A device is written as its record, annotated with `numModules`,
   * immediately followed by its twin, and then its module lines.
   */
  lemma ExportDeviceLayout(d: DeviceEntry)
    requires ExportDevice(d).error.None?
    ensures var lines := ExportDevice(d).events;
      && |lines| >= 2
      && lines[0].JObj? && "numModules" in lines[0].fields && lines[0].fields["numModules"] == JNum(NumModules(d))
      && "deviceId" in lines[0].fields && lines[0].fields["deviceId"] == d.identity["deviceId"]
      && lines[1] == d.twin
      && lines[2..] == ExportModules(d.modules).events
  {
    var record := DeviceRecord(d).value;
    assert "deviceId" in MergeDeviceKey(d.identity, d.shown).value;
  }

  /**
   * The configuration list is always the first line, and a completed export
   * writes one line for it, two per device and two per non-system module.
   */
  lemma {:induction false} ExportLineCount(h: SourceHub)
    ensures |Export(h).events| >= 1 && Export(h).events[0] == JArr(h.configs)
    ensures Export(h).error.None? ==> |Export(h).events| == 1 + ExportedLineCount(h.devices)
  {
    if ExportDevices(h.devices).error.None? {
      ExportDevicesLineCount(h.devices);
    }
  }

  lemma {:induction false} ExportDevicesLineCount(ds: seq<DeviceEntry>)
    requires ExportDevices(ds).error.None?
    ensures |ExportDevices(ds).events| == ExportedLineCount(ds)
    decreases |ds|
  {
    if ds != [] {
      ExportDevicesLineCount(ds[1..]);
      ExportDeviceLayout(ds[0]);
      ExportModulesLayout(ds[0].modules);
    }
  }
}

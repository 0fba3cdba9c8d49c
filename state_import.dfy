/**
 * `upload_state`: replaying an exported file on the target hub. Line 0 is
 * the configuration list; from line 1 a cursor walks the device blocks. A
 * block is the device record, its twin, and `numModules` pairs of module
 * record and module twin; the cursor moves past the block, by
 * `2 + 2 * numModules` lines.
 *
 * The file is the sequence of its parsed lines. An exception is the one the
 * Python indexing would raise: a missing line is an `IndexError` carrying
 * the line number, a missing key a `KeyError`, a `numModules` that `range`
 * refuses a `TypeError`.
 */
module StateImport {
  import opened Wrappers
  import opened Json
  import opened StateRecords

  /** What `range(v)` makes of a JSON value: a count (booleans are integers in Python), or TypeError. */
  function RangeCount(v: Json): (r: Result<int, PyError>)
    ensures r.Success? <==> v.JNum? || v.JBool?
    ensures v.JNum? ==> r == Success(v.n)
    ensures r.Failure? ==> r.error == TypeError
  {
    match v
    case JNum(n) => Success(n)
    case JBool(b) => Success(if b then 1 else 0)
    case _ => Failure(TypeError)
  }

  /** The number of iterations of `for j in range(numModules)`: none for a negative count. */
  function ModuleCount(numModules: Json): (r: Result<nat, PyError>)
    ensures r.Success? <==> RangeCount(numModules).Success?
    ensures r.Success? ==> r.value == if RangeCount(numModules).value < 0 then 0 else RangeCount(numModules).value
  {
    var n :- RangeCount(numModules);
    Success(if n < 0 then 0 else n)
  }

  /**
   * The device block at line `i`, and everything after it: the `numModules`
   * lookup, the twin line, the device create, the twin replace, then the
   * modules of the block and the blocks after it.
   */
  function UploadFrom(hubInfo: seq<Json>, i: nat): Run<Event>
    requires i <= |hubInfo|
    decreases |hubInfo| - i, 1
  {
    if i == |hubInfo| then Done()
    else
      match Index(hubInfo[i], "numModules")
      case Failure(e) => Raise(e)
      case Success(numModules) =>
        if i + 1 == |hubInfo| then Raise(IndexError(i + 1))
        else
          match DeviceCreate(hubInfo[i])
          case Failure(e) => Raise(e)
          case Success(created) =>
            match Index(hubInfo[i], "deviceId")
            case Failure(e) => Emit(created, Raise(e))
            case Success(deviceId) =>
              var count := ModuleCount(numModules);
              var rest := if count.Failure? then Raise(count.error) else AfterModules(hubInfo, i, deviceId, count.value, 0);
              Emit(created, Emit(ReplaceTwin(deviceId, hubInfo[i + 1]), rest))
  }

  /** The modules of the block at line `i` from module `j` on, then, when they all went through, the next block. */
  function AfterModules(hubInfo: seq<Json>, i: nat, deviceId: Json, count: nat, j: nat): Run<Event>
    requires j <= count && i + 2 + 2 * j <= |hubInfo|
    decreases |hubInfo| - i, 0
  {
    var modules := UploadModules(hubInfo, i, deviceId, count, j);
    if modules.error.Some? then modules else Then(modules, UploadFrom(hubInfo, i + 2 + 2 * count))
  }

  /**
   * Module `j` of the `count` modules of the block at line `i` (its record
   * at line `i + 2 + 2 * j`, its twin on the next line), and the modules
   * after it. When they all go through, the block ends within the file.
   */
  function UploadModules(hubInfo: seq<Json>, i: nat, deviceId: Json, count: nat, j: nat): (r: Run<Event>)
    requires j <= count && i + 2 + 2 * j <= |hubInfo|
    ensures r.error.None? ==> i + 2 + 2 * count <= |hubInfo|
    decreases count - j
  {
    var k := i + 2 + 2 * j;
    if j == count then Done()
    else if k == |hubInfo| then Raise(IndexError(k))
    else if k + 1 == |hubInfo| then Raise(IndexError(k + 1))
    else
      match ModuleCreate(hubInfo[k])
      case Failure(e) => Raise(e)
      case Success(created) =>
        match Index(hubInfo[k], "module_id")
        case Failure(e) => Emit(created, Raise(e))
        case Success(moduleId) =>
          Emit(created, Emit(ReplaceModuleTwin(deviceId, moduleId, hubInfo[k + 1]), UploadModules(hubInfo, i, deviceId, count, j + 1)))
  }

  /** Line 0: `range(len(configs))` and `configs[i]` need a list. */
  function ConfigsFrom(line: Json): Run<Event> {
    if line.JArr? then CreateConfigs(line.items) else Raise(TypeError)
  }

  /** `upload_state`: optional deletion on the target, then the configurations, then the device blocks. */
  function Upload(overwrite: bool, existingConfigs: seq<Json>, existingDevices: seq<Json>, hubInfo: seq<Json>): Run<Event> {
    Then(Overwrite(overwrite, existingConfigs, existingDevices),
      if hubInfo == [] then Raise(IndexError(0))
      else Then(ConfigsFrom(hubInfo[0]), UploadFrom(hubInfo, 1)))
  }

  /** `upload_state`, with its cursor loop. */
  method UploadState(overwrite: bool, existingConfigs: seq<Json>, existingDevices: seq<Json>, hubInfo: seq<Json>)
    returns (run: Run<Event>)
    ensures run == Upload(overwrite, existingConfigs, existingDevices, hubInfo)
  {
    var cleared := ClearTarget(overwrite, existingConfigs, existingDevices);
    if cleared.error.Some? {
      return cleared;
    }
    if hubInfo == [] {
      return Run(cleared.events, Some(IndexError(0)));
    }
    if !hubInfo[0].JArr? {
      return Run(cleared.events, Some(TypeError));
    }
    var configs := CreateAllConfigs(hubInfo[0].items);
    if configs.error.Some? {
      return Run(cleared.events + configs.events, configs.error);
    }
    var devices := ReplayDevices(hubInfo);
    return Run(cleared.events + (configs.events + devices.events), devices.error);
  }

  /** The cursor loop of `upload_state`, from line 1. */
  method ReplayDevices(hubInfo: seq<Json>) returns (run: Run<Event>)
    requires |hubInfo| >= 1
    ensures run == UploadFrom(hubInfo, 1)
  {
    var made: seq<Event> := [];
    var i: nat := 1;
    ThenDone(UploadFrom(hubInfo, 1));
    while i < |hubInfo|
      invariant i <= |hubInfo|
      invariant Then(Run(made, None), UploadFrom(hubInfo, i)) == UploadFrom(hubInfo, 1)
      decreases |hubInfo| - i
    {
      var header, deviceId, count := ReplayDevice(hubInfo, i);
      if header.error.Some? {
        return Run(made + header.events, header.error);
      }
      var modules := ReplayModules(hubInfo, i, deviceId, count);
      AfterModulesStart(hubInfo, i, deviceId, count);
      if modules.error.Some? {
        BlockStops(made, header, modules, UploadFrom(hubInfo, i));
        return Run(made + header.events + modules.events, modules.error);
      }
      BlockGoesOn(made, header, modules, UploadFrom(hubInfo, i + 2 + 2 * count), UploadFrom(hubInfo, i));
      made := made + header.events + modules.events;
      i := i + 2 + 2 * count;
    }
    ThenFinished(made);
    return Run(made, None);
  }

  /** A block's module loop: when it raises, it ends the replay; otherwise the next block follows. */
  lemma AfterModulesStart(hubInfo: seq<Json>, i: nat, deviceId: Json, count: nat)
    requires i + 2 <= |hubInfo|
    ensures var modules := UploadModules(hubInfo, i, deviceId, count, 0);
      && (modules.error.Some? ==> AfterModules(hubInfo, i, deviceId, count, 0) == modules)
      && (modules.error.None? ==>
            && i + 2 + 2 * count <= |hubInfo|
            && AfterModules(hubInfo, i, deviceId, count, 0) == Then(modules, UploadFrom(hubInfo, i + 2 + 2 * count)))
  {
  }

  /** The calls made so far, then a block whose module loop raises. */
  lemma BlockStops(made: seq<Event>, header: Run<Event>, modules: Run<Event>, block: Run<Event>)
    requires header.error.None? && modules.error.Some? && block == Then(header, modules)
    ensures Then(Run(made, None), block) == Run(made + header.events + modules.events, modules.error)
  {
    assert made + (header.events + modules.events) == made + header.events + modules.events;
  }

  /** The calls made so far, then a block that goes through, then the blocks after it. */
  lemma BlockGoesOn(made: seq<Event>, header: Run<Event>, modules: Run<Event>, after: Run<Event>, block: Run<Event>)
    requires header.error.None? && modules.error.None? && block == Then(header, Then(modules, after))
    ensures Then(Run(made, None), block) == Then(Run(made + header.events + modules.events, None), after)
  {
    assert made + (header.events + (modules.events + after.events)) == made + header.events + modules.events + after.events;
  }

  /**
   * The device part of a block: the calls made for the device record and
   * twin at line `i`, and the module count and device id the module loop
   * uses. When they raise, they are the whole rest of the replay.
   */
  method ReplayDevice(hubInfo: seq<Json>, i: nat) returns (header: Run<Event>, deviceId: Json, count: nat)
    requires i < |hubInfo|
    ensures header.error.Some? ==> header == UploadFrom(hubInfo, i)
    ensures header.error.None? ==> i + 2 <= |hubInfo|
    ensures header.error.None? ==> UploadFrom(hubInfo, i) == Then(header, AfterModules(hubInfo, i, deviceId, count, 0))
  {
    deviceId, count := JNull, 0;
    var numModules := Index(hubInfo[i], "numModules");
    if numModules.Failure? {
      return Raise(numModules.error), deviceId, count;
    }
    if i + 1 == |hubInfo| {
      return Raise(IndexError(i + 1)), deviceId, count;
    }
    var identity := hubInfo[i];
    var twin := hubInfo[i + 1];
    var created := DeviceCreate(identity);
    if created.Failure? {
      return Raise(created.error), deviceId, count;
    }
    deviceId := Index(identity, "deviceId").value;
    var counted := ModuleCount(numModules.value);
    if counted.Failure? {
      return Run([created.value, ReplaceTwin(deviceId, twin)], Some(counted.error)), deviceId, count;
    }
    count := counted.value;
    header := Run([created.value, ReplaceTwin(deviceId, twin)], None);
  }

  /** The module loop of one block: `for j in range(numModules)`, each pair two lines further on. */
  method ReplayModules(hubInfo: seq<Json>, i: nat, deviceId: Json, count: nat) returns (modules: Run<Event>)
    requires i + 2 <= |hubInfo|
    ensures modules == UploadModules(hubInfo, i, deviceId, count, 0)
  {
    var made: seq<Event> := [];
    ThenDone(UploadModules(hubInfo, i, deviceId, count, 0));
    for j := 0 to count
      invariant i + 2 + 2 * j <= |hubInfo|
      invariant Then(Run(made, None), UploadModules(hubInfo, i, deviceId, count, j)) == UploadModules(hubInfo, i, deviceId, count, 0)
    {
      var pair := ReplayModule(hubInfo, i, deviceId, count, j);
      if pair.error.Some? {
        StepRaised(made, pair, UploadModules(hubInfo, i, deviceId, count, 0));
        return Run(made + pair.events, pair.error);
      }
      StepDone(made, pair, UploadModules(hubInfo, i, deviceId, count, j + 1), UploadModules(hubInfo, i, deviceId, count, 0));
      made := made + pair.events;
    }
    ThenFinished(made);
    return Run(made, None);
  }

  /**
   * The body of the module loop: the calls made for module `j` of the
   * block at line `i`. When they raise, they are the whole rest of the
   * module loop.
   */
  method ReplayModule(hubInfo: seq<Json>, i: nat, deviceId: Json, count: nat, j: nat) returns (pair: Run<Event>)
    requires j < count && i + 2 + 2 * j <= |hubInfo|
    ensures pair.error.Some? ==> pair == UploadModules(hubInfo, i, deviceId, count, j)
    ensures pair.error.None? ==> i + 2 + 2 * (j + 1) <= |hubInfo|
    ensures pair.error.None? ==> UploadModules(hubInfo, i, deviceId, count, j) == Then(pair, UploadModules(hubInfo, i, deviceId, count, j + 1))
  {
    var k := i + 2 + 2 * j;
    if k == |hubInfo| {
      return Raise(IndexError(k));
    }
    if k + 1 == |hubInfo| {
      return Raise(IndexError(k + 1));
    }
    var moduleIdentity := hubInfo[k];
    var moduleTwin := hubInfo[k + 1];
    var created := ModuleCreate(moduleIdentity);
    if created.Failure? {
      UploadModulesRaises(hubInfo, i, deviceId, count, j, created.error);
      return Raise(created.error);
    }
    var moduleId := Index(moduleIdentity, "module_id").value;
    UploadModulesMakes(hubInfo, i, deviceId, count, j, created.value, moduleId, moduleTwin);
    pair := Run([created.value, ReplaceModuleTwin(deviceId, moduleId, moduleTwin)], None);
    PairThen(created.value, ReplaceModuleTwin(deviceId, moduleId, moduleTwin), UploadModules(hubInfo, i, deviceId, count, j + 1));
  }

  /** Two calls, then the rest of the run. */
  lemma PairThen<E>(a: E, b: E, rest: Run<E>)
    ensures Then(Run([a, b], None), rest) == Emit(a, Emit(b, rest))
  {
    assert [a, b] + rest.events == [a] + ([b] + rest.events);
  }

  /** The replay of one module pair whose create raises. */
  lemma UploadModulesRaises(hubInfo: seq<Json>, p: nat, deviceId: Json, count: nat, j: nat, e: PyError)
    requires j < count && p + 4 + 2 * j <= |hubInfo|
    requires ModuleCreate(hubInfo[p + 2 + 2 * j]) == Failure(e)
    ensures UploadModules(hubInfo, p, deviceId, count, j) == Raise(e)
  {
  }

  /** The replay of one module pair whose create goes through: the module is made and its twin replaced before the next pair. */
  lemma UploadModulesMakes(hubInfo: seq<Json>, p: nat, deviceId: Json, count: nat, j: nat, created: Event, moduleId: Json, twin: Json)
    requires j < count && p + 4 + 2 * j <= |hubInfo|
    requires ModuleCreate(hubInfo[p + 2 + 2 * j]) == Success(created)
    requires Index(hubInfo[p + 2 + 2 * j], "module_id") == Success(moduleId) && hubInfo[p + 3 + 2 * j] == twin
    ensures UploadModules(hubInfo, p, deviceId, count, j) ==
      Emit(created, Emit(ReplaceModuleTwin(deviceId, moduleId, twin), UploadModules(hubInfo, p, deviceId, count, j + 1)))
  {
  }

  // ---------------------------------------------------------------------------
  // What the replay promises.

  lemma {:induction false} UploadModulesNoDeletion(hubInfo: seq<Json>, i: nat, deviceId: Json, count: nat, j: nat)
    requires j <= count && i + 2 + 2 * j <= |hubInfo|
    ensures NoDeletion(UploadModules(hubInfo, i, deviceId, count, j).events)
    decreases count - j
  {
    var k := i + 2 + 2 * j;
    if j < count && k + 1 < |hubInfo| && ModuleCreate(hubInfo[k]).Success? {
      var created := ModuleCreate(hubInfo[k]).value;
      ModuleCreateDispatch(hubInfo[k]);
      UploadModulesNoDeletion(hubInfo, i, deviceId, count, j + 1);
      var replaced := ReplaceModuleTwin(deviceId, Index(hubInfo[k], "module_id").value, hubInfo[k + 1]);
      EmitNoDeletion(replaced, UploadModules(hubInfo, i, deviceId, count, j + 1));
      EmitNoDeletion(created, Emit(replaced, UploadModules(hubInfo, i, deviceId, count, j + 1)));
    }
  }

  /** Replaying device blocks deletes nothing. */
  lemma {:induction false} UploadFromNoDeletion(hubInfo: seq<Json>, i: nat)
    requires i <= |hubInfo|
    ensures NoDeletion(UploadFrom(hubInfo, i).events)
    decreases |hubInfo| - i, 1
  {
    if i < |hubInfo| && Index(hubInfo[i], "numModules").Success? && i + 1 < |hubInfo| && DeviceCreate(hubInfo[i]).Success? {
      var created := DeviceCreate(hubInfo[i]).value;
      DeviceCreateDispatch(hubInfo[i]);
      var deviceId := Index(hubInfo[i], "deviceId").value;
      var count := ModuleCount(Index(hubInfo[i], "numModules").value);
      var rest := if count.Failure? then Raise(count.error) else AfterModules(hubInfo, i, deviceId, count.value, 0);
      if count.Success? {
        AfterModulesNoDeletion(hubInfo, i, deviceId, count.value);
      }
      EmitNoDeletion(ReplaceTwin(deviceId, hubInfo[i + 1]), rest);
      EmitNoDeletion(created, Emit(ReplaceTwin(deviceId, hubInfo[i + 1]), rest));
    }
  }

  /** A block's modules, and the blocks after it, delete nothing. */
  lemma {:induction false} AfterModulesNoDeletion(hubInfo: seq<Json>, i: nat, deviceId: Json, count: nat)
    requires i + 2 <= |hubInfo|
    ensures NoDeletion(AfterModules(hubInfo, i, deviceId, count, 0).events)
    decreases |hubInfo| - i, 0
  {
    UploadModulesNoDeletion(hubInfo, i, deviceId, count, 0);
    AfterModulesStart(hubInfo, i, deviceId, count);
    var modules := UploadModules(hubInfo, i, deviceId, count, 0);
    if modules.error.None? {
      var next := i + 2 + 2 * count;
      UploadFromNoDeletion(hubInfo, next);
      ModulesThenNoDeletion(modules, UploadFrom(hubInfo, next), AfterModules(hubInfo, i, deviceId, count, 0));
    }
  }

  lemma ModulesThenNoDeletion(modules: Run<Event>, next: Run<Event>, after: Run<Event>)
    requires NoDeletion(modules.events) && NoDeletion(next.events) && after == Then(modules, next)
    ensures NoDeletion(after.events)
  {
    ThenNoDeletion(modules, next);
  }

  /**
   * With `overwrite`, the target is cleared first: the replay starts with
   * the deletions, a failed deletion ends it before anything is created,
   * and no delete call comes later.
   */
  lemma UploadClearsFirst(overwrite: bool, existingConfigs: seq<Json>, existingDevices: seq<Json>, hubInfo: seq<Json>)
    ensures var run := Upload(overwrite, existingConfigs, existingDevices, hubInfo);
      var cleared := Overwrite(overwrite, existingConfigs, existingDevices);
      && |cleared.events| <= |run.events| && run.events[..|cleared.events|] == cleared.events
      && (cleared.error.Some? ==> run == cleared)
      && (forall i | |cleared.events| <= i < |run.events| :: !IsDeletion(run.events[i]))
  {
    var rest := if hubInfo == [] then Raise(IndexError(0)) else Then(ConfigsFrom(hubInfo[0]), UploadFrom(hubInfo, 1));
    if hubInfo != [] {
      if hubInfo[0].JArr? {
        CreateConfigsNoDeletion(hubInfo[0].items);
      }
      UploadFromNoDeletion(hubInfo, 1);
      ThenNoDeletion(ConfigsFrom(hubInfo[0]), UploadFrom(hubInfo, 1));
    }
    DeletesFirst(Overwrite(overwrite, existingConfigs, existingDevices), rest);
  }
}

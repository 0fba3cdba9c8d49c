# Azure IoT CLI extension: verified model of its sequential core

This project models, in Dafny, five parts of the Azure IoT command-line extension that can be stated and checked on their own. It also proves what each part promises.

- **IoT Hub state export, import and migration** (`azext_iot/iothub/providers/state.py`).
  - `save_state` writes a file of JSON lines. First comes the configuration list. Then, for each device, comes its identity record annotated with `numModules`, then its twin. Then, for each module other than `$edgeAgent` and `$edgeHub`, comes the module record with its credentials merged, then the module twin.
  - `upload_state` replays such a file on a target hub. It uses a cursor that moves by `2 + 2 * numModules` lines per device.
  - `migrate_devices` copies an origin hub straight into the target.
  - `upload_device_identity` and `upload_module_identity` dispatch on the authentication type.
  - With `overwrite`, `delete_all_configs` and `delete_all_devices` clear the target first.
  - A run of one of these operations is the sequence of service calls it makes on the target, followed by the exception that stopped it, if any.
  - The central result is the round trip: importing the file that an export wrote makes exactly the calls that migrating from the same hub makes.
- **Digital Twins model dependencies and bulk deletion** (`azext_iot/digitaltwins/providers/model.py`).
  - `get_model_dependencies` collects the DTMIs a DTDL v2 model names in Component schemas and in `extends`.
  - `delete_all` builds the dict of referencers and drains it depth first, deleting referencers before the models they reference.
  - `add` chooses a payload, `_process_directory` filters model files, and `update` builds a JSON patch.
- **Digital Twins resource provider** (`azext_iot/digitaltwins/providers/resource.py`).
  - `find_instance` looks up an instance by name, ignoring case.
  - `get_rg` and the subscription lookup split an instance id at `/`.
  - It also covers the argument checks of `add_endpoint`, the identity and role check of `create` with its `rbac_handler`, and the defaults of `create_adx_data_connection`.
- **IoT Central device record** (`azext_iot/central/models/preview/device.py`). Covers the `or` fallbacks of the constructor, the four-way status classification, and the five-key registration info.
- **IoT Central role listing** (`azext_iot/central/services/role.py`). Covers the request URLs and the paging loop of `list_roles`.

## How the system is represented

- **JSON values** (`Json`) are what `json.loads` or `vars(obj)` yields: None, booleans, integers, strings, lists and dicts. Python's truthiness is `Truthy`.
- **Python exceptions** are `PyError` values: `KeyError`, `TypeError`, `IndexError` and `AttributeError`.
- **Service calls and file I/O** become parameters. The origin hub is the `SourceHub` its listing and show calls return. The exported file is the sequence of its parsed lines. The HTTP page source of `list_roles` is a sequence of response bodies. A delete or `add` that fails is given as the set of failing ids or the returned status.
- **Loops and mutation.** Where the Python loops or mutates, the model is imperative:
  - `SaveState`, `UploadState`, `ReplayDevices`, `MigrateDevices`, `DeleteAllConfigs`, `ListRoles`, `FindInstance`, `RbacHandler`, `ProcessDirectory` and `BuildGraph` are methods with loops.
  - The `parsed_models` dict of `delete_all` is a field of the class `BulkDelete`. Its `DeleteParents` method removes keys and recurses. The loop inside `delete_parents` is the method `DeleteReferencers`.
  
  The loops of `SaveState`, `UploadState`, `ReplayDevices`, `MigrateDevices`, `DeleteAllConfigs`, `ListRoles`, `FindInstance`, `ProcessDirectory` and `BuildGraph` are proved equal to a specification function, and the properties are proved about those functions. `RbacHandler` and the methods of `BulkDelete` state their properties directly in their contracts: the assignments made, and the invariant on the dict and the delete log.
- **Termination of `delete_all`.** The build loop (model.py:161-166) finishes on every listing. It raises KeyError or TypeError on a dangling or malformed reference, cyclic or not, and the model states that case for every listing. When the dict is built, the drain terminates only on an acyclic reference graph. On a self-reference or a cycle, `delete_parents` keeps calling itself, as `SelfReferenceIsUnranked` shows, until CPython's recursion limit raises `RecursionError`. That error leaves `delete_all`, because the `try` at model.py:180-183 wraps only the `delete` call. Acyclicity is therefore a precondition only for listings whose dict can be built. It is witnessed by a ghost rank.
- **Where the code is followed over the documentation.**
  - **The status reason.** `upload_device_identity` reads `statusReason` only when the record has a key literally named `status_reason` (state.py:119-122). Exported records never have that key, so the status reason is always `None`.
  - **`numModules`.** For an edge device it is the listed count minus 2, whether or not both system modules are listed (state.py:67-70).

## Model

| member | source | states |
|---|---|---|
| StateRecords.NumModules | azext_iot/iothub/providers/state.py:67-70 | The `numModules` written for a device: the listed module count, minus 2 for an edge device. |
| StateRecords.CreateConfigs | azext_iot/iothub/providers/state.py:199-202 | The configuration loop of import and migration: one create per configuration, stopping at the first malformed one. Its meaning is `CreateConfigsInOrder`. |
| StateRecords.DeleteConfigs | azext_iot/iothub/providers/state.py:171-174 | `delete_all_configs`: one delete per listed configuration, stopping at one without `id`. Its meaning is `DeleteConfigsDeletesEach`. |
| StateRecords.DeleteDevices | azext_iot/iothub/providers/state.py:176-179 | `delete_all_devices`: one delete per listed device, stopping at one without `deviceId`. Its meaning is `DeleteDevicesDeletesEach`. |
| StateRecords.Overwrite | azext_iot/iothub/providers/state.py:186-188 | The `if overwrite:` block: the configuration deletes, then the device deletes. Its meaning is `OverwriteOnlyDeletes`. |
| StateRecords.MergeDeviceKey | azext_iot/iothub/providers/state.py:73-75 | Succeeds exactly when the record has an authentication type and, for `sas`, the show call has `authentication.symmetricKey`. That key is added only for `sas`. Any other record is unchanged. |
| StateRecords.MergeModuleCredentials | azext_iot/iothub/providers/state.py:95-102 | A merged module record keeps every key it had, and the twin has an authentication type. |
| StateRecords.MergeModuleCredentialsFields | azext_iot/iothub/providers/state.py:95-102 | The merged record's type is the twin's. `sas` adds exactly the show call's symmetric key, `selfSigned` exactly its thumbprints, and other types add nothing. |
| StateRecords.MergeKeepsOtherFields | azext_iot/iothub/providers/state.py:95-102 | Every field other than `authenticationType`, `symmetricKey` and `x509Thumbprint` keeps its value. |
| StateRecords.DeviceCreate | azext_iot/iothub/providers/state.py:111-141 | A record that creates is a dict with `deviceId`, `authenticationType`, `capabilities`, `status` and `x509Thumbprint`. These, the thumbprints included, are read whatever the type. |
| StateRecords.DeviceCreateDispatch | azext_iot/iothub/providers/state.py:111-141 | The created device has shared keys iff the type is `sas`, thumbprints iff `selfSigned`, and CA signing iff `certificateAuthority`. Any other type only logs. The keys are the record's `symmetricKey.primaryKey` and `secondaryKey`, in that order. The thumbprints are its `x509Thumbprint.primaryThumbprint` and `secondaryThumbprint`. The edge flag is `capabilities.iotEdge` and the status is `status`. The status reason is None unless a `status_reason` key exists, and then it is `statusReason`. The id is the record's. |
| StateRecords.ModuleCreate | azext_iot/iothub/providers/state.py:143-168 | A record that creates is a dict with `device_id`, `module_id` and `authenticationType`. |
| StateRecords.ModuleCreateDispatch | azext_iot/iothub/providers/state.py:143-168 | Keys iff `sas`, thumbprints iff `selfSigned`, CA iff `certificateAuthority`, else only a log. The keys and thumbprints are the record's own primary and secondary values, each in its place. The device and module ids are the record's. |
| StateRecords.DeviceCreateReadsOnlyItsKeys | azext_iot/iothub/providers/state.py:111-141 | Two records that agree on the keys the device create reads create the same device, or raise the same error. |
| StateRecords.ModuleCreateReadsOnlyItsKeys | azext_iot/iothub/providers/state.py:143-168 | The same for the module create. |
| StateRecords.UnknownDeviceAuthOnlyLogged | azext_iot/iothub/providers/state.py:140-141 | An unrecognised authentication type creates nothing and only logs. |
| StateRecords.ConfigCreate | azext_iot/iothub/providers/state.py:199-202 | Succeeds iff the configuration is a dict with `id`, `content`, `targetCondition`, `priority`, `labels` and `metrics`. It passes exactly those values. |
| StateRecords.CreateConfigsInOrder | azext_iot/iothub/providers/state.py:199-202 | Well-formed configurations are all created, one call each, in listing order. |
| StateRecords.DeleteAllConfigs | azext_iot/iothub/providers/state.py:171-174 | The loop makes exactly the calls of `DeleteConfigs`: one delete per listed configuration, in order, stopping at a configuration without `id`. |
| StateRecords.DeleteAllDevices | azext_iot/iothub/providers/state.py:176-179 | The loop makes exactly the calls of `DeleteDevices`. |
| StateRecords.DeleteConfigsDeletesEach | azext_iot/iothub/providers/state.py:171-174 | When every listed configuration has an `id`, each is deleted once, in listing order, and nothing raises. |
| StateRecords.DeleteDevicesDeletesEach | azext_iot/iothub/providers/state.py:176-179 | When every listed device has a `deviceId`, each is deleted once, in listing order, and nothing raises. |
| StateRecords.DeleteConfigsOnlyDeletes | azext_iot/iothub/providers/state.py:171-174 | `delete_all_configs` makes only configuration deletes. |
| StateRecords.DeleteDevicesOnlyDeletes | azext_iot/iothub/providers/state.py:176-179 | `delete_all_devices` makes only device deletes. |
| StateRecords.OverwriteOnlyDeletes | azext_iot/iothub/providers/state.py:186-188 | Without `overwrite`, no call. With it, only deletes: every configuration delete comes before every device delete, and a failed configuration delete means no device is deleted. |
| StateRecords.CreateConfigsNoDeletion | azext_iot/iothub/providers/state.py:199-202 | Creating configurations deletes nothing. |
| StateRecords.NoDeletionAt | azext_iot/iothub/providers/state.py:186-188 | "No delete call" holds of a call list iff no element is a delete. |
| StateRecords.NoDeletionConcat | azext_iot/iothub/providers/state.py:186-188 | A concatenation of call lists has no delete iff neither part has one. |
| StateRecords.DeletesFirst | azext_iot/iothub/providers/state.py:186-188 | Clearing followed by calls without deletes: the run starts with the deletions, a failed deletion ends it, and no delete comes later. |
| StateRecords.ClearTarget | azext_iot/iothub/providers/state.py:186-188 | The `if overwrite:` block makes exactly the calls of `Overwrite`. |
| StateRecords.CreateAllConfigs | azext_iot/iothub/providers/state.py:199-202 | The configuration loop makes exactly the calls of `CreateConfigs`. |
| StateRecords.NonSystemCount | azext_iot/iothub/providers/state.py:84-87 | The number of non-system modules never exceeds the number listed. |
| StateExport.Export | azext_iot/iothub/providers/state.py:56-107 | The lines `save_state` writes: the configuration list, then each device's lines, with the exception that stopped it. `ExportLineCount` and `ExportDeviceLayout` state their layout. |
| StateExport.ExportDevices | azext_iot/iothub/providers/state.py:61-107 | The lines of the device loop. |
| StateExport.ExportDevice | azext_iot/iothub/providers/state.py:62-107 | One device's record, twin and module lines. |
| StateExport.ExportModules | azext_iot/iothub/providers/state.py:84-107 | The lines of one device's module loop. `ExportModulesLayout` states their layout. |
| StateExport.ExportModule | azext_iot/iothub/providers/state.py:84-107 | One listed module writes no line or two. |
| StateExport.ExportModuleLines | azext_iot/iothub/providers/state.py:84-107 | A module without `module_id` raises. A system module writes nothing. Any other module writes its record, then its twin. The record keeps its id, has none of the popped keys, and carries the twin's authentication type. A module with the popped keys whose credentials merge is always written. |
| StateExport.ExportModuleSkipsSystem | azext_iot/iothub/providers/state.py:87 | A module that exports writes nothing exactly when it is `$edgeAgent` or `$edgeHub`. |
| StateExport.DeviceRecord | azext_iot/iothub/providers/state.py:64-75 | Succeeds iff the identity has `deviceId`, the edge flag, and a mergeable key. The record has `numModules` = listed modules minus 2 for an edge device, and exactly the merged record's keys plus `numModules`. |
| StateExport.DeviceRecordAddsOnlyCount | azext_iot/iothub/providers/state.py:67-75 | Apart from `numModules`, the written record is the listed record with its key merged. |
| StateExport.SaveState | azext_iot/iothub/providers/state.py:47-109 | The export loop writes exactly the lines of `Export`: the configuration list, then each device's lines, stopping at the first exception with the lines already written. |
| StateExport.ExportModulesLayout | azext_iot/iothub/providers/state.py:84-107 | A device's module lines are two per non-system module. Each even line is a non-system module record immediately followed by a twin with the same authentication type. |
| StateExport.ExportDeviceLayout | azext_iot/iothub/providers/state.py:67-82 | A device is written as its record, carrying its `numModules` and id, immediately followed by its twin, then its module lines. |
| StateExport.ExportLineCount | azext_iot/iothub/providers/state.py:58-59 | The configuration list is always the first line. A completed export writes one line for it, two per device and two per non-system module. |
| StateExport.ExportDevicesLineCount | azext_iot/iothub/providers/state.py:61-107 | The device lines number two per device plus two per non-system module. |
| StateImport.Upload | azext_iot/iothub/providers/state.py:181-239 | The calls `upload_state` makes: optional clearing, the configurations of line 0, then the device blocks from line 1. |
| StateImport.ConfigsFrom | azext_iot/iothub/providers/state.py:197-202 | Line 0 as the configuration list: the creates of its elements, or TypeError for a non-list. |
| StateImport.UploadFrom | azext_iot/iothub/providers/state.py:204-235 | The cursor loop from line `i`: one device block, then the blocks from the next cursor. |
| StateImport.AfterModules | azext_iot/iothub/providers/state.py:223-235 | A block's module pairs, then the blocks after it. `AfterModulesStart` gives the next cursor. |
| StateImport.RangeCount | azext_iot/iothub/providers/state.py:223 | `range` accepts integers and booleans, and raises TypeError on anything else. |
| StateImport.ModuleCount | azext_iot/iothub/providers/state.py:223 | The loop runs `numModules` times, or not at all for a negative count. |
| StateImport.UploadModules | azext_iot/iothub/providers/state.py:223-232 | When all the module pairs of a block go through, the block ends within the file. |
| StateImport.UploadState | azext_iot/iothub/providers/state.py:181-239 | `upload_state` makes exactly the calls of `Upload`: optional clearing, the configurations of line 0, then the device blocks from line 1. A missing line raises IndexError with its number, a non-list line 0 raises TypeError. |
| StateImport.ReplayDevices | azext_iot/iothub/providers/state.py:204-235 | The cursor loop from line 1 makes exactly the calls of `UploadFrom(hubInfo, 1)`. |
| StateImport.ReplayDevice | azext_iot/iothub/providers/state.py:212-219 | The device part of a block: its calls, module count and id. When it raises, it is the rest of the replay. Otherwise the block's twin line exists and the replay goes on with its modules. |
| StateImport.ReplayModules | azext_iot/iothub/providers/state.py:223-232 | The module loop of a block makes exactly the calls of `UploadModules` from pair 0. |
| StateImport.ReplayModule | azext_iot/iothub/providers/state.py:224-232 | Module `j` of the block at line `i` is read at `i + 2 + 2j` and its twin on the next line. When it raises, it ends the loop. |
| StateImport.AfterModulesStart | azext_iot/iothub/providers/state.py:223-235 | A block's module loop that raises ends the replay. Otherwise the cursor moves to `i + 2 + 2 * numModules`, within the file. |
| StateImport.UploadModulesNoDeletion | azext_iot/iothub/providers/state.py:223-232 | Replaying module pairs deletes nothing. |
| StateImport.UploadFromNoDeletion | azext_iot/iothub/providers/state.py:208-235 | Replaying device blocks deletes nothing. |
| StateImport.AfterModulesNoDeletion | azext_iot/iothub/providers/state.py:223-235 | A block's modules and the blocks after it delete nothing. |
| StateImport.UploadClearsFirst | azext_iot/iothub/providers/state.py:186-188 | With `overwrite`, the import starts with the deletions, a failed deletion ends it before anything is read or created, and no delete comes later. |
| StateMigrate.Migrate | azext_iot/iothub/providers/state.py:241-303 | The calls `migrate_devices` makes: optional clearing, the origin's configurations, then its devices and their modules. |
| StateMigrate.MigrateDeviceList | azext_iot/iothub/providers/state.py:264-301 | The calls of the device loop. |
| StateMigrate.MigrateDevice | azext_iot/iothub/providers/state.py:265-301 | One device: its create, its twin replace, then its modules. |
| StateMigrate.MigrateModules | azext_iot/iothub/providers/state.py:283-301 | The calls of one device's module loop. |
| StateMigrate.MigrateModule | azext_iot/iothub/providers/state.py:284-301 | One module: nothing for a system module, otherwise its create and its twin replace. |
| StateMigrate.MigrateDevices | azext_iot/iothub/providers/state.py:241-303 | `migrate_devices` makes exactly the calls of `Migrate`: optional clearing, the configurations, then each device and its modules. |
| StateMigrate.MigrateAllDevices | azext_iot/iothub/providers/state.py:264-301 | The device loop makes exactly the calls of the device list's migration. |
| StateMigrate.MigrateOneDevice | azext_iot/iothub/providers/state.py:265-301 | One device: its type, then its id, are read; the key merges for `sas`; the device is created, its twin replaced, and its modules migrated. |
| StateMigrate.MigrateAllModules | azext_iot/iothub/providers/state.py:283-301 | The module loop makes exactly the calls of the module list's migration. |
| StateMigrate.MigrateOneModule | azext_iot/iothub/providers/state.py:284-301 | One module: skipped when it is a system module; otherwise its credentials are merged, then it is created and its twin replaced. |
| StateMigrate.MigrateModuleKeepsOut | azext_iot/iothub/providers/state.py:284-301 | One listed module's migration deletes nothing and never creates, or replaces the twin of, a system module. |
| StateMigrate.MigrateModulesKeepOut | azext_iot/iothub/providers/state.py:283-301 | The same for a device's module list. |
| StateMigrate.MigrateDeviceListKeepsOut | azext_iot/iothub/providers/state.py:264-301 | The same for the device list. |
| StateMigrate.CreateConfigsNoSystemModule | azext_iot/iothub/providers/state.py:256-259 | Creating configurations touches no module. |
| StateMigrate.MigrationClearsFirstAndSkipsSystemModules | azext_iot/iothub/providers/state.py:243-303 | The migration never touches a system module. With `overwrite`, it starts with the deletions, a failed deletion ends it, and no delete comes later. |
| StateRoundTrip.MergeKeepsAgreement | azext_iot/iothub/providers/state.py:95-102 | Module records that agree on the keys the module create reads still agree after the credential merge, and merge alike. |
| StateRoundTrip.ModuleRecordCreatesAlike | azext_iot/iothub/providers/state.py:89-104 | A written module record creates the same module, with the same id, as the listed record with its credentials merged. |
| StateRoundTrip.DeviceRecordCreatesAlike | azext_iot/iothub/providers/state.py:67-79 | A written device record creates the same device as the listed record with its key merged. It has the listed id. |
| StateRoundTrip.DeviceRecordFacts | azext_iot/iothub/providers/state.py:67-70 | A written record whose `numModules` counts its non-system modules reads back that count and the device id. |
| StateRoundTrip.ModulesRoundTrip | azext_iot/iothub/providers/state.py:84-107 | A device's written module pairs replay as the migration of its listed modules. |
| StateRoundTrip.DeviceBlockRoundTrip | azext_iot/iothub/providers/state.py:212-235 | One written device block replays as that device's migration, and the cursor lands on the next block. |
| StateRoundTrip.DevicesRoundTrip | azext_iot/iothub/providers/state.py:205-235 | The written device blocks from any line replay as the migration of the devices they came from. |
| StateRoundTrip.ExportThenImportIsMigration | azext_iot/iothub/providers/state.py:47-303 | When the export completes and every `numModules` counts the non-system modules, importing the file makes the same calls, in the same order and with the same outcome, as migrating. |
| DigitalTwinsModelDependencies.ContentsDependencies | azext_iot/digitaltwins/providers/model.py:22-24 | The DTMIs from `contents`, or the exception a non-iterable `contents` raises. |
| DigitalTwinsModelDependencies.EntriesDependencies | azext_iot/digitaltwins/providers/model.py:22-24 | The DTMIs of the Component entries of a `contents` list. Its meaning is `EntriesDependenciesMeaning`. |
| DigitalTwinsModelDependencies.ItemDependencies | azext_iot/digitaltwins/providers/model.py:26-48 | The DTMIs of one gathered item: a string, an embedded model, or a list. |
| DigitalTwinsModelDependencies.ListDependencies | azext_iot/digitaltwins/providers/model.py:40-48 | The DTMIs of a list item. Its meaning is `ListDependenciesMeaning`. |
| DigitalTwinsModelDependencies.ModelDependencies | azext_iot/digitaltwins/providers/model.py:17-50 | A model with neither `contents` nor `extends` has no dependencies. An `extends` string is always a dependency. |
| DigitalTwinsModelDependencies.ModelDependenciesMeaning | azext_iot/digitaltwins/providers/model.py:22-48 | A DTMI is a dependency iff it comes from the schema of a Component entry of `contents`, or from `extends`. |
| DigitalTwinsModelDependencies.EntriesDependenciesMeaning | azext_iot/digitaltwins/providers/model.py:22-24 | `contents` walks without error iff every entry is a dict with `@type`, and every Component has a walkable `schema`. Its DTMIs are exactly those of the Component schemas. |
| DigitalTwinsModelDependencies.ListDependenciesMeaning | azext_iot/digitaltwins/providers/model.py:40-48 | A list contributes exactly what its string and dict elements contribute. |
| DigitalTwinsModelDependencies.ExtendsStringsIncluded | azext_iot/digitaltwins/providers/model.py:26-27 | A string given as `extends`, or inside an `extends` list, is a dependency. |
| DigitalTwinsModelDependencies.ComponentSchemaIncluded | azext_iot/digitaltwins/providers/model.py:22-24 | A Component entry's schema DTMIs are dependencies. |
| DigitalTwinsModelDependencies.NonComponentEntryIgnored | azext_iot/digitaltwins/providers/model.py:23 | Appending a non-Component entry to `contents` leaves the dependencies unchanged. |
| DigitalTwinsModelDependencies.EmbeddedModelContributesItsDependencies | azext_iot/digitaltwins/providers/model.py:37-39 | An embedded model as `extends` contributes exactly its own dependencies, and not its `@id`. The walk succeeds iff `contents` and the embedded model both walk, and the result is their union. |
| DigitalTwinsModelDependencies.OtherListElementsIgnored | azext_iot/digitaltwins/providers/model.py:40-48 | List elements that are neither strings nor dicts contribute nothing. |
| DigitalTwinsModelDependencies.EmbeddedListElementContributes | azext_iot/digitaltwins/providers/model.py:40-48 | An embedded model anywhere in a list walks whenever the list does, and all its DTMIs are the list's. |
| DigitalTwinsModelDependencies.EmbeddedIdNotReported | azext_iot/digitaltwins/providers/model.py:37-48 | For a concrete model, the embedded `@id` is absent from the result and the embedded model's `extends` is present. |
| DigitalTwinsModelDeletion.ExpectedGraph | azext_iot/digitaltwins/providers/model.py:161-166 | The dict the build loop should produce: each listed id to the ids of the models referencing it. `BuildGraph` is proved to produce it. |
| DigitalTwinsModelDeletion.AddReferencer | azext_iot/digitaltwins/providers/model.py:165-166 | Succeeds iff every dependency is a key, and then adds the referencer to exactly those entries. |
| DigitalTwinsModelDeletion.AddModel | azext_iot/digitaltwins/providers/model.py:162-166 | One model's step succeeds iff its definition walks and names only listed models. Each entry then holds the referencers among the models seen so far. |
| DigitalTwinsModelDeletion.BuildGraph | azext_iot/digitaltwins/providers/model.py:161-166 | Building the dict succeeds iff every definition walks and names only listed ids. The dict then maps each listed id to exactly the ids of the models referencing it. |
| DigitalTwinsModelDeletion.GraphComplete | azext_iot/digitaltwins/providers/model.py:161-166 | After the last model, the dict is the one the references determine. |
| DigitalTwinsModelDeletion.ExpectedGraphRanked | azext_iot/digitaltwins/providers/model.py:174-176 | An acyclicity rank on the models is one on the dict: every referencer ranks below what it references. |
| DigitalTwinsModelDeletion.SelfReferenceIsUnranked | azext_iot/digitaltwins/providers/model.py:174-176 | A self-referencing model admits no rank, so the recursion has no bound there. |
| DigitalTwinsModelDeletion.BulkDelete.DeleteParents | azext_iot/digitaltwins/providers/model.py:168-183 | An id already gone is a no-op. Otherwise exactly the keys that are `id` or one of its transitive referencers (`Up(id)`) leave the dict, and no others. Every id it removed ranks no higher. The delete log only grows, without duplicates, with referencers first. |
| DigitalTwinsModelDeletion.BulkDelete.DeleteReferencers | azext_iot/digitaltwins/providers/model.py:174-176 | After the loop over `id`'s referencers, none of them is left in the dict, and `id` still is. Exactly the keys above some referencer have left. |
| DigitalTwinsModelDeletion.BulkDelete.Retire | azext_iot/digitaltwins/providers/model.py:179-183 | `id`, whose referencers are gone, leaves the dict and is appended to the delete log. A failing delete is logged as a warning. |
| DigitalTwinsModelDeletion.BulkDelete.Drain | azext_iot/digitaltwins/providers/model.py:185-187 | The outer loop ends with the dict empty and the invariant kept. |
| DigitalTwinsModelDeletion.DeleteAll | azext_iot/digitaltwins/providers/model.py:148-187 | For every listing, cyclic or not, it raises before any delete iff the dict cannot be built. Otherwise every listed id is passed to `delete` exactly once, after every model referencing it, and exactly the failing deletes are warned. |
| DigitalTwinsModelProvider.ModelFiles | azext_iot/digitaltwins/providers/model.py:93-105 | The payload of a directory scan: the content of its `.json` and `.dtdl` files, in order. `ModelFilesMembership` states its meaning. |
| DigitalTwinsModelProvider.ProcessDirectory | azext_iot/digitaltwins/providers/model.py:88-106 | The payload is the content of the `.json` and `.dtdl` entries, in scan order. |
| DigitalTwinsModelProvider.ModelFilesConcat | azext_iot/digitaltwins/providers/model.py:93-105 | The filter distributes over concatenated scans. |
| DigitalTwinsModelProvider.ModelFilesOfOne | azext_iot/digitaltwins/providers/model.py:94-104 | A skipped file contributes nothing, a kept file exactly its content. |
| DigitalTwinsModelProvider.ModelFilesMembership | azext_iot/digitaltwins/providers/model.py:93-105 | A value is in the payload iff it is the content of some model file of the scan. |
| DigitalTwinsModelProvider.ModelFilesBounded | azext_iot/digitaltwins/providers/model.py:93-105 | The payload is never longer than the scan. |
| DigitalTwinsModelProvider.AddPayload | azext_iot/digitaltwins/providers/model.py:61-75 | Fails iff neither argument is given. With `models`, a list is sent as is, a dict as a one-element list, and anything else as empty. Otherwise the directory's model files are sent. |
| DigitalTwinsModelProvider.ModelsWin | azext_iot/digitaltwins/providers/model.py:64-75 | With `models` given, the directory plays no part. |
| DigitalTwinsModelProvider.AddCallError | azext_iot/digitaltwins/providers/model.py:82-86 | A 403 becomes the forbidden error, and every other status the generic service error. |
| DigitalTwinsModelProvider.Add | azext_iot/digitaltwins/providers/model.py:60-86 | A missing argument fails before any call. Success iff the payload is built and the call succeeds, and then the payload is what was sent. A 403 becomes the forbidden error. |
| DigitalTwinsModelProvider.UpdatePatch | azext_iot/digitaltwins/providers/model.py:130-132 | The patch is one operation, a JSON object. |
| DigitalTwinsModelProvider.UpdatePatchSetsFlag | azext_iot/digitaltwins/providers/model.py:130-132 | Applied as an RFC 6902 replace to a model with `decommissioned`, the patch sets that flag and changes nothing else. |
| DigitalTwinsModelProvider.TopLevelMember | azext_iot/digitaltwins/providers/model.py:131 | A single-token RFC 6901 path names the member after its `/`. |
| DigitalTwinsModelProvider.Update | azext_iot/digitaltwins/providers/model.py:129-140 | The patch call comes first. Exactly when it succeeds, a `get` of the same model follows. |
| DigitalTwinsResource.Matching | azext_iot/digitaltwins/providers/resource.py:161-166 | The listed instances whose name equals the wanted one ignoring case. Its meaning is `MatchingMembership`. |
| DigitalTwinsResource.GetRg | azext_iot/digitaltwins/providers/resource.py:180-184 | `get_rg`: segment 4 of the instance id split at `/`, or IndexError. `InstanceIdSegments` states it on an instance id. |
| DigitalTwinsResource.Subscription | azext_iot/digitaltwins/providers/resource.py:514 | Segment 2 of the instance id split at `/`, or IndexError. |
| DigitalTwinsResource.Lower | azext_iot/digitaltwins/providers/resource.py:161-165 | Lower-casing keeps the length and maps each character. |
| DigitalTwinsResource.LowerIdempotent | azext_iot/digitaltwins/providers/resource.py:161-165 | Lower-casing twice is lower-casing once. |
| DigitalTwinsResource.Discover | azext_iot/digitaltwins/providers/resource.py:161-178 | Exactly one case-insensitive match is returned. Several raise the ambiguity error, none raises not-found. |
| DigitalTwinsResource.FindInstance | azext_iot/digitaltwins/providers/resource.py:147-178 | With a resource group, a direct get and no page read. Without one, every page is read and `Discover` decides. |
| DigitalTwinsResource.MatchingMembership | azext_iot/digitaltwins/providers/resource.py:162-166 | An instance matches iff it is listed and its name equals the wanted one ignoring case. |
| DigitalTwinsResource.MatchingIgnoresCase | azext_iot/digitaltwins/providers/resource.py:161 | The case of the wanted name does not matter. |
| DigitalTwinsResource.CaseVariantsAreAmbiguous | azext_iot/digitaltwins/providers/resource.py:168-172 | Two listed names that differ only in case make the lookup ambiguous. |
| DigitalTwinsResource.Split | azext_iot/digitaltwins/providers/resource.py:182 | `split("/")` gives at least one piece, and no piece contains `/`. |
| DigitalTwinsResource.JoinSplit | azext_iot/digitaltwins/providers/resource.py:182 | Joining the pieces with `/` gives the id back. |
| DigitalTwinsResource.SplitJoin | azext_iot/digitaltwins/providers/resource.py:182 | Splitting a join of separator-free pieces gives the pieces back. |
| DigitalTwinsResource.Segment | azext_iot/digitaltwins/providers/resource.py:182-183 | Indexing segment `k` raises IndexError iff there are at most `k` segments. |
| DigitalTwinsResource.InstanceIdSegments | azext_iot/digitaltwins/providers/resource.py:180-184 | On an instance id, `get_rg` gives the resource group and index 2 gives the subscription. |
| DigitalTwinsResource.ShortIdHasNoResourceGroup | azext_iot/digitaltwins/providers/resource.py:183 | An id with fewer than five segments makes `get_rg` raise. |
| DigitalTwinsResource.CheckEndpointArgs | azext_iot/digitaltwins/providers/resource.py:305-335 | Passes iff the arguments are accepted. Namespace missing iff an Event Hubs or Service Bus type has none. Policy missing iff such a type with a namespace is KeyBased without one. |
| DigitalTwinsResource.CheckDeadLetter | azext_iot/digitaltwins/providers/resource.py:327-335 | A dead-letter URI with KeyBased auth, or a dead-letter secret with IdentityBased auth, is refused, each with its own error. |
| DigitalTwinsResource.OtherTypesIgnoreNamespace | azext_iot/digitaltwins/providers/resource.py:309 | Other endpoint types ignore the namespace and the policy. |
| DigitalTwinsResource.IdentityBasedNeedsNoPolicy | azext_iot/digitaltwins/providers/resource.py:317-320 | Identity-based endpoints never need a policy. |
| DigitalTwinsResource.CreateRequestFor | azext_iot/digitaltwins/providers/resource.py:55-77 | Raises iff the identity is assigned with scopes and no role. The identity type is `SystemAssigned` iff assigned, else `None`. The location falls back to the group's. |
| DigitalTwinsResource.RbacHandler | azext_iot/digitaltwins/providers/resource.py:92-115 | Raises iff the identity or its type has the wrong shape. When a principal, scopes and a type lower-casing to `systemassigned` are present, one assignment per scope, in order. Otherwise none. |
| DigitalTwinsResource.UnassignedIdentityGetsNoRoles | azext_iot/digitaltwins/providers/resource.py:75-104 | An instance created without an identity gets no role. |
| DigitalTwinsResource.AssignedIdentityGetsRoles | azext_iot/digitaltwins/providers/resource.py:66-104 | An instance created with its identity, reporting a principal, gets roles, and the role is non-empty. |
| DigitalTwinsResource.AdxSettingsFor | azext_iot/digitaltwins/providers/resource.py:509-524 | A lookup failure comes first. Then a name of length at most 2 is rejected. Each ADX and Event Hub resource group and subscription defaults to the instance's own. |
| DigitalTwinsResource.AdxDefaultsToInstance | azext_iot/digitaltwins/providers/resource.py:512-524 | With no group or subscription given, the ADX and Event Hub resources default to the group and subscription named in the instance id. |
| DigitalTwinsResource.LookupCheckedFirst | azext_iot/digitaltwins/providers/resource.py:509-519 | A lookup failure wins over a short connection name. |
| CentralDevice.Or | azext_iot/central/models/preview/device.py:12 | `a or b` is truthy iff either is, and is `a` when `a` is truthy. |
| CentralDevice.ParseDeviceStatus | azext_iot/central/models/preview/device.py:21-31 | Exactly one status: blocked iff not approved, unassociated iff approved without a template, registered iff also not provisioned, else provisioned. |
| CentralDevice.ParseDevice | azext_iot/central/models/preview/device.py:11-19 | `enabled` falls back to `approved` and `template` to `instanceOf` when falsy. The other fields are `.get` of their keys. |
| CentralDevice.StatusFromDict | azext_iot/central/models/preview/device.py:12-26 | A device is blocked iff neither `enabled` nor `approved` is truthy, whatever else it holds. It is unassociated iff it is not blocked and neither `template` nor `instanceOf` is truthy. |
| CentralDevice.FalsyEnabledFallsBackToApproved | azext_iot/central/models/preview/device.py:12-23 | `enabled: false` with `approved: true` is not blocked. |
| CentralDevice.RegistrationInfo | azext_iot/central/models/preview/device.py:33-42 | Exactly five keys. |
| CentralDevice.RegistrationInfoRecoversDevice | azext_iot/central/models/preview/device.py:33-42 | The info gives back the parsed fields, and its status string reads back to the status. |
| CentralDevice.StatusValueRoundTrip | azext_iot/central/models/preview/device.py:35 | Each status's string reads back to that status. |
| CentralDevice.ApprovedWithTemplateRegisters | azext_iot/tests/central/test_iot_central_devices_int.py:524-527 | An enabled device with a template, not yet provisioned, reports `registered`. |
| CentralRoles.ListUrl | azext_iot/central/services/role.py:92 | The listing URL `https://{app_id}.{dns_suffix}/api/roles`. |
| CentralRoles.RoleUrl | azext_iot/central/services/role.py:50 | The URL of one role. `RoleUrlExtendsListUrl` relates the two. |
| CentralRoles.Pages | azext_iot/central/services/role.py:99-117 | The roles `list_roles` returns for a sequence of response bodies and a page cap. `PagesConcatenate` states its meaning. |
| CentralRoles.Requested | azext_iot/central/services/role.py:99-117 | The URLs `list_roles` requests. `RequestsCapped` and `UncappedFollowsLinksToTheEnd` state its meaning. |
| CentralRoles.RoleUrlExtendsListUrl | azext_iot/central/services/role.py:50-92 | A role's URL is the listing URL plus `/{role_id}`. The listing URL ends in `api/roles`. |
| CentralRoles.ListRoles | azext_iot/central/services/role.py:68-119 | The loop returns exactly `Pages` and requests exactly the URLs of `Requested`, from the listing URL. |
| CentralRoles.Prepend | azext_iot/central/services/role.py:112-114 | Prepending a page's roles keeps an error and extends a success. |
| CentralRoles.PagesConcatenate | azext_iot/central/services/role.py:112-114 | A successful listing is the in-order concatenation of the `value` lists of exactly the pages requested. |
| CentralRoles.RequestsCapped | azext_iot/central/services/role.py:99-117 | With a positive cap, at most `max_pages` requests are made. |
| CentralRoles.NegativeCapRequestsNothing | azext_iot/central/services/role.py:100 | A negative cap makes no request and returns nothing. |
| CentralRoles.UncappedFollowsLinksToTheEnd | azext_iot/central/services/role.py:100-116 | Without a cap, each request follows the previous page's `nextLink`, and the last page has none. |
| CentralRoles.FirstPageWithoutValueRaises | azext_iot/central/services/role.py:109-110 | A first page without `value` raises, whatever follows. |

## Left out

- HTTP and SDK calls, and `handle_service_exception`, are left out. Service outcomes are parameters, except for the calls on the target hub in state.py (next line).
- StateMigrate.MigrateDevices and StateImport.UploadState assume every call on the target hub succeeds: configuration and device deletes, configuration, device and module creates, and twin replaces. In Python a failing call raises out of the operation and ends it. One example is creating a device that already exists when importing without `overwrite`. Another is the twin replace right after a device create that only logged an unknown authentication type. In the model the run goes on. A run is therefore the sequence of calls attempted on a hub that accepts them all. StateRoundTrip.ExportThenImportIsMigration is stated for such a hub only.
- `tqdm` progress bars, logging text, and the opening, reading and writing of files are left out.
- JSON (de)serialisation (`json.dumps` of configuration fields and twins) is left out. Values are passed as they are.
- `process_json_arg` is represented by the JSON value it returns, and the directory scan (`scantree`) by its sequence of entries.
- The `EmbeddedCLI` resource-group lookup in `create` is the `groupLocation` parameter.
- The long-running-operation object and its callbacks (`check_state`, `generic_check_state`) are left out. `rbac_handler` is modelled on the instance dict it reads.
- The `get`, `list` and `delete` wrappers of the model provider are left out; they only call the SDK. In `delete_all`, deletion failures are the `failing` set, and the pager is the list of models.
- `migrate_devices` looks up the origin hub's target (`get_target`). That lookup is not modelled: the origin hub is its `SourceHub`.
- StateRoundTrip.ExportThenImportIsMigration is stated for hubs whose `numModules` counts the non-system modules. On an edge device that does not list both system modules, the cursor falls out of step with the file, and the theorem says nothing.
- StateImport.UploadState, StateImport.Upload and StateImport.ConfigsFrom: a line 0 that is a dict or a string is iterated differently by Python. The model raises TypeError for every non-list line 0.
- CentralRoles.ListRoles, CentralRoles.Pages and CentralRoles.Requested: a `nextLink` that is not a string is treated as absent, and the role objects built from page items are the items themselves.
- CentralRoles.ListRoles, CentralRoles.Pages and CentralRoles.Requested: a page whose `value` is present but not a list fails with `ValueNotAList`, and no further page is requested. Python's `for role in result["value"]` would iterate it instead. A dict gives its keys, in insertion order, which the model's unordered JSON objects do not record. A string gives its characters. Either way Python goes on to `nextLink`. A None or number raises TypeError there.
- DigitalTwinsModelDeletion.DeleteAll requires an acyclic reference graph, witnessed by a rank, but only for listings whose dict can be built. On such a listing with a cycle or self-reference, the source recurses until `RecursionError` propagates out of `delete_all`. The model says nothing about that case.
- DigitalTwinsModelDeletion.BulkDelete.Drain picks any remaining key. Python picks the first in insertion order, so the model proves the properties for every choice.
- DigitalTwinsResource.Lower lower-cases ASCII letters only. Python's `str.lower` also folds other scripts.
- Some enum values are taken by name, because the enum modules are not part of this model:
  - `DeviceAuthApiType`: `sas`, `selfSigned`, `certificateAuthority`;
  - `ADTEndpointType`: `eventhub`, `servicebus`;
  - `ADTEndpointAuthType`: `KeyBased`, `IdentityBased`;
  - `DeviceStatus`: the lower-case status names.
- Python's `None` and `""` arguments are both the empty string. The model does not tell them apart, and neither do the `if not x` checks.

# Config-drive metadata service (cloudbase-init), modelled in Dafny

This project models `ConfigDriveService`, the cloudbase-init metadata service that finds an
OpenStack config drive and reads metadata files from it. It covers three parts:

- **Search-option negotiation** (module `ConfigDriveOptions`, file `search_options.dfy`).
  The configured lists of content types and search locations are copied into sets. The three
  deprecated boolean options then add their fixed pairs: `raw_hdd` adds "iso"/"hdd", `cdrom`
  adds "iso"/"cdrom" and `vfat` adds "vfat"/"hdd". Finally both sets are checked against the
  supported universes, {"vfat","iso"} and {"cdrom","hdd","partition"}, types first. The check
  keeps the source's own form `S | U != U`.
- **The service lifecycle** (module `ConfigDrive`, file `config_drive_service.dfy`). The class
  `ConfigDriveService` has the fields `searchedTypes`, `searchedLocations`, `mgr` and
  `metadataPath`. `Load` preprocesses, obtains the platform manager, asks it to locate the
  drive and records the manager's target path only when the drive was found. `Cleanup`
  removes the manager's target directory, ignoring errors, and clears the metadata path.
- **Metadata reads.** `GetData` resolves a relative path against the metadata path and returns
  the whole file. When the file cannot be opened it raises `NotExistingMetadata`.

The file system is a `FileSystem` object holding a `map<string, seq<bv8>>`. Recursive removal
is `RemoveTree` on that map. The platform's `os.path.normpath(os.path.join(a, b))` is a
function-valued field `normJoin`, and its rules are not modelled. The platform manager is a
class `ConfigDriveManager`. Its scan outcome is a function-valued field `scan`, and a ghost log
`requests` records every request it receives. The configuration group is passed in as an
`Options` value.

Behaviour of the code worth noting:

- There is no invalid-state check. A read with no metadata path fails the way
  `os.path.join(None, …)` does, modelled as `NoMetadataPath`. A cleanup before any successful
  preprocessing fails on the missing manager, modelled as `NoManager`, and changes nothing.
- The configuration error carries the whole searched set, including what the deprecated options
  added, not only the invalid elements.
- Empty searched sets are accepted. Nothing requires the request to be non-empty.
- `cleanup` removes the manager's `target_path`, not `_metadata_path`.
- The searched sets stay assigned even when validation raises.

## Model

| member | source | states |
|---|---|---|
| `ConfigDriveOptions.LegacyFlags` | cloudbaseinit/metadata/services/configdrive.py:58-66 | the three deprecated options in source order: raw_hdd, cdrom, vfat; each implied type lies in CD_TYPES and each implied location in CD_LOCATIONS |
| `ConfigDriveOptions.Configured` | cloudbaseinit/metadata/services/configdrive.py:54-55 | the configured sets hold exactly the elements of the configured lists |
| `ConfigDriveOptions.Exceeds` | cloudbaseinit/metadata/services/configdrive.py:69-72 | the union test (S ∪ U ≠ U) holds iff some element of S lies outside U, i.e. iff S is not a subset of U |
| `ConfigDriveOptions.Validate` | cloudbaseinit/metadata/services/configdrive.py:68-74 | validation passes iff types ⊆ CD_TYPES and locations ⊆ CD_LOCATIONS; the types error, carrying the types set, comes iff the types are invalid; the locations error comes iff the types are valid and the locations are not |
| `ConfigDriveOptions.MergeIsUnion` | cloudbaseinit/metadata/services/configdrive.py:57-66 | adding the options' pairs one after another equals the union of the starting sets with the types and the locations of all active options |
| `ConfigDriveOptions.MergeWithin` | cloudbaseinit/metadata/services/configdrive.py:58-74 | when every option's pair lies inside the universes, the merged sets lie inside them exactly when the starting sets do |
| `ConfigDriveOptions.SearchedIsUnion` | cloudbaseinit/metadata/services/configdrive.py:54-66 | searched types = configured ∪ {"iso" if raw_hdd or cdrom} ∪ {"vfat" if vfat}; searched locations = configured ∪ {"hdd" if raw_hdd or vfat} ∪ {"cdrom" if cdrom} |
| `ConfigDriveOptions.SearchedSuperset` | cloudbaseinit/metadata/services/configdrive.py:54-66 | the searched sets contain the configured sets: the deprecated options only add |
| `ConfigDriveOptions.NoLegacyFlagsExact` | cloudbaseinit/metadata/services/configdrive.py:54-66 | with raw_hdd, cdrom and vfat all false, the searched sets equal the configured sets |
| `ConfigDriveOptions.PreprocessSucceedsIff` | cloudbaseinit/metadata/services/configdrive.py:53-74 | preprocessing succeeds iff the configured types ⊆ CD_TYPES and the configured locations ⊆ CD_LOCATIONS, whatever the deprecated options; on success the request is the searched sets |
| `ConfigDriveOptions.LegacyFlagsNeverFail` | cloudbaseinit/metadata/services/configdrive.py:58-74 | with empty configured lists, preprocessing succeeds for every setting of the deprecated options |
| `ConfigDriveOptions.TypesCheckedFirst` | cloudbaseinit/metadata/services/configdrive.py:69-74 | invalid configured types raise the types error even when the locations are invalid too; the locations error is raised only when the types are valid |
| `ConfigDriveOptions.CdromScenario` | cloudbaseinit/metadata/services/configdrive.py:53-74 | types ["iso"], no locations and cdrom on give the request {"iso"} / {"cdrom"} |
| `ConfigDriveOptions.BogusTypeScenario` | cloudbaseinit/metadata/services/configdrive.py:69-71 | types ["bogus"] with no deprecated options raise the types error naming {"bogus"} |
| `ConfigDrive.ConfigDriveService.constructor` | cloudbaseinit/metadata/services/configdrive.py:49-51 | a new service has no metadata path and no manager |
| `ConfigDrive.ConfigDriveService.PreprocessOptions` | cloudbaseinit/metadata/services/configdrive.py:53-74 | after the step-by-step additions, the searched-set fields equal the merged request, and the outcome is the validation of that request |
| `ConfigDrive.ConfigDriveManager.GetConfigDriveFiles` | cloudbaseinit/metadata/services/configdrive.py:83-85 | the manager receives the searched sets as one request and returns the outcome of its scan for it |
| `ConfigDrive.ConfigDriveService.Load` | cloudbaseinit/metadata/services/configdrive.py:76-91 | on a preprocessing error, load raises that error, obtains no manager, sends no request and keeps the metadata path; otherwise the manager is obtained, receives exactly the searched sets once, load returns its found flag, and the metadata path becomes the manager's target path only when found |
| `ConfigDrive.ConfigDriveService.GetData` | cloudbaseinit/metadata/services/configdrive.py:93-102 | with a metadata path, a read returns the whole content of the file at the normalized join of that path and the argument, and NotExistingMetadata exactly when no such file exists; with none, the join fails |
| `ConfigDrive.RemoveTree` | cloudbaseinit/metadata/services/configdrive.py:106 | recursive removal with errors ignored drops exactly the files strictly inside the directory and leaves every other file unchanged; a missing directory, or the empty path, removes nothing |
| `ConfigDrive.ConfigDriveService.Cleanup` | cloudbaseinit/metadata/services/configdrive.py:104-107 | with a manager, cleanup removes the manager's target tree, clears the metadata path and never fails; without a manager it fails and changes nothing |
| `ConfigDrive.RemoveTreeIdempotent` | cloudbaseinit/metadata/services/configdrive.py:104-107 | a second cleanup of the same directory leaves the files as the first left them |
| `ConfigDrive.ReadInsideRemovedTreeFails` | cloudbaseinit/metadata/services/configdrive.py:93-107 | after cleanup removed a directory, a read whose normalized path lies inside it gives NotExistingMetadata, even with the metadata path pointing there again |
| `ConfigDrive.Lifecycle` | cloudbaseinit/metadata/services/configdrive.py:76-107 | a cdrom search that finds the drive, then reads, cleanup, a read and a second cleanup: the present file's bytes are returned, a missing file gives NotExistingMetadata, a read after cleanup fails on the missing path, and both cleanups pass |

## Left out

- `super().__init__()` and `super().load()` of the OpenStack base service, and the metadata-schema parsing it supports: that code is not part of this model.
- `factory.get_config_drive_manager()` is not modelled: `Load` receives the manager the factory would return as a parameter. How the concrete manager scans devices is also out: its outcome is the `scan` field.
- The concrete manager copies the drive's content into its target path. That copy is not modelled: the file map holds whatever the environment put there.
- `os.path.normpath` and `os.path.join` are platform library calls. They stay an uninterpreted function value, so nothing is claimed about `..` segments escaping the directory.
- `ConfigDrive.RemoveTree`: "inside" is lexical, meaning a path that starts with the directory followed by `/` or `\`. The platform's case rules and link handling are not modelled.
- `ConfigDrive.ConfigDriveService.GetData`: every failure to open a file (missing, permission denied, other I/O faults) is modelled as the path being absent from the map.
- Logging, and loading the configuration from `CONF`, are left out. The configuration group is an explicit `Options` value.
- Configuration lists become sets, so their order and duplicates are not kept. This is also what the source's `set(...)` does.
- Exceptions other than those named here, such as a manager that raises while scanning, are not modelled.

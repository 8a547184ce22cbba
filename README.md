# LdapRecord-Laravel import core, modelled in Dafny

This project models two sequential pieces of the LDAP-to-database import
engine of LdapRecord-Laravel and proves properties of them.

- **The user import command** (`Commands`, for `src/Commands/LdapUserImport.php`):
  the lifecycle policy for disabled and re-enabled Active Directory accounts.
  It covers the `userAccountControl` tests, the guarded soft-delete and
  restore transitions with their info log lines, and the `importing`,
  `imported` and `deleted.missing` callbacks. It also covers the two opt-in
  toggles and the loading of the objects to import, where a username gives a
  batch of zero or one object.
- **The importer** (`Laravel`, for `src/LdapImporter.php`): it looks up the
  local record by converted GUID, with trashed rows included when the model
  uses soft deletes, or hands back a fresh unsaved instance. It fixes the
  order of the events around hydration, normalises the model class name to
  exactly one leading backslash, and stores and returns its configuration.

Supporting modules stand for the collaborators:
- `AccountControl`: the `ACCOUNTDISABLE` flag (bit 0x0002 of
  `userAccountControl`, MS-ADTS section 2.2.16) and PHP's `&` on integers.
- `Directory`: the directory object.
- `Eloquent`: table rows, record snapshots and the model instance class.
- `Events`: the event bus and the log, each kept as an appended trace.
- `Wrappers`: `Option`, which stands for PHP's `null`.

The commands and methods that change state are class methods with
`modifies` clauses. `LdapUserImport` and `LdapImporter` have the source's
fields, and a model instance has its flags and columns. Each such method
states its whole new state. The pure parts are functions, and lemmas state
the properties that relate several calls.

Modelling choices:
- `exists` is a Dafny keyword, so Eloquent's `exists` flag is the field `stored`.
- `userAccountControl` values are integers that have already been converted
  from the directory's strings. `getFirstAttribute` takes the first one. An
  absent attribute is `None`, and PHP reads it as 0 in `&`.
- `AccountControl.BitAnd` is PHP's `&` with a non-negative mask. Dafny's
  division and remainder by 2 round down, so it also gives PHP's bits for
  negative integers.
- The `withTrashed` macro probe is the flag `usesSoftDeletes` of the model
  class. A model class without soft deletes has no query scope, and its
  instances are never trashed.
- An object without a GUID is compared with null. Laravel turns
  `where(column, '=', null)` into a null test, so such an object matches a
  row whose GUID column is null.
- The username test follows PHP truthiness: a null username, `""` and `"0"`
  all take the paginated branch.

Two consequences of the code as it stands:
- `LdapImporter.php` raises no error for an object without a GUID (see
  `Laravel.MissingGuidMatchesUnlinkedRow`).
- `LdapUserImport.php` and `LdapImporter.php` have no per-object error
  isolation, no retry after a uniqueness conflict and no computation of the
  missing-record set.

## Model

| member | source | states |
|---|---|---|
| `AccountControl.BitAnd` | src/Commands/LdapUserImport.php:209 | PHP's `uac & mask` for a non-negative mask; the result never exceeds the mask |
| `AccountControl.BitAndIsBitwise` | src/Commands/LdapUserImport.php:209 | every bit of `a & mask` is the AND of the bits of `a` and `mask`, for negative `a` too |
| `AccountControl.DisabledFlagIsBitOne` | src/Commands/LdapUserImport.php:209 | `(uac & ACCOUNTDISABLE) === ACCOUNTDISABLE` holds exactly when bit 1 of `uac` is set, whatever the other flags |
| `Commands.GetUserAccountControl` | src/Commands/LdapUserImport.php:219-222 | null exactly when the attribute has no value, otherwise its first value |
| `Commands.UserIsDisabled` | src/Commands/LdapUserImport.php:207-210 | disabled exactly when the attribute is present and has ACCOUNTDISABLE set; an absent attribute, read as 0, is not disabled |
| `Commands.UserIsEnabled` | src/Commands/LdapUserImport.php:195-198 | enabled exactly when the attribute is present and the user is not disabled; so never both enabled and disabled, and an absent attribute is neither |
| `Commands.AccountControlExamples` | src/Commands/LdapUserImport.php:195-210 | 514 (0x202) is disabled, 512 (0x200) is enabled and not disabled, an absent attribute is not enabled |
| `Commands.LdapUserImport.constructor` | src/Commands/LdapUserImport.php:24-36 | both toggles start false and no objects are loaded |
| `Commands.LdapUserImport.RestoreEnabledUsers` | src/Commands/LdapUserImport.php:93-98 | sets only the restore toggle, to true, and returns the command itself |
| `Commands.LdapUserImport.TrashDisabledUsers` | src/Commands/LdapUserImport.php:105-110 | sets only the trash toggle, to true, and returns the command itself |
| `Commands.LdapUserImport.LoadObjectsFromRepository` | src/Commands/LdapUserImport.php:119-134 | with a truthy username, the loaded batch has at most one object and is empty exactly when the name lookup finds nothing, without error; otherwise it is the paginated result; either way it becomes the command's objects |
| `Commands.LdapUserImport.Delete` | src/Commands/LdapUserImport.php:144-160 | the record changes exactly when soft deletes are used, it is not trashed and the user is disabled, and it then ends trashed; the soft-delete line is logged only then and only with logging on; otherwise nothing changes |
| `Commands.LdapUserImport.Restore` | src/Commands/LdapUserImport.php:170-186 | the record changes exactly when soft deletes are used, it is trashed and the user is enabled, and it then ends restored; the restore line is logged only then and only with logging on; otherwise nothing changes |
| `Commands.LdapUserImport.OnImporting` | src/Commands/LdapUserImport.php:45-49 | Importing is raised exactly when the record is not in the store |
| `Commands.LdapUserImport.OnImported` | src/Commands/LdapUserImport.php:51-67 | Imported is raised exactly when the record was just created, whether or not the object is Active Directory; the trashed marker and the log lines are those of the lifecycle policy |
| `Commands.LdapUserImport.OnDeletedMissing` | src/Commands/LdapUserImport.php:69-71 | raises DeletedMissing with the ids it was given |
| `Commands.LogLines` | src/Commands/LdapUserImport.php:156-184 | with logging on, one info line per transition, in order: the soft-delete message for a soft delete and the restore message for a restore; none when logging is off |
| `Commands.AtMostOneTransition` | src/Commands/LdapUserImport.php:60-66 | `delete` and then `restore` run in turn, yet at most one of them changes the record |
| `Commands.LifecycleOutcome` | src/Commands/LdapUserImport.php:51-67 | an Active Directory record ends trashed if trashing is on and the trash guard holds; it ends restored if restoring is on and the restore guard holds; otherwise it keeps its marker |
| `Commands.NonActiveDirectoryIsSkipped` | src/Commands/LdapUserImport.php:56-58 | the lifecycle policy applies no transition to an object that is not Active Directory |
| `Commands.AbsentAccountControlIsInert` | src/Commands/LdapUserImport.php:195-210 | without a `userAccountControl` value there is no trash and no restore, whatever the toggles |
| `Commands.DisableThenReenable` | src/Commands/LdapUserImport.php:144-186 | with both toggles on: 514 on an untrashed record trashes it, and 512 on a trashed record restores it, with one log line each when logging |
| `Laravel.FindFirst` | src/LdapImporter.php:113-115 | the index of the first row the GUID query selects in the given scope, or none when no row is selected |
| `Laravel.LdapImporter.CreateOrFindEloquentModel` | src/LdapImporter.php:100-116 | a new instance of the normalised model class in the state of the first row with the object's GUID, trashed rows included, or an unsaved empty instance; the table is unchanged |
| `Laravel.LookupFindsFirstRowWithGuid` | src/LdapImporter.php:106-115 | the lookup gives a stored record exactly when some row, trashed or not, has the GUID, and that record is the first such row |
| `Laravel.TrashedRowIsFoundAgain` | src/LdapImporter.php:106-111 | with soft deletes, a trashed row with the GUID comes back as a stored, trashed record with its columns |
| `Laravel.ImportKeepsGuidsUnique` | src/LdapImporter.php:106-115 | when the lookup includes trashed rows, saving what it resolved keeps GUIDs unique, and exactly one row has the object's GUID afterwards |
| `Laravel.ScopedLookupWouldDuplicate` | src/LdapImporter.php:106-111 | without `withTrashed`, a trashed row is missed and saving gives a second row with the same GUID |
| `Laravel.MissingGuidMatchesUnlinkedRow` | src/LdapImporter.php:113-115 | an object without a GUID resolves to the first row whose GUID column is null instead of being rejected |
| `Laravel.LdapImporter.Run` | src/LdapImporter.php:47-62 | returns a new instance in the resolved state with the hydrator's columns; raises Importing only for a record not in the store, then Synchronizing, then Synchronized; each event carries that instance; the table is unchanged |
| `Laravel.LdapImporter.Synchronize` | src/LdapImporter.php:51-59 | the events around hydration: Synchronizing with the state before and Synchronized with the state after |
| `Laravel.LdapImporter.Hydrate` | src/LdapImporter.php:73-81 | only the record's non-GUID columns change, to what the hydrator built from the configuration, the object and the override data |
| `Laravel.RunEventOrder` | src/LdapImporter.php:51-61 | two or three events; Importing first, and only when the record is not in the store; Synchronizing shows the state before hydration and Synchronized, last, the state after; all carry the same object and instance |
| `Laravel.ImportingIffGuidUnknown` | src/LdapImporter.php:49-53 | Importing is raised exactly when no row, trashed or not, has the object's GUID |
| `Laravel.LdapImporter.constructor` | src/LdapImporter.php:33-37 | stores the model class name and the configuration |
| `Laravel.LdapImporter.SetConfig` | src/LdapImporter.php:123-136 | `getConfig` returns exactly the configuration last set |
| `Laravel.LdapImporter.CreateEloquentModel` | src/LdapImporter.php:153-158 | a new unsaved instance of the class named by the normalised name |
| `Laravel.LTrim` | src/LdapImporter.php:155 | `ltrim`: a suffix of the input, not starting with the character, and only that character was removed |
| `Laravel.QualifiedClassName` | src/LdapImporter.php:155 | exactly one leading backslash, then the name with all its leading backslashes removed |
| `Laravel.QualifiedClassNameIdempotent` | src/LdapImporter.php:155 | normalising a normalised name changes nothing |
| `Laravel.QualifiedClassNameIgnoresLeadingBackslashes` | src/LdapImporter.php:155 | names that differ only in their leading backslashes normalise to the same class name |

## Left out

- `src/Events/Auth/Rejected.php` holds the payload of an authentication event and has no logic.
- `setLdapUserRepository`, the repository, `applyLdapQueryConstraints`, `findByAnr` and `paginate` are directory I/O. Their results are parameters of `LoadObjectsFromRepository`.
- The parent `Import` class is not part of this model. This covers callback registration and invocation, `isUsingSoftDeletes`, the `logging` field and the save that follows `run`. Soft-delete support and logging are plain booleans. `Laravel.SaveResolved` stands for the save only in order to state the GUID-uniqueness property.
- `EloquentHydrator` and its field mapping are not part of this model. The hydrator is an arbitrary function of the configuration, the object, the override data and the current columns. It never touches the GUID column, so how a new record gets its GUID is not modelled.
- Event dispatch and the logger are appended traces. A DeletedMissing event carries only the ids. The LDAP and Eloquent model arguments of the `deleted.missing` callback are not kept.
- Only the directory object's RDN, converted GUID, Active Directory flag and `userAccountControl` values are modelled. Other attributes, case-insensitive attribute names, and the conversion of attribute strings to integers are not.
- `getEloquentModel` is a plain accessor, `Laravel.LdapImporter.GetEloquentModel`, and has no contract.
- The lookup query, its `first()` and Eloquent's `delete`/`restore` are modelled by their effect on values. Database order is the order of the row sequence.
- Concurrency, uniqueness races and retry on conflict are not modelled. Neither `LdapUserImport.php` nor `LdapImporter.php` implements concurrency control or retry on conflict.

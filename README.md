# Juju: CLI application helpers and the controller upgrade service

This project models two pieces of Juju, the application-management control
plane, and proves properties about them in Dafny.

- `application_utils.dfy` (module `ApplicationUtils`) covers the helpers that the
  `juju deploy` / `juju refresh` commands use:
  - rendering a set flag back into its command-line spelling (`GetFlags`, `FlagWithMinus`);
  - deciding which charm resources have their metadata uploaded when an
    application is upgraded (`shouldUpgradeResource`, `filterResources`,
    `GetUpgradeResources`);
  - building the application config map from `key=value` pairs, `@file`
    values and the `--trust` flag (`ProcessConfig`, `ReadValue`).
  The loops of the source stay loops. Go map iteration has no fixed order, so
  the loops over maps pick their next key non-deterministically, and every
  contract holds for every order.
- `upgrade_service.dfy` (module `UpgradeService`) covers the upgrade service.
  It is a stateless layer over the upgrade State (the persistence layer).
  - It refuses a version pair whose target is not strictly later than its
    source, before State is consulted.
  - It reports a foreign-key violation from `SetControllerReady` and "no rows"
    from `StartUpgrade` as NotFound.
  - It passes every other State result through unchanged.
  Versions are `major.minor.patch` naturals ordered lexicographically. State is
  a value holding the result each of its operations would report.

The service's implementation is not part of this model. Its behaviour is
taken from `domain/upgrade/service/service_test.go`, which fixes the outcome of
each operation. The tests pin one NotFound mapping per operation: the
foreign-key violation for `SetControllerReady` and "no rows" for
`StartUpgrade`. The model maps exactly those two and nothing else.

## Model

| member | source | states |
|---|---|---|
| `ApplicationUtils.FlagWithMinus` | cmd/juju/application/utils/utils.go:70-75 | the rendering is the name preceded by two dashes when the name is longer than one byte in UTF-8 (Go's `len`), and by one dash otherwise |
| `ApplicationUtils.NonAsciiCharIsLongFlag` | cmd/juju/application/utils/utils.go:71 | a single non-ASCII character counts as a long name, because Go's `len` counts bytes |
| `ApplicationUtils.FlagNameInvertsFlagWithMinus` | cmd/juju/application/utils/utils.go:70-75 | the flag name can be read back from its rendering |
| `ApplicationUtils.FlagWithMinusInjective` | cmd/juju/application/utils/utils.go:70-75 | two different names never render to the same flag |
| `ApplicationUtils.NameMatchesCount` | cmd/juju/application/utils/utils.go:61-65 | for one visited flag, the inner loop appends only that flag's rendering, once for every occurrence of its name in flagNames |
| `ApplicationUtils.NameMatchesDistinct` | cmd/juju/application/utils/utils.go:61-65 | when flagNames has no repeats, a visited flag adds its rendering once if it is named and adds nothing otherwise |
| `ApplicationUtils.SelectedFlagsMembers` | cmd/juju/application/utils/utils.go:56-68 | a string is in the output if and only if it is the rendering of a flag that is both set and named in flagNames |
| `ApplicationUtils.SelectedFlagsInVisitOrder` | cmd/juju/application/utils/utils.go:56-68 | when flagNames has no repeats, the output is the set flags that are named, rendered, in visiting order |
| `ApplicationUtils.GetFlags` | cmd/juju/application/utils/utils.go:56-68 | the nested loop computes the specification SelectedFlags. A rendering appears exactly when its flag is set and named. Without repeated names the output keeps the visiting order |
| `ApplicationUtils.ShouldUpgradeResource` | cmd/juju/application/utils/utils.go:125-156 | a supplied resource is always uploaded. Otherwise the result is a NotValid error if and only if the resource is unknown to the controller and the charm is local. It is true if and only if the charm is not local and the controller's copy is absent or was not uploaded by the user. It is false if and only if the resource is known and the charm is local or the copy was a user upload |
| `ApplicationUtils.UploadedResourceStaysPinned` | cmd/juju/application/utils/utils.go:154-155 | a resource the user uploaded earlier and does not supply again is never re-uploaded |
| `ApplicationUtils.FilterResources` | cmd/juju/application/utils/utils.go:106-123 | the call fails if and only if some entry's decision is an error, and then it returns one of those errors and no map. On success the result is a sub-map of meta with unchanged values that holds exactly the entries whose decision is true, in any iteration order |
| `ApplicationUtils.GetUpgradeResources` | cmd/juju/application/utils/utils.go:77-93 | empty meta gives an empty result whatever the lister reports. Otherwise a lister error is returned unchanged, and a lister success gives the filterResources outcome over what it listed |
| `ApplicationUtils.ReadValue` | cmd/juju/application/utils/utils.go:158-177 | it succeeds, returning the file's content, if and only if the file can be examined, is at most 5242880 bytes and can be read. A larger file gives the size error, and a file that cannot be examined or read gives the cannot-read error |
| `ApplicationUtils.ProcessConfig` | cmd/juju/application/utils/utils.go:205-242 | the error order is a config flag error, then more than one file, then an unreadable YAML file, then a pairs error, then a failed `@file` expansion. Success happens exactly when every pair expands. The keys are then the pair keys plus the trust key. Values not starting with `@` are copied unchanged, `@path` values become the file content, and the trust key is "true" or "false" from the flag, overriding any user pair |
| `UpgradeService.LessIsLexicographic` | domain/upgrade/service/service_test.go:41-54 | the version order is the lexicographic order on (major, minor, patch) |
| `UpgradeService.LessIsStrictTotalOrder` | domain/upgrade/service/service_test.go:48-54 | the version order is irreflexive, asymmetric, transitive and total, so "strictly greater" excludes both equal and lower targets |
| `UpgradeService.CreateUpgrade` | domain/upgrade/service/service_test.go:38-54 | the result is NotValid if and only if to is not strictly later than from. Otherwise it returns exactly the UUID State produced, or State's error passed through. It never reports NotFound |
| `UpgradeService.CreateUpgradeInvalidIgnoresState` | domain/upgrade/service/service_test.go:48-54 | for an invalid pair the result is NotValid whatever State would report, so State is never consulted |
| `UpgradeService.CreateUpgradeKeepsStateOutcome` | domain/upgrade/service/service_test.go:38-46 | for a valid pair, State's outcome can be recovered exactly from the service's |
| `UpgradeService.SetControllerReady` | domain/upgrade/service/service_test.go:56-74 | it succeeds if and only if State does. It is NotFound if and only if State reports a foreign-key violation. That violation never escapes raw, and every other error passes through |
| `UpgradeService.SetControllerReadyKeepsStateOutcome` | domain/upgrade/service/service_test.go:65-74 | the NotFound mapping loses nothing: State's outcome can be recovered from the service's |
| `UpgradeService.AllProvisionedControllersReady` | domain/upgrade/service/service_test.go:76-84 | it returns State's boolean unchanged, and State's error passed through |
| `UpgradeService.StartUpgrade` | domain/upgrade/service/service_test.go:86-102 | it succeeds if and only if State does. It is NotFound if and only if State reports no rows. "No rows" never escapes raw, and every other error passes through |
| `UpgradeService.StartUpgradeKeepsStateOutcome` | domain/upgrade/service/service_test.go:95-102 | the NotFound mapping loses nothing: State's outcome can be recovered from the service's |
| `UpgradeService.ActiveUpgrades` | domain/upgrade/service/service_test.go:104-112 | it returns State's UUID list with the same elements in the same order, or State's error passed through |

## Left out

- `apiserver/allfacades.go` holds only imports made for their registration side effects. It contains no logic.
- `GetMetaResources` and `getResources` are RPC and lister calls. Their outcome is an input: `listed` is the lister's answer already keyed by resource name. The `svcs[0]` indexing of the lister reply is not modelled.
- `ParsePlacement` is a wrapper over `instance.ParsePlacement`, which is not part of this model.
- `IsTerminal` is a type assertion plus a terminal system call.
- File system access is not modelled. `Stat` and `os.ReadFile` are an oracle (`Filesystem`: reported sizes and contents). `ctx.AbsPath` resolution is folded into the oracle's keys.
- The `v.(string)` type assertion in `ProcessConfig` is not modelled: pairs are already strings.
- Logging (`logger.Tracef`) and `context.Context` cancellation are not modelled.
- Error messages built with `errors.Errorf` are replaced by error kinds. The NotValid message quotes the name with plain double quotes, not Go's `%q` escaping.
- A nil map returned by `GetUpgradeResources` for empty meta is modelled as the empty map.
- gnuflag's visit of the set flags is an input sequence `visited`. gnuflag visits them sorted by name, and that sort is not part of this model.
- The service implementation file and the State implementation (its SQL, transactions, concurrency and readiness aggregation) are not part of this model. The gomock and sqlite3 error values become the `StateError` datatype.
- Version tags and build numbers are not modelled. Only numeric `major.minor.patch` ordering is.
- The NotFound error carries no message naming the upgrade or controller.
- Readiness aggregation (whether an upgrade with no tracked controllers counts as ready) is done by the State implementation; the service passes State's boolean through.

# workspace-tools in Dafny

A model of the workspace migration tool of integration-app. The tool has two
commands.

- **export** reads every element of a workspace through the platform SDK,
  strips workspace-assigned fields, and writes one YAML file per element.
- **import** reads such a snapshot and reconciles it against a destination
  workspace. It first maps connectors and integrations. Then, for each
  element, it decides between update, reset-to-parent, apply-as-derived and
  create.

The model keeps the tool's own structure as Dafny modules:

- `Js` — JavaScript values, truthiness, loose equality, template-literal
  strings, and insertion-ordered objects (`Dict`).
- `Text` — the `universal.*Id` and `parentId` key patterns, lexicographic
  `sort()`, and `/`-joined paths.
- `Catalog` — the `INTEGRATION_ELEMENTS` table, `baseExportCleanup`, and the
  field-mapping cleanup hook.
- `Remote` — the SDK as an oracle. Each call is appended to a call log. The
  server decides from the log so far whether a call succeeds, and what it
  returns.
- `Workspace` — `splitWorkspaceData`, `hasParent`, and `getWorkspaceData`.
- `Reconcile` — `matchElement`, `elementIsCustomized`, and `syncElements`.
- `Connectors` — the connector grouping, connector mapping and integration
  matching of `syncIntegrations`.
- `Import` — the phase order of `importPackage`.
- `Export` — the directory and file layout of `exportPackage`.

Each multi-step operation appears twice:

- a recursive specification function over an explicit running state (the
  call log, and the dictionaries being built);
- a `method` with the source's loops, proved equal to that function.

Properties are proved about the functions.

Where the code and the design notes disagree, the model follows the code:

- **Version drift.** The design treats connector-version drift as a warning.
  The code switches the integration's version instead, and its warning list
  stays empty.
- **Versions of a new integration.** The design switches a newly created
  integration only when its version differs from the connector default. The
  code switches whenever the wanted version is found in the list.
- **Export options.** The design's `--allConnectors` export option does not
  exist in the export command.
- **Integrations list.** The design says every exported element is
  cleaned. The `integrations` list returned by `getWorkspaceData` is kept
  exactly as fetched.

## Model

| member | source | states |
|---|---|---|
| Js.Find | src/commands/importPackage.js:116-117 | `Array.prototype.find`: none exactly when no item satisfies the predicate, otherwise the first item that does |
| Js.Assign | src/util.js:45 | property assignment: the key reads back the new value, other keys are unchanged, and a new key is appended to the key order |
| Js.Remove | src/commands/importPackage.js:76 | `delete`: the key is gone, every other key reads as before, and no entry is invented |
| Js.Truthy | src/commands/importPackage.js:116 | JavaScript truthiness: `undefined`, `null`, `false`, `0` and the empty string are falsy, and everything else is truthy |
| Js.LooseEq | src/commands/importPackage.js:169 | loose `==`: `null` and `undefined` equal each other and nothing else. Other values are equal exactly when they are the same value |
| Js.ToJsString | src/commands/importPackage.js:171 | `String(v)` as a template literal or a property key uses it: a string is itself, a number is its decimal form, `undefined`, `null` and booleans are their names, an array is its items joined with commas, and an object is `[object Object]` |
| Text.Contains | src/util.js:97 | true exactly when the pattern (here `parentId`) occurs somewhere in the key |
| Text.IdBeforeBreak | src/util.js:97 | true exactly when `Id` occurs before any line terminator (`.` in a JavaScript regular expression does not match one) |
| Text.MatchesUniversalId | src/util.js:97 | true exactly when some substring of the key matches `/universal.*Id/` |
| Text.Insert | src/commands/importPackage.js:107 | insertion into a sorted list keeps it sorted and adds exactly the one element |
| Text.SortStrings | src/commands/importPackage.js:107 | `sort()` of strings: the result is lexicographically sorted and a permutation of the input |
| Text.LexLeTotal | src/commands/importPackage.js:107 | the order `sort()` uses is total |
| Text.LexLeTransitive | src/commands/importPackage.js:107 | the order `sort()` uses is transitive |
| Text.JoinPathAppend | src/commands/exportPackage.js:42-44 | joining a root and a relative path equals joining all their segments |
| Text.SplitJoinPath | src/commands/exportPackage.js:42-44 | splitting a joined path at `/` recovers the segments when none contains `/` |
| Text.JoinPathInjective | src/commands/exportPackage.js:42-44 | two slash-free segment lists that join to the same path are equal |
| Catalog.EntryForMeaning | src/integrationElements.js:1-43 | the catalog has exactly the eight types, and each entry's `elements` is its own key. `integrations` is the only non-exportable type. Exactly `actions`, `dataSources`, `fieldMappings` and `flows` are integration-specific. Only `fieldMappings` has a cleanup hook |
| Catalog.EntryFor | src/integrationElements.js:1-43 | looking up `INTEGRATION_ELEMENTS[t]`: an entry for each of the eight declared types and none for any other name. What the entries hold is stated by `Catalog.EntryForMeaning` |
| Catalog.Entries | src/util.js:11 | `Object.values(INTEGRATION_ELEMENTS)`: one entry per catalog key, in declaration order |
| Workspace.EntriesSelfIndexed | src/integrationElements.js:1-43 | every catalog entry is exactly what its own type name looks up |
| Catalog.BaseExportCleanup | src/integrationElements.js:44-49 | removes exactly `workspaceId`, `createdAt` and `updatedAt`, and keeps every other field unchanged |
| Catalog.BaseExportCleanupIdempotent | src/integrationElements.js:44-49 | applying `baseExportCleanup` twice equals applying it once |
| Catalog.DropDataSource | src/integrationElements.js:33-36 | the field-mapping hook removes exactly `dataSourceId` and keeps everything else |
| Workspace.HasParentMeaning | src/util.js:96-98 | `hasParent` holds exactly when some key name matches `universal.*Id` or contains `parentId`. It depends on key names only |
| Workspace.HasParent | src/util.js:96-98 | the `hasParent` test on an element's own key names. Its meaning is stated by `Workspace.HasParentMeaning` |
| Workspace.Partition | src/util.js:82-88 | one bucket of the split holds exactly the input elements with the given marking |
| Workspace.PartitionAppend | src/util.js:82-88 | bucketing distributes over concatenation, so relative order is kept within each bucket |
| Workspace.PartitionMultiset | src/util.js:82-91 | the two buckets together are a permutation of the input |
| Workspace.SplitWorkspace | src/util.js:72-94 | fails exactly when some input type has no catalog entry. On success, both outputs have exactly the input's type keys in input order, and per type the two buckets together are a permutation of the input list |
| Workspace.SplitUniversalType | src/util.js:89-91 | a type that is not integration-specific goes entirely, in order, to the universal side, and its integration-specific list is empty |
| Workspace.SplitSpecificType | src/util.js:80-88 | for an integration-specific type, an element is on the integration-specific side exactly when it has a truthy `integrationKey`, `integration` or `integrationId`, and otherwise on the universal side |
| Workspace.SplitWorkspaceData | src/util.js:72-94 | the loop that pushes into both dictionaries computes exactly `SplitWorkspace` |
| Workspace.SplitTypeRun | src/util.js:80-91 | the loop over one type's elements computes that type's split: both buckets of an integration-specific type, everything universal otherwise |
| Workspace.CleanAll | src/util.js:17 | every fetched item is passed through `baseExportCleanup` and then the type's hook, in order |
| Workspace.StampAll | src/util.js:22-23 | every item fetched for an integration gets that integration's key as `integrationKey` |
| Workspace.CleanItemStrips | src/util.js:17-24 | a cleaned item carries no stripped field (and, for field mappings, no `dataSourceId`), and the `integrationKey` stamp survives cleanup |
| Workspace.CleanItem | src/util.js:17-24 | one fetched item through `baseExportCleanup` and then the type's hook. `Workspace.CleanItemStrips` states what it removes and keeps |
| Workspace.FetchScoped | src/util.js:19-26 | the loop over integrations for an integration-specific type: one scoped `findAll` per integration, with its items stamped and cleaned. Its calls and items are stated by `Workspace.FetchScopedCalls` and `Workspace.FetchScopedBlocks` |
| Workspace.FetchScopedCalls | src/util.js:19-21 | a per-integration loop that raised nothing sent exactly one `findAll` per integration, in order, each scoped to that integration's `id` |
| Workspace.FetchScopedBlocks | src/util.js:19-26 | the collected items are, integration by integration in order, the reply to that integration's own scoped `findAll`, stamped with its `key` and cleaned |
| Workspace.ScopedBlockStamped | src/util.js:22-23 | every item in integration n's block carries integration n's own `key` as `integrationKey` |
| Workspace.FetchScopedStripped | src/util.js:19-26 | every item collected for an integration-specific type is cleaned |
| Workspace.FetchScopedStamped | src/util.js:19-26 | every item collected per integration carries the `key` of one of the integrations, also after a failed fetch. Which key each block carries is stated by `Workspace.FetchScopedBlocks` and `Workspace.ScopedBlockStamped` |
| Workspace.FetchTypesStripped | src/util.js:11-47 | the type loop only ever stores cleaned items |
| Workspace.AssignStripped | src/util.js:45 | storing a cleaned list for a type keeps the whole dictionary cleaned |
| Workspace.WorkspaceDataShape | src/util.js:4-51 | a successful fetch has exactly the catalog's types as keys, in catalog order. Its `integrations` entry is the list as fetched, and every other element is cleaned |
| Workspace.WorkspaceDataReadsOnly | src/util.js:8-27 | fetching the workspace only appends `findAll` reads to the call log, at least one of them |
| Workspace.FetchScopedReadsOnly | src/util.js:20-21 | the per-integration fetches are reads only |
| Workspace.FetchTypeReadsOnly | src/util.js:12-27 | one type's fetches are reads only, and a non-exportable type issues none |
| Workspace.FetchTypesReadsOnly | src/util.js:11-47 | the type loop issues reads only |
| Workspace.FetchTypeKeys | src/util.js:45 | a type's turn adds its key after the existing ones and keeps the integrations list |
| Workspace.FetchTypesKeys | src/util.js:11-47 | the remaining catalog types are added in catalog order |
| Workspace.GetWorkspaceData | src/util.js:4-51 | the loops of `getWorkspaceData` compute exactly `WorkspaceData` |
| Workspace.FetchTypeRun | src/util.js:12-46 | one catalog entry's turn of the loop computes exactly `FetchType` |
| Workspace.FetchScopedRun | src/util.js:19-26 | the per-integration loop of one type computes exactly `FetchScoped` |
| Workspace.FetchType | src/util.js:12-27 | one catalog entry's turn: nothing for a non-exportable type, the per-integration loop for an integration-specific one, one cleaned `findAll` otherwise. Its properties are the `FetchType…` lemmas |
| Workspace.FetchTypes | src/util.js:11-47 | the loop over the catalog entries in order, storing each type's list under its key. Its properties are the `FetchTypes…` lemmas |
| Workspace.WorkspaceData | src/util.js:4-51 | `getWorkspaceData`: the integrations read first, then the catalog loop. Its shape is stated by `Workspace.WorkspaceDataShape` |
| Reconcile.IsCustomized | src/commands/importPackage.js:296-298 | a customized element always has a truthy `integrationKey`, so a universal element is never customized |
| Reconcile.Matches | src/commands/importPackage.js:301 | the filter keeps at most as many items as the inventory has |
| Reconcile.MatchesNone | src/commands/importPackage.js:301-308 | the filter is empty exactly when no inventory item has the same `key` and `integrationKey` |
| Reconcile.MatchesMany | src/commands/importPackage.js:301-304 | the filter has two or more items exactly when two distinct inventory items share the identity |
| Reconcile.MatchesOne | src/commands/importPackage.js:305-307 | a single filter result is an inventory item with the same identity |
| Reconcile.MatchElement | src/commands/importPackage.js:300-301 | matching against a type the inventory lacks throws (the optional chain yields `undefined`, whose `length` is read) |
| Reconcile.MatchElementMeaning | src/commands/importPackage.js:300-309 | throws exactly when two inventory elements share the key and integration key, and returns nothing exactly when none does. Otherwise it returns an element with that identity |
| Reconcile.Decide | src/commands/importPackage.js:230-289 | the decision table. A matched element is updated when it has no parent or is customized, and reset otherwise. An unmatched element is applied when it has a parent, and created otherwise. The "Corrupted" branch is never chosen |
| Reconcile.IntegrationIdFor | src/commands/importPackage.js:278-281 | an integration id is found exactly when the inventory's integration list has an integration with that key |
| Reconcile.SyncMatched | src/commands/importPackage.js:226-245 | after `integrationId` is deleted, a matched element gets exactly one call: a put to the destination id, or a reset of it. A rejection propagates |
| Reconcile.SyncDerived | src/commands/importPackage.js:253-274 | an unmatched element with a parent starts with `apply`. A customized one that succeeds ends with a put by key and integration key. When the apply succeeds, nothing else is sent but that put. When it fails, the put-then-create fallback chain follows |
| Reconcile.SyncFresh | src/commands/importPackage.js:276-288 | an unmatched element without a parent gets one create. With an integration key, `integration` is removed and `integrationId` is set to the id of the destination integration with that key. When there is none, the run throws before any call |
| Reconcile.SkipNonExportable | src/commands/importPackage.js:221 | a non-exportable type produces no calls and leaves the state unchanged |
| Reconcile.SyncElementCalls | src/commands/importPackage.js:223-291 | one element's sync only appends element calls of its own type |
| Reconcile.SyncListCalls | src/commands/importPackage.js:223-291 | a type's element loop only appends calls of that type, and an empty list appends none |
| Reconcile.SyncBatchesCalls | src/commands/importPackage.js:218-293 | every call `syncElements` sends concerns an exportable type present in its input with a non-empty list |
| Reconcile.SyncTypeCalls | src/commands/importPackage.js:218-291 | one type's turn only appends element calls of that type, and only when the type is exportable and has elements |
| Reconcile.ApplyChainCalls | src/commands/importPackage.js:254-262 | the apply, put-by-key and create fallbacks for a derived element only send calls of the element's own type |
| Reconcile.SyncOneElement | src/commands/importPackage.js:223-291 | the loop body of `syncElements` issues exactly the calls of `SyncElement` |
| Reconcile.SyncElements | src/commands/importPackage.js:218-293 | the nested loops of `syncElements` compute exactly `SyncBatches` |
| Reconcile.SyncTypeRun | src/commands/importPackage.js:218-291 | one type's turn of the outer loop: an unknown type throws, a non-exportable one is skipped, otherwise the inner loop runs |
| Reconcile.SyncElementList | src/commands/importPackage.js:222-291 | the inner loop over one type's elements computes exactly `SyncList` |
| Reconcile.ApplyChain | src/commands/importPackage.js:254-262 | `apply` on the parent, with the put-by-key and then create fallbacks. `Reconcile.ApplyChainCalls` states its calls |
| Reconcile.SyncElement | src/commands/importPackage.js:223-291 | one element's turn: match it, then take the branch `Reconcile.Decide` chooses. Stated by `Reconcile.SyncMatched`, `Reconcile.SyncDerived` and `Reconcile.SyncFresh` |
| Reconcile.SyncList | src/commands/importPackage.js:222-291 | the element loop of one type, stopping at the first error. `Reconcile.SyncListCalls` states its calls |
| Reconcile.SyncType | src/commands/importPackage.js:218-291 | one type's turn: an unknown type throws and a non-exportable one is skipped. `Reconcile.SyncTypeCalls` and `Reconcile.SkipNonExportable` state it |
| Reconcile.SyncBatches | src/commands/importPackage.js:218-293 | `syncElements` over the types in key order. `Reconcile.SyncBatchesCalls` states its calls |
| Connectors.Place | src/commands/importPackage.js:100-103 | filing a connector record sets exactly its own (id, version) slot and leaves every other slot unchanged |
| Connectors.LastUnder | src/commands/importPackage.js:100-103 | the last record with a given (id, version), or none when there is no such record |
| Connectors.GroupLastWins | src/commands/importPackage.js:100-103 | after grouping, each (id, version) slot holds the last source record with that id and version |
| Connectors.GroupConnectors | src/commands/importPackage.js:98-103 | the grouping loop computes exactly `Group` |
| Connectors.Group | src/commands/importPackage.js:98-103 | the grouping of the source connector records by id and then version. `Connectors.GroupLastWins` states its result |
| Connectors.Mapped | src/commands/importPackage.js:121 | reading an unmapped connector id gives `undefined` |
| Connectors.VersionCall | src/commands/importPackage.js:140-158 | the `development` version goes to the upload endpoint, and every other version to `publish-version` with that version |
| Connectors.StoreHitMapsDirectly | src/commands/importPackage.js:116-118 | a connector whose truthy `appUuid` is in the store is mapped to the store connector's id. No call is sent |
| Connectors.SyncVersionWithoutHit | src/commands/importPackage.js:119-158 | without a store hit, a connector record is created only when no truthy mapping exists yet. It is created without `baseUri` and with the destination workspace id, and its id is recorded. Then the upload or publish call for the version follows. A missing archive fails the turn after the create, and a rejected call propagates |
| Connectors.SyncConnectors | src/commands/importPackage.js:105-165 | the loops over connector ids and sorted versions compute exactly `SyncGroups` |
| Connectors.SyncVersion | src/commands/importPackage.js:113-161 | one (connector, version) turn: the store match, otherwise create when unmapped, then the upload or publish. Stated by `Connectors.StoreHitMapsDirectly` and `Connectors.SyncVersionWithoutHit` |
| Connectors.SyncVersions | src/commands/importPackage.js:111-163 | the sorted version loop of one connector. `Connectors.SyncVersionsLog` states its calls and errors |
| Connectors.SyncGroups | src/commands/importPackage.js:105-165 | the loop over connector ids. `Connectors.SyncGroupsLog` states its calls and errors |
| Connectors.SwitchOnVersionDrift | src/commands/importPackage.js:168-200 | for an existing integration: the versions GET is sent first, and the mismatch list is unchanged. The version is switched exactly when the source's truthy `connectorVersion` differs from the destination's. A wanted version missing from the list throws |
| Connectors.CreateMissingIntegration | src/commands/importPackage.js:171-191 | a missing integration from a non-custom workspace is created after the versions GET. A rejected create is caught and appends the integration to the mismatch list, so the run does not fail |
| Connectors.MismatchesFromSource | src/commands/importPackage.js:167-202 | the mismatch list only grows, and only with source integrations |
| Connectors.SyncIntegrationMismatches | src/commands/importPackage.js:168-200 | one integration adds itself to the mismatch list or leaves the list alone |
| Connectors.SyncIntegrationAdds | src/commands/importPackage.js:168-200 | an integration is appended to the mismatch list exactly when the destination has no integration with its key, its `workspaceId` is falsy, the versions GET succeeds, and then its create or the version switch of the created integration is rejected. Otherwise the list is unchanged |
| Connectors.MismatchesInclude | src/commands/importPackage.js:167-202 | after a loop that raised nothing, the mismatch list holds every integration whose create or switch was rejected in its turn |
| Connectors.MismatchesNone | src/commands/importPackage.js:167-202 | when no turn had its create or switch rejected, the loop leaves the mismatch list as it was |
| Connectors.CreateIntegrationStep | src/commands/importPackage.js:178-190 | create a missing integration, then switch its version when the source version exists. `Connectors.CreateIntegrationStepLog` and `Connectors.SyncIntegrationAdds` state it |
| Connectors.SyncIntegration | src/commands/importPackage.js:168-200 | one integration's turn. `Connectors.SwitchOnVersionDrift`, `Connectors.CreateMissingIntegration` and `Connectors.SyncIntegrationAdds` state it |
| Connectors.SyncIntegrationList | src/commands/importPackage.js:167-202 | the integration loop, stopping at the first thrown error. `Connectors.MismatchesInclude` and `Connectors.MismatchesNone` state what it collects |
| Connectors.SyncIntegrationLoop | src/commands/importPackage.js:167-202 | the integration loop computes exactly `SyncIntegrationList` |
| Connectors.SyncIntegrationsOutcome | src/commands/importPackage.js:94-210 | the store GET is always first. Without a `connectors` list the sync throws right after it. A mismatch error carries a non-empty list of source integrations |
| Connectors.SyncIntegrationsStart | src/commands/importPackage.js:94-100 | the store GET is always the first call, and without a `connectors` list the run throws right after it |
| Connectors.SyncIntegrationsMismatch | src/commands/importPackage.js:167-207 | a mismatch error names at least one integration, and only source integrations |
| Connectors.SyncIntegrationsMismatchExactly | src/commands/importPackage.js:94-207 | when the store GET succeeds, both snapshot lists exist, and neither loop throws: a rejected create or switch of some integration ends the run with the mismatch error, and that error names the integration. With none rejected, the run ends without error |
| Connectors.SyncIntegrationsMismatchCause | src/commands/importPackage.js:94-207 | a mismatch error means the store GET succeeded, both lists exist, neither loop threw, and some integration's create or switch was rejected |
| Connectors.IntegrationPhaseOutcome | src/commands/importPackage.js:167-202 | the integration loop itself never raises the mismatch error, and collects only source integrations |
| Connectors.SyncIntegrationsSendsNoElementCalls | src/commands/importPackage.js:94-210 | `syncIntegrations` only appends calls, and none of them is an element call |
| Connectors.SyncVersionLog | src/commands/importPackage.js:113-161 | one version's turn appends no element call and raises no mismatch error |
| Connectors.SyncVersionsLog | src/commands/importPackage.js:111-163 | a connector's version loop appends no element call and raises no mismatch error |
| Connectors.SyncGroupsLog | src/commands/importPackage.js:105-165 | the connector loop appends no element call and raises no mismatch error |
| Connectors.CreateIntegrationStepLog | src/commands/importPackage.js:178-190 | the create-and-switch step never fails the run, and sends no element call |
| Connectors.SyncIntegrationLog | src/commands/importPackage.js:168-200 | one integration's turn appends no element call and raises no mismatch error |
| Connectors.SyncIntegrationRaises | src/commands/importPackage.js:168-200 | one integration's turn never raises the mismatch error |
| Connectors.SyncIntegrationListLog | src/commands/importPackage.js:167-202 | the integration loop appends no element call and raises no mismatch error |
| Connectors.ExtendsTrans | src/commands/importPackage.js:59 | "appends only non-element calls" composes across phases |
| Connectors.SyncIntegrationsRun | src/commands/importPackage.js:94-210 | the imperative `syncIntegrations` computes exactly `SyncIntegrations` |
| Connectors.SyncIntegrations | src/commands/importPackage.js:94-210 | `syncIntegrations`: the store read, the connector phase, then the integration loop and its mismatch error. The `SyncIntegrations…` lemmas state it |
| Import.Stopped | src/commands/importPackage.js:14-92 | a run that stops before the element phases puts all phase marks at the end of its log |
| Import.AsWrittenImportAlwaysAborts | src/commands/importPackage.js:56-59 | as written, every import fails before its first element call, whatever the server and the snapshot |
| Import.AsWrittenAbortsAfterFetch | src/commands/importPackage.js:56-59 | after the inventory fetch, the as-written split or connector sync always throws |
| Import.NoConnectorsAborts | src/commands/importPackage.js:97-100 | without a `connectors` entry, the connector sync throws before any element call |
| Workspace.KnownTypesSplit | src/util.js:80 | a snapshot whose every directory name is a catalog type always splits |
| Workspace.KnownTypesSplitWithout | src/commands/importPackage.js:56 | with one directory name (the import passes `connectors`) kept out, the split succeeds whenever every other directory is a catalog type, whether or not that directory is present |
| Import.ImportPhaseOrder | src/commands/importPackage.js:25-79 | phase order of the corrected import. First only the inventory fetch and connector/integration calls, ending with the refetch of the integration list. Then only universal element calls. Then only `dataSources` calls. Then only the remaining integration-specific types, `dataSources` excluded |
| Import.AfterWorkspaceDataOrder | src/commands/importPackage.js:25-79 | the phase order holds for whatever the inventory fetch returned |
| Import.AfterFetchOrder | src/commands/importPackage.js:56-79 | the phase order holds after the split, and a failed split stops the run with no further call |
| Import.AfterSyncOrder | src/commands/importPackage.js:59-79 | the phase order holds after the connector sync; a failed sync stops the run |
| Import.RefetchedOrder | src/commands/importPackage.js:62-79 | the integration list is refetched right before the element phases start |
| Import.ElementPhasesOrder | src/commands/importPackage.js:65-79 | the three `syncElements` calls run in order, each within its own batches |
| Import.DataSourcesPhase | src/commands/importPackage.js:73-77 | the data-source phase sends only `dataSources` element calls |
| Import.RestPhase | src/commands/importPackage.js:76-79 | the last phase sends only calls for integration-specific batches other than `dataSources` |
| Import.ImportPackageRun | src/commands/importPackage.js:14-92 | the imperative `importPackage` computes exactly `ImportPackage` |
| Import.Pipeline | src/commands/importPackage.js:25-79 | the phases after loading: inventory fetch, split, connector sync, refetch and the three element phases. `Import.ImportPhaseOrder` states their order |
| Import.ImportPackage | src/commands/importPackage.js:14-92 | the corrected `importPackage`, which splits the snapshot without `connectors`. Its order is stated by `Import.ImportPhaseOrder` |
| Import.ImportPackageAsWritten | src/commands/importPackage.js:14-92 | `importPackage` as written, splitting every loaded directory. `Import.AsWrittenImportAlwaysAborts` states that it always aborts |
| Export.ResolveRoot | src/commands/exportPackage.js:15-17 | a non-empty output argument is the root. Otherwise the root is `dist` two directories above the command's directory |
| Export.IntegrationSegment | src/commands/exportPackage.js:35-36 | an element has an integration directory exactly when `integration` or `integrationKey` is truthy. It is `integration.key` when `integration` is truthy, else `integrationKey` |
| Export.Target | src/commands/exportPackage.js:35-45 | a bound element goes to `type/key/ik/ik.yaml`, and a universal one to `type/key/key.yaml`. A universal element whose key is not a string cannot be placed (`path.join` throws) |
| Export.EmptyTypeSkipped | src/commands/exportPackage.js:22 | a type with an empty list creates no directory and writes no file |
| Export.Writes | src/commands/exportPackage.js:42-44 | the file writes of an operation list, a subset of it |
| Export.WritesAppend | src/commands/exportPackage.js:42-44 | the writes of two operation lists concatenate |
| Export.ElementOpsWrites | src/commands/exportPackage.js:29-45 | one element writes exactly its target file, or stops the export exactly when it has no target |
| Export.ExportElementsWrites | src/commands/exportPackage.js:29-46 | a type's element loop writes each element's file in input order, and stops exactly when some element cannot be placed |
| Export.TypeStepWrites | src/commands/exportPackage.js:22-47 | one type writes exactly its layout, and stops exactly when one of its elements cannot be placed |
| Export.ExportTypesWrites | src/commands/exportPackage.js:21-49 | the export writes exactly one file per element, in input order, at its target. It stops exactly when some element cannot be placed |
| Export.TargetInjective | src/commands/exportPackage.js:35-44 | under a root, two elements with slash-free, non-empty segments share a file only when type, key directory and integration directory all agree. A universal and a bound element never collide |
| Export.ExportPackageRun | src/commands/exportPackage.js:15-49 | the loops of `exportPackage` compute exactly `ExportPackage` |
| Export.ExportElementsRun | src/commands/exportPackage.js:29-46 | the element loop of one type computes exactly `ExportElements` |
| Export.ExportTypesRun | src/commands/exportPackage.js:21-49 | the type loop computes exactly `ExportTypes` |
| Export.TypeStepRun | src/commands/exportPackage.js:22-47 | one type's turn: skipped when empty, otherwise the root directory and the element loop |
| Export.ElementOps | src/commands/exportPackage.js:29-45 | one element's directory creation and file write. `Export.ElementOpsWrites` states it |
| Export.ExportElements | src/commands/exportPackage.js:29-46 | the element loop of one type. `Export.ExportElementsWrites` states it |
| Export.TypeStep | src/commands/exportPackage.js:22-47 | one type's turn. `Export.TypeStepWrites` and `Export.EmptyTypeSkipped` state it |
| Export.ExportTypes | src/commands/exportPackage.js:21-49 | the type loop. `Export.ExportTypesWrites` states it |
| Export.ExportPackage | src/commands/exportPackage.js:15-49 | `exportPackage`: resolve the root, fetch the workspace, then the type loop. `Export.ResolveRoot` and `Export.ExportTypesWrites` state it |

## Left out

- I/O is not modelled.
  - The snapshot-loading loop (`src/commands/importPackage.js:32-54`) becomes a parameter: the loaded dictionary of type directories.
  - YAML parsing and dumping are not modelled; an exported file's content is the element itself.
  - `readdirSync` falling back to `mkdirSync` becomes one "ensure directory" operation, and file-system failures are not modelled.
- The connector zip upload is reduced as follows:
  - only the zip path and whether the file exists are modelled, through an oracle;
  - the file's bytes, `FormData` and the changelog text are left out.
- Environment variables:
  - `IMPORT_WORKSPACE_ID` becomes a parameter;
  - the key, secret and API URI only configure the client, so they are left out;
  - `generateAccessToken` is a JWT library call and is left out.
- Logging is left out: `coloredLog`, `console.table` and the `logs` argument of `getWorkspaceData` are output only.
- Warnings are not modelled. `syncIntegrations` never pushes one, so the list `importPackage` prints is always empty.
- `getWorkspaceId` is not called anywhere, so it is not modelled.
- `versions[0].Id` is read but never used, so it is not modelled. The versions list is never empty there, so the read cannot throw.
- The mutation of element records is modelled on values.
  - `delete element.integrationId`, `delete connector.baseUri` and the `integrationId` assignment all produce new records.
  - The source never reads the mutated records again after those writes, so nothing observable is lost.
- JavaScript is approximated in these ways:
  - numbers are integers;
  - loose equality `==` compares values of the same kind structurally, and treats `null` and `undefined` as equal to each other; the cross-type coercions are not modelled;
  - object keys keep insertion order, so the integer-like keys that JavaScript lists first are not special;
  - strings are sequences of characters, and the string order stands for UTF-16 code-unit order;
  - `path.join` is joining with `/`, with no normalisation of empty segments, `..` or repeated slashes.
- `Catalog.EntryFor` answers only for the eight declared type names. In JavaScript, `INTEGRATION_ELEMENTS[t]` also finds the members every object inherits from `Object.prototype`, such as `toString`, `constructor` and `__proto__`. Those lookups are not modelled: the model treats such a name like any other unknown type.
- `Workspace.SplitWorkspace` therefore fails on a directory named after an inherited member, while the source (src/util.js:80) reads its `integrationSpecific` as `undefined` and files the whole directory as universal. For such a name the source fails later instead: `syncElements` does not skip it (src/commands/importPackage.js:221), and `matchElement` throws on its first element (src/commands/importPackage.js:301). An empty directory of that name is never noticed.
- `Export.TargetInjective` requires slash-free, non-empty segments. Without them `path.join` normalisation can merge paths, and the model does not capture that.
- `Reconcile.MatchElement` itself states only the missing-type error. Its full meaning is stated and proved in `Reconcile.MatchElementMeaning`.
- `Reconcile.SyncDerived` does not pin down which calls the put-then-create fallback sends after a rejected `apply`. It states that the chain runs (`ApplyChain`), and only the order of that chain is modelled.
- `Connectors.CreateMissingIntegration` does not say whether the version switch of the newly created integration happens. It states only the GET-then-create order and the catching of a rejection.
- The React UI and its JWT signing, the CLI wiring, the ad-hoc sync script and the legacy JSON-only export command are not part of this model.

## Findings

| source | as written | input that shows it | evidently intended | confidence | as-written member | corrected member |
|---|---|---|---|---|---|---|
| src/commands/importPackage.js:56-100 | `splitWorkspaceData(data)` runs over every loaded directory, including `connectors`, which has no catalog entry, so reading `INTEGRATION_ELEMENTS["connectors"].integrationSpecific` throws. Without a `connectors` directory, `syncIntegrations` iterates the undefined `sourceData.connectors` and throws. | Any export snapshot. With a `connectors` directory the import fails in the split; without one it fails right after the store GET. Either way no element is ever synced. | Connector records feed only the connector sync. The split should see the remaining directories only. | high; not executed | Import.AsWrittenImportAlwaysAborts | Import.ImportPackage (Workspace.KnownTypesSplitWithout, Import.ImportPhaseOrder) |

/** The element catalog (`INTEGRATION_ELEMENTS`) and the export cleanup
    transforms that strip destination-assigned fields. */
module Catalog {
  import opened Js

  /** The per-type `exportCleanup` hook; only field mappings have one. */
  datatype Cleanup = NoCleanup | DropDataSourceId

  /** One catalog entry: the SDK accessor names (singular and plural), whether
      the type can be exported, whether its elements can be bound to one
      integration, and its cleanup hook.  An entry written without
      `exportable` counts as exportable (the source tests `=== false`). */
  datatype Entry = Entry(
    element: string,
    elements: string,
    exportable: bool,
    integrationSpecific: bool,
    exportCleanup: Cleanup)

  /** The catalog's keys in declaration order, which is the order of
      `Object.values(INTEGRATION_ELEMENTS)`. */
  const TypeNames: seq<string> :=
    ["integrations", "actions", "appDataSchemas", "appEventTypes",
     "dataLinkTables", "dataSources", "fieldMappings", "flows"]

  /** The types whose elements may belong to a single integration. */
  const IntegrationSpecificTypes: set<string> :=
    {"actions", "dataSources", "fieldMappings", "flows"}

  /** `INTEGRATION_ELEMENTS[t]`, or `None` when the catalog has no such key
      (reading a field of it then throws). */
  function EntryFor(t: string): Option<Entry>
  {
    match t
    case "integrations" => Some(Entry("integration", "integrations", false, false, NoCleanup))
    case "actions" => Some(Entry("action", "actions", true, true, NoCleanup))
    case "appDataSchemas" => Some(Entry("appDataSchema", "appDataSchemas", true, false, NoCleanup))
    case "appEventTypes" => Some(Entry("appEventType", "appEventTypes", true, false, NoCleanup))
    case "dataLinkTables" => Some(Entry("dataLinkTable", "dataLinkTables", true, false, NoCleanup))
    case "dataSources" => Some(Entry("dataSource", "dataSources", true, true, NoCleanup))
    case "fieldMappings" => Some(Entry("fieldMapping", "fieldMappings", true, true, DropDataSourceId))
    case "flows" => Some(Entry("flow", "flows", true, true, NoCleanup))
    case _ => None
  }

  /** What the catalog says about each key: exactly the eight types have
      entries; each entry's plural name is its own key; `integrations` is the
      only non-exportable type; the integration-specific types are exactly
      the four of `IntegrationSpecificTypes`; and only field mappings carry a
      cleanup hook. */
  lemma EntryForMeaning(t: string)
    ensures var r := EntryFor(t);
      && (r.Some? <==> t in TypeNames)
      && (r.Some? ==> r.value.elements == t)
      && (r.Some? ==> (!r.value.exportable <==> t == "integrations"))
      && (r.Some? ==> (r.value.integrationSpecific <==> t in IntegrationSpecificTypes))
      && (r.Some? ==> (r.value.exportCleanup == DropDataSourceId <==> t == "fieldMappings"))
  {
  }

  /** `Object.values(INTEGRATION_ELEMENTS)`. */
  function Entries(): (r: seq<Entry>)
    ensures |r| == |TypeNames|
    ensures forall i :: 0 <= i < |r| ==> EntryFor(TypeNames[i]) == Some(r[i])
  {
    seq(|TypeNames|, i requires 0 <= i < |TypeNames| => EntryFor(TypeNames[i]).value)
  }

  /** Fields the platform assigns per workspace, dropped by every export. */
  const BaseStrippedFields: set<string> := {"workspaceId", "createdAt", "updatedAt"}

  /** `baseExportCleanup`: removes exactly the workspace id and the two
      timestamps; every other field is kept with its value. */
  function BaseExportCleanup(e: Element): (r: Element)
    ensures forall k :: k in r <==> k in e && k !in BaseStrippedFields
    ensures forall k :: k in r ==> r[k] == e[k]
  {
    e - BaseStrippedFields
  }

  /** The field-mapping `exportCleanup`: removes exactly `dataSourceId`. */
  function DropDataSource(e: Element): (r: Element)
    ensures forall k :: k in r <==> k in e && k != "dataSourceId"
    ensures forall k :: k in r ==> r[k] == e[k]
  {
    e - {"dataSourceId"}
  }

  function RunCleanup(c: Cleanup, e: Element): Element
  {
    match c
    case NoCleanup => e
    case DropDataSourceId => DropDataSource(e)
  }

  /** Applying `baseExportCleanup` twice is the same as applying it once. */
  lemma BaseExportCleanupIdempotent(e: Element)
    ensures BaseExportCleanup(BaseExportCleanup(e)) == BaseExportCleanup(e)
  {
  }
}

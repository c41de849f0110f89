/** `importPackage`: fetch the destination inventory, split the loaded
    snapshot, sync connectors and integrations, refetch the integration
    list, then sync elements in three phases — universal elements, data
    sources, and the remaining integration-specific types. */
module Import {
  import opened Js
  import opened Catalog
  import opened Remote
  import opened Workspace
  import opened Reconcile
  import Connectors

  /** The calls and the outcome of an import, with the log positions at
      which the three element phases begin.  A run that stops before the
      element phases has all three marks at the end of its log. */
  datatype Import = Import(log: seq<Call>, err: Option<Error>, universalFrom: nat, dataSourcesFrom: nat, restFrom: nat)

  function Stopped(log: seq<Call>, err: Option<Error>): (r: Import)
    ensures r.universalFrom == r.dataSourcesFrom == r.restFrom == |r.log|
  {
    Import(log, err, |log|, |log|, |log|)
  }

  /** The three `syncElements` calls.  `if (integrationSpecificElements.dataSources)`
      tests an array, which is truthy whenever the key is present, even empty. */
  function ElementPhases(server: Server, log: seq<Call>, inventory: Dict<seq<Element>>,
                         universal: Dict<seq<Element>>, specific: Dict<seq<Element>>): Import
  {
    var u := SyncBatches(server, Run(log, None), inventory, universal);
    if u.Failed() then Import(u.log, u.err, |log|, |u.log|, |u.log|)
    else
      var sources := Lookup(specific, "dataSources");
      var d := if sources.Some? then SyncBatches(server, u, inventory, [("dataSources", sources.value)]) else u;
      if d.Failed() then Import(d.log, d.err, |log|, |u.log|, |d.log|)
      else
        var rest := if sources.Some? then Remove(specific, "dataSources") else specific;
        var s := SyncBatches(server, d, inventory, rest);
        Import(s.log, s.err, |log|, |u.log|, |d.log|)
  }

  /** The pipeline, given the loaded snapshot and the dictionary that is
      handed to `splitWorkspaceData`. */
  function Pipeline(server: Server, env: Connectors.Env, log0: seq<Call>,
                    loaded: Dict<seq<Element>>, toSplit: Dict<seq<Element>>): Import
  {
    AfterWorkspaceData(server, env, WorkspaceData(server, log0), loaded, toSplit)
  }

  function AfterWorkspaceData(server: Server, env: Connectors.Env, wd: Fetch,
                              loaded: Dict<seq<Element>>, toSplit: Dict<seq<Element>>): Import
  {
    if wd.err.Some? then Stopped(wd.log, wd.err)
    else AfterFetch(server, env, wd.log, wd.data, loaded, SplitWorkspace(toSplit))
  }

  /** After `getWorkspaceData` and `splitWorkspaceData`: sync connectors
      and integrations against the fetched inventory. */
  function AfterFetch(server: Server, env: Connectors.Env, log: seq<Call>, inventory: Dict<seq<Element>>,
                      loaded: Dict<seq<Element>>, split: Split): Import
  {
    match split
    case SplitFailed(error) => Stopped(log, Some(error))
    case Split(universal, specific) =>
      AfterSync(server, Connectors.SyncIntegrations(server, env, log, loaded, inventory), inventory, universal, specific)
  }

  function AfterSync(server: Server, s: Run, inventory: Dict<seq<Element>>,
                     universal: Dict<seq<Element>>, specific: Dict<seq<Element>>): Import
  {
    if s.Failed() then Stopped(s.log, s.err)
    else Refetched(server, s.log, inventory, universal, specific)
  }

  /** `workspaceData.integrations = await iApp.integrations.findAll()`, then the element phases. */
  function Refetched(server: Server, log: seq<Call>, inventory: Dict<seq<Element>>,
                     universal: Dict<seq<Element>>, specific: Dict<seq<Element>>): Import
  {
    var refetch := FindAll("integrations", None);
    if !server.succeeds(log, refetch) then Stopped(log + [refetch], Some(Rejected(refetch)))
    else ElementPhases(server, log + [refetch], Assign(inventory, "integrations", server.list(log, refetch)), universal, specific)
  }

  /** `importPackage` as written: the whole loaded snapshot, `connectors`
      directory included, is split. */
  function ImportPackageAsWritten(server: Server, env: Connectors.Env, log0: seq<Call>, loaded: Dict<seq<Element>>): Import
  {
    Pipeline(server, env, log0, loaded, loaded)
  }

  /** `importPackage` with the connector records kept out of the split:
      they are consumed by the connector sync and are not catalog elements. */
  function ImportPackage(server: Server, env: Connectors.Env, log0: seq<Call>, loaded: Dict<seq<Element>>): Import
  {
    Pipeline(server, env, log0, loaded, Remove(loaded, "connectors"))
  }

  /** As written, every import throws before its first element call: with a
      `connectors` directory the split meets a type the catalog lacks, and
      without one the connector sync iterates an undefined list. */
  lemma AsWrittenImportAlwaysAborts(server: Server, env: Connectors.Env, log0: seq<Call>, loaded: Dict<seq<Element>>)
    ensures var r := ImportPackageAsWritten(server, env, log0, loaded);
      r.err.Some? && Connectors.Extends(log0, r.log)
  {
    WorkspaceDataReadsOnly(server, log0);
    AsWrittenAbortsAfterFetch(server, env, log0, WorkspaceData(server, log0), loaded);
  }

  lemma AsWrittenAbortsAfterFetch(server: Server, env: Connectors.Env, log0: seq<Call>, wd: Fetch, loaded: Dict<seq<Element>>)
    requires Connectors.Extends(log0, wd.log)
    ensures var r := AfterWorkspaceData(server, env, wd, loaded, loaded);
      r.err.Some? && Connectors.Extends(log0, r.log)
  {
    if wd.err.None? {
      var split := SplitWorkspace(loaded);
      if "connectors" in Keys(loaded) {
        var i :| 0 <= i < |loaded| && loaded[i].0 == "connectors";
        EntryForMeaning(loaded[i].0);
        assert EntryFor(loaded[i].0).None?;
      } else if split.Split? {
        NoConnectorsAborts(server, env, wd.log, wd.data, loaded, split);
        Connectors.ExtendsTrans(log0, wd.log, AfterFetch(server, env, wd.log, wd.data, loaded, split).log);
      }
    }
  }

  /** Without a `connectors` list the connector sync throws right after
      reading the store, so nothing reaches the element phases. */
  lemma NoConnectorsAborts(server: Server, env: Connectors.Env, log: seq<Call>, inventory: Dict<seq<Element>>,
                           loaded: Dict<seq<Element>>, split: Split)
    requires Lookup(loaded, "connectors").None? && split.Split?
    ensures var r := AfterFetch(server, env, log, inventory, loaded, split);
      r.err.Some? && Connectors.Extends(log, r.log)
  {
    Connectors.SyncIntegrationsOutcome(server, env, log, loaded, inventory);
    Connectors.SyncIntegrationsSendsNoElementCalls(server, env, log, loaded, inventory);
  }

  /** The phases of an import in order: nothing but the inventory fetch and
      connector/integration calls before the refetch of the integration
      list; then only universal element types; then only `dataSources`;
      then only the remaining integration-specific types, `dataSources`
      excluded. */
  lemma ImportPhaseOrder(server: Server, env: Connectors.Env, log0: seq<Call>, loaded: Dict<seq<Element>>)
    ensures Ordered(ImportPackage(server, env, log0, loaded), log0, SplitWorkspace(Remove(loaded, "connectors")))
  {
    WorkspaceDataReadsOnly(server, log0);
    AfterWorkspaceDataOrder(server, env, log0, WorkspaceData(server, log0), loaded, Remove(loaded, "connectors"));
  }

  /** The marks are in order after the start log; before the universal mark
      there are only non-element calls, ending with the refetch of the
      integration list; and, when the split succeeded, each phase stays
      within its batches. */
  predicate Ordered(r: Import, log0: seq<Call>, split: Split)
  {
    && |log0| <= r.universalFrom <= r.dataSourcesFrom <= r.restFrom <= |r.log|
    && Connectors.Extends(log0, r.log[..r.universalFrom])
    && (0 < r.universalFrom < |r.log| ==> r.log[r.universalFrom - 1] == FindAll("integrations", None))
    && (split.Split? ==> PhasesConfined(r, split))
  }

  lemma AfterWorkspaceDataOrder(server: Server, env: Connectors.Env, log0: seq<Call>, wd: Fetch,
                                loaded: Dict<seq<Element>>, toSplit: Dict<seq<Element>>)
    requires Connectors.Extends(log0, wd.log)
    ensures Ordered(AfterWorkspaceData(server, env, wd, loaded, toSplit), log0, SplitWorkspace(toSplit))
  {
    var r := AfterWorkspaceData(server, env, wd, loaded, toSplit);
    if wd.err.None? {
      AfterFetchOrder(server, env, wd.log, wd.data, loaded, SplitWorkspace(toSplit));
      assert r == AfterFetch(server, env, wd.log, wd.data, loaded, SplitWorkspace(toSplit));
      OrderedFromEarlier(r, log0, wd.log, SplitWorkspace(toSplit));
    } else {
      assert r.log[..r.universalFrom] == wd.log;
    }
  }

  /** Order after a log carries over to any earlier log that it extends
      by non-element calls. */
  lemma OrderedFromEarlier(r: Import, log0: seq<Call>, log: seq<Call>, split: Split)
    requires Connectors.Extends(log0, log) && Ordered(r, log, split)
    ensures Ordered(r, log0, split)
  {
    Connectors.ExtendsTrans(log0, log, r.log[..r.universalFrom]);
  }

  /** Element calls between the marks stay within their phase's batches. */
  predicate PhasesConfined(r: Import, split: Split)
    requires split.Split?
    requires r.universalFrom <= r.dataSourcesFrom <= r.restFrom <= |r.log|
  {
    && CallsFrom(r.log[r.universalFrom..r.dataSourcesFrom], split.universal)
    && (forall c :: c in r.log[r.dataSourcesFrom..r.restFrom] ==> IsElementCall(c) && c.typ == "dataSources")
    && CallsFrom(r.log[r.restFrom..], split.specific)
    && (forall c :: c in r.log[r.restFrom..] ==> IsElementCall(c) && c.typ != "dataSources")
  }

  lemma AfterFetchOrder(server: Server, env: Connectors.Env, log: seq<Call>, inventory: Dict<seq<Element>>,
                        loaded: Dict<seq<Element>>, split: Split)
    ensures Ordered(AfterFetch(server, env, log, inventory, loaded, split), log, split)
  {
    if split.SplitFailed? {
      assert log[..|log|] == log && log[|log|..] == [];
    } else {
      Connectors.SyncIntegrationsSendsNoElementCalls(server, env, log, loaded, inventory);
      AfterSyncOrder(server, log, Connectors.SyncIntegrations(server, env, log, loaded, inventory), inventory, split.universal, split.specific);
    }
  }

  lemma AfterSyncOrder(server: Server, log: seq<Call>, s: Run, inventory: Dict<seq<Element>>,
                       universal: Dict<seq<Element>>, specific: Dict<seq<Element>>)
    requires Connectors.Extends(log, s.log)
    ensures Ordered(AfterSync(server, s, inventory, universal, specific), log, Split(universal, specific))
  {
    var r := AfterSync(server, s, inventory, universal, specific);
    if s.Failed() {
      assert r.log[..r.universalFrom] == s.log;
      assert r.log[r.restFrom..] == [];
    } else {
      RefetchedOrder(server, s.log, inventory, universal, specific);
      var refetched := s.log + [FindAll("integrations", None)];
      assert Connectors.Extends(s.log, refetched);
      Connectors.ExtendsTrans(log, s.log, refetched);
    }
  }

  lemma RefetchedOrder(server: Server, log: seq<Call>, inventory: Dict<seq<Element>>,
                       universal: Dict<seq<Element>>, specific: Dict<seq<Element>>)
    ensures var r := Refetched(server, log, inventory, universal, specific);
      && |log| < r.universalFrom <= r.dataSourcesFrom <= r.restFrom <= |r.log|
      && r.log[..r.universalFrom] == log + [FindAll("integrations", None)]
      && (0 < r.universalFrom < |r.log| ==> r.log[r.universalFrom - 1] == FindAll("integrations", None))
      && PhasesConfined(r, Split(universal, specific))
  {
    var refetch := FindAll("integrations", None);
    var r := Refetched(server, log, inventory, universal, specific);
    if server.succeeds(log, refetch) {
      var inventory' := Assign(inventory, "integrations", server.list(log, refetch));
      ElementPhasesOrder(server, log + [refetch], inventory', universal, specific);
      assert r == ElementPhases(server, log + [refetch], inventory', universal, specific);
    } else {
      assert r == Stopped(log + [refetch], Some(Rejected(refetch)));
      assert r.log[r.restFrom..] == [];
    }
  }

  /** The three element phases, each confined to its own batches. */
  lemma ElementPhasesOrder(server: Server, log: seq<Call>, inventory: Dict<seq<Element>>,
                           universal: Dict<seq<Element>>, specific: Dict<seq<Element>>)
    ensures var r := ElementPhases(server, log, inventory, universal, specific);
      && r.universalFrom == |log| <= r.dataSourcesFrom <= r.restFrom <= |r.log|
      && r.log[..|log|] == log
      && PhasesConfined(r, Split(universal, specific))
  {
    var r := ElementPhases(server, log, inventory, universal, specific);
    var u := SyncBatches(server, Run(log, None), inventory, universal);
    SyncBatchesCalls(server, Run(log, None), inventory, universal);
    if u.Failed() {
      assert r.log[r.restFrom..] == [] && r.log[r.dataSourcesFrom..r.restFrom] == [];
      return;
    }
    var sources := Lookup(specific, "dataSources");
    var d := if sources.Some? then SyncBatches(server, u, inventory, [("dataSources", sources.value)]) else u;
    DataSourcesPhase(server, u, inventory, specific);
    assert r.log[..|u.log|] == u.log by {
      if !d.Failed() {
        var rest := if sources.Some? then Remove(specific, "dataSources") else specific;
        SyncBatchesCalls(server, d, inventory, rest);
      }
    }
    if d.Failed() {
      assert r.log[r.restFrom..] == [];
      return;
    }
    var rest := if sources.Some? then Remove(specific, "dataSources") else specific;
    RestPhase(server, d, inventory, specific);
    var s := SyncBatches(server, d, inventory, rest);
    assert s.log[|log|..|u.log|] == u.log[|log|..];
    assert s.log[|u.log|..|d.log|] == d.log[|u.log|..];
  }

  /** The data-sources phase: calls on `dataSources` only. */
  lemma DataSourcesPhase(server: Server, u: Run, inventory: Dict<seq<Element>>, specific: Dict<seq<Element>>)
    ensures var sources := Lookup(specific, "dataSources");
      var d := if sources.Some? then SyncBatches(server, u, inventory, [("dataSources", sources.value)]) else u;
      && |u.log| <= |d.log| && d.log[..|u.log|] == u.log
      && forall c :: c in d.log[|u.log|..] ==> IsElementCall(c) && c.typ == "dataSources"
  {
    var sources := Lookup(specific, "dataSources");
    if sources.Some? {
      var batch := [("dataSources", sources.value)];
      SyncBatchesCalls(server, u, inventory, batch);
      var d := SyncBatches(server, u, inventory, batch);
      forall c | c in d.log[|u.log|..] ensures IsElementCall(c) && c.typ == "dataSources" {
        var i :| 0 <= i < |batch| && batch[i].0 == c.typ && |batch[i].1| > 0;
      }
    } else {
      assert u.log[|u.log|..] == [];
    }
  }

  /** The last phase: calls on the remaining integration-specific types, never `dataSources`. */
  lemma RestPhase(server: Server, d: Run, inventory: Dict<seq<Element>>, specific: Dict<seq<Element>>)
    ensures var sources := Lookup(specific, "dataSources");
      var rest := if sources.Some? then Remove(specific, "dataSources") else specific;
      var s := SyncBatches(server, d, inventory, rest);
      && |d.log| <= |s.log| && s.log[..|d.log|] == d.log
      && CallsFrom(s.log[|d.log|..], specific)
      && forall c :: c in s.log[|d.log|..] ==> IsElementCall(c) && c.typ != "dataSources"
  {
    var sources := Lookup(specific, "dataSources");
    var rest := if sources.Some? then Remove(specific, "dataSources") else specific;
    SyncBatchesCalls(server, d, inventory, rest);
    var s := SyncBatches(server, d, inventory, rest);
    forall c | c in s.log[|d.log|..]
      ensures c.typ != "dataSources"
      ensures exists i :: 0 <= i < |specific| && specific[i].0 == c.typ && |specific[i].1| > 0
    {
      var i :| 0 <= i < |rest| && rest[i].0 == c.typ && |rest[i].1| > 0;
      if sources.Some? {
        var j :| 0 <= j < |specific| && specific[j] == rest[i];
      } else {
        assert Keys(specific)[i] == specific[i].0;
      }
    }
  }

  /** The imperative `importPackage`, with the split corrected. */
  method ImportPackageRun(server: Server, env: Connectors.Env, log0: seq<Call>, loaded: Dict<seq<Element>>)
    returns (r: Import)
    ensures r == ImportPackage(server, env, log0, loaded)
  {
    var workspaceData := GetWorkspaceData(server, log0);
    if workspaceData.err.Some? {
      return Stopped(workspaceData.log, workspaceData.err);
    }
    var split := SplitWorkspaceData(Remove(loaded, "connectors"));
    if split.SplitFailed? {
      return Stopped(workspaceData.log, Some(split.error));
    }
    var synced := Connectors.SyncIntegrationsRun(server, env, workspaceData.log, loaded, workspaceData.data);
    if synced.Failed() {
      return Stopped(synced.log, synced.err);
    }
    var refetch := FindAll("integrations", None);
    var ok := server.succeeds(synced.log, refetch);
    var integrations := server.list(synced.log, refetch);
    var log := synced.log + [refetch];
    if !ok {
      return Stopped(log, Some(Rejected(refetch)));
    }
    var inventory := Assign(workspaceData.data, "integrations", integrations);
    var specific := split.specific;
    var u := SyncElements(server, Run(log, None), inventory, split.universal);
    if u.Failed() {
      return Import(u.log, u.err, |log|, |u.log|, |u.log|);
    }
    var d := u;
    var sources := Lookup(specific, "dataSources");
    if sources.Some? {
      d := SyncElements(server, u, inventory, [("dataSources", sources.value)]);
      if d.Failed() {
        return Import(d.log, d.err, |log|, |u.log|, |d.log|);
      }
      specific := Remove(specific, "dataSources");
    }
    var s := SyncElements(server, d, inventory, specific);
    r := Import(s.log, s.err, |log|, |u.log|, |d.log|);
  }
}
